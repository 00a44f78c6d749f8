# Verified model of the field-operations backend

The backend supports contract tractor work. It simulates a tractor with its implements before a job,
takes telemetry while the job runs, and bills the farmer when it stops. This project models the parts
of it that decide numbers and money, and proves what they promise.

It has two halves.

**Sessions, telemetry and billing.** A session is started, paused, resumed, and stopped or cancelled
(`Sessions`). Its owner's rate is locked at start (`RateCard`), its pauses are kept in a ledger, and its
charge is written once when it ends: hours or hectares, times the rate, rounded half-up (`Billing`,
`Rounding`, `FieldArea`), with a printed note (`CostNotes`, `Decimals`). `SessionLaws` and `SessionRuns`
prove what holds over every run of requests, `SessionEnds` which request ends a session and what it
charges, `PauseSpans` which fixes the requests keep out of the area, and `RateRuns` how an owner's amount
reaches the bill. Readings pass through a micro-batch buffer
(`IngestBuffer`) into the database (`Ingestion`, `Telemetry`). `FlushProtocol` interleaves producers,
flushers and other writers step by step, and `StopOrder` puts the stop route among them: what it measures
after its flush. `Alerts` evaluates stored readings.

**Traction and ballast.** `Traction` holds the Brixius relations and what the solvers need of them:
concavity in slip, monotonicity in load. `SlipSolver`, `FrontBallast` and `RearBallast` are the grid
search, the bisection and the fixed point, each as the loop and as a function with proved meaning.
`AxleLoads` and `PowerFuel` are the balances and the power chain. `Modes` puts the three simulation modes
together, `Simulation` runs them step by step, and `ModeLaws` proves how whole runs relate. `JobLaws` states
what each mode tows and how its axles balance, in the mode's own inputs; `ReportLaws` proves that the
figures and warnings of a report agree with one another. `Calculus`
derives positivity, monotonicity and convexity of exp from exp(a + b) = exp(a) exp(b) and
exp(x) >= 1 + x, and the root from sqrt(x)^2 = x.

Time is in microseconds, hours in 10^-6 h, rates in 10^-4 Rs, areas in 10^-4 ha, totals in paise. Engine
quantities are exact reals. Requests are serialized transactions under a non-decreasing clock. A
refused request is a result, never a precondition. What the rest of the world does (rows other writers
commit, rows the database refuses, an unreachable database) is a parameter.

Where the code does less than its comments say, the code is modelled and the exact condition proved:

- The interpolated slip meets the draft, and meets it exactly if and only if the trial step does
  (`InterpolationMeetsDraft`, with a run that overshoots in `InterpolationOvershoots`).
- A search that reaches the 20% cap is never converged, even if the draft is met there
  (`CapHidesConvergence`).
- Quantizing hours can move totals at ordinary rates. It moves none of a rate's totals exactly for odd
  shares of Rs 10,000/hr (`QuantumNeverMovesTotal`).
- A null second tool leaves a run unchanged unless the first tool was entered without weight, away from the
  hitch, and with soil reaction (`NullSecondTool`, `WeightlessToolDiffers`).
- A straight step across a pause is still billed if it is at most 500 m (`StepAcrossPause`).
- A positive rate below 0.00005 is accepted and can start no session (`PostedRateLocks`).
- A flush can lose a reading without counting it: after a lost race, when the database refuses its row
  (`FatesExactly`). It can also count as dropped what it stored (`FanOutFailureCountsStored`).

## Model

| member | source | states |
|---|---|---|
| `Traction.MobilityFallsWithLoad` | app/core/legacy_algorithms.py:307-322 | the wheel numeric falls as the wheel load rises |
| `Traction.GrossTractionRatio` | app/core/legacy_algorithms.py:367-378 | the traction envelope stays strictly between 0 and 0.88 |
| `Traction.SlipFactorConcave` | app/core/legacy_algorithms.py:402-421 | the slip factor is strictly concave in slip |
| `Traction.NetTractionBelowScale` | app/core/legacy_algorithms.py:402-421 | net traction stays below the envelope, so no wheel develops more than 0.88 of its own load as net pull |
| `Traction.NetTractionRisesWithMobility` | app/core/legacy_algorithms.py:402-421 | at a given slip, net traction rises with the wheel numeric |
| `Traction.NetTractionConcave` | app/core/legacy_algorithms.py:402-421 | net traction lies strictly above every chord of its curve over slip |
| `Traction.ResistanceIsLostTraction` | app/core/legacy_algorithms.py:341-421 | net traction and the rear rolling coefficient add up to what the envelope develops at the slip, plus 0.04; without slip the rear coefficient is the front one |
| `Traction.BrixiusIsSound` | app/core/legacy_algorithms.py:341-421 | the engine's relations have the five properties every solver below relies on |
| `SlipSolver.SolveSlip` | app/core/legacy_algorithms.py:618-692 | the solver with its refusals equals the search for the first trial that meets the draft; the 500-step net never ends it |
| `SlipSolver.SearchSlip` | app/core/legacy_algorithms.py:644-692 | the loop, with its step, cap, interpolation and re-evaluation, ends on the first meeting trial or at the cap within 180 steps |
| `SlipSolver.FirstMeeting` | app/core/legacy_algorithms.py:653-668 | the trial found meets the draft and no earlier trial does |
| `SlipSolver.ConvergedSlip` | app/core/legacy_algorithms.py:653-692 | a converged search reports a slip in (previous trial, stopping trial] within [2, 20), whose re-evaluated pull is at least the draft, and equals it if and only if the pull at the stopping trial does |
| `SlipSolver.InterpolationMeetsDraft` | app/core/legacy_algorithms.py:674-681 | on a strictly concave curve the interpolated slip meets the draft, and meets it exactly if and only if the pull at the upper trial equals the draft (the comment at lines 599-601 claims equality always) |
| `SlipSolver.InterpolationOvershoots` | app/core/legacy_algorithms.py:674-681 | a concrete wheel and draft whose converged run reports a pull above the draft |
| `SlipSolver.ConvergesIffSomeTrialMeets` | app/core/legacy_algorithms.py:653-672 | a search converges exactly when a trial below 20% meets the draft; otherwise it reports exactly 20% |
| `SlipSolver.CapHidesConvergence` | app/core/legacy_algorithms.py:664-672 | a concrete wheel and draft for which the pull at the 20% cap meets the draft and the run is still not converged |
| `SlipSolver.PullIsConcave` | app/core/legacy_algorithms.py:402-421 | the pull of a driven axle is strictly concave in slip for every wheel and load |
| `SlipSolver.ConvergedRunPulls` | app/core/legacy_algorithms.py:618-692 | at the reported slip of a converged run, mu times the axle load is at least the draft |
| `AxleLoads.Balance.SharesAddUp` | app/core/legacy_algorithms.py:293-304 | the shares of added front ballast carried by the two axles add up to one |
| `AxleLoads.Balance.LoadsAreAffine` | app/core/combi_algorithms.py:221-277 | both axle loads are affine in added front ballast, for the single, passive-passive and active-passive balances |
| `AxleLoads.Balance.MomentsBalance` | app/core/combi_algorithms.py:234-277 | equilibrium about the rear contact point: front load times span is the tractor's moment before it, less the hung moment behind it, plus the draft's, less the rotor load times span; the two loads add up |
| `AxleLoads.Balance.LoadsMove` | app/core/combi_algorithms.py:234-277 | how both loads move with draft, hung weight and rotor load, with signs and arms |
| `FrontBallast.SolveLeastMass` | app/core/legacy_algorithms.py:734-755 | growing the bracket and halving it 200 times returns what LeastMassFound characterises |
| `FrontBallast.LeastMassFound` | app/core/legacy_algorithms.py:734-755 | the search finds any threshold mass to half the tolerance, 200 halvings suffice, and it gives up exactly above 5000 * 1.6^39 kg |
| `FrontBallast.NoMassReported` | app/core/legacy_algorithms.py:739-745 | where no mass reaches the target the search reports none |
| `FrontBallast.FrontBallastRequired` | app/core/legacy_algorithms.py:695-755 | the front-ballast solver for a balance equals the least-mass search on its weight utilisation |
| `FrontBallast.FrontBallastMatchesClosedForm` | app/core/legacy_algorithms.py:730-755 | the bisection agrees with the closed form of the affine balance: 0 where the target is met, none exactly where no mass in reach suffices, otherwise the least mass to half the tolerance |
| `FrontBallast.LeastMassCarriesAFifth` | app/core/legacy_algorithms.py:695-755 | with the closed-form mass in front the front axle carries 0.20 of tractor and ballast |
| `FrontBallast.ResolvedLoadsArePositive` | app/core/legacy_algorithms.py:893-922 | resolved axle loads are both strictly positive and sum to tractor, implement, soil reaction and fitted ballast |
| `RearBallast.FixedPoint` | app/core/legacy_algorithms.py:806-833 | the loop ends settled, powerless, stalled or unsettled exactly as the recursive iteration does |
| `RearBallast.RearBallastRequired` | app/core/legacy_algorithms.py:758-833 | the solver from seed to kilograms is the sizing that RearSizingMeaning interprets and proves sufficient |
| `RearBallast.LoadCurveFalls` | app/core/legacy_algorithms.py:800-804 | at a fixed slip net traction falls as the axle load rises |
| `RearBallast.TrialLoadsAreMonotone` | app/core/legacy_algorithms.py:806-826 | the trial loads form a monotone sequence whose direction is that of the first step |
| `RearBallast.SettledSolves` | app/core/legacy_algorithms.py:806-833 | where the pull falls short, the load the iteration settles on solves R = D / mu(R) to the tolerance, from above |
| `RearBallast.RearSizingMeaning` | app/core/legacy_algorithms.py:800-833 | an answer is positive exactly where the present load falls short at the target slip; with it the axle pulls the draft there to 10^-4 N; it never exceeds a sufficient load at or above the seed, and a refusal means no such load suffices |
| `RearBallast.ConvergedRunNeedsNoRearBallast` | app/core/combi_algorithms.py:931-940 | sizing at the slip of a converged search gives exactly 0, or none if the iteration does not settle |
| `PowerFuel.TurningOnlyLowersCapacity` | app/core/dss_shared.py:222-294 | actual capacity is positive and at most the theoretical one, and equal to it exactly when there is no turn |
| `PowerFuel.TurningTimeOrder` | app/core/dss_shared.py:262-267 | a wider implement turns no faster, a faster one no slower |
| `PowerFuel.FuelRateBoundedBelow` | app/core/dss_shared.py:300-311 | specific fuel consumption exceeds 0.41 l/kWh at every power fraction |
| `PowerFuel.FuelRateAtEnds` | app/core/dss_shared.py:300-311 | specific fuel consumption is about 1.24 l/kWh idling and 0.42 at the rated power |
| `PowerFuel.FuelAndEfficiencyBounds` | app/core/dss_shared.py:331-411 | for positive draft fuel per hectare never rests on its floor, and overall efficiency is 360 * capacity ratio / (35.5 * SFC), strictly inside (0, 25)% |
| `JobLaws.DraftOverSpeed` | app/core/dss_shared.py:126-168 | how the draft changes between two speeds, and what it is without the speed terms |
| `JobLaws.DraftAdds` | app/core/dss_shared.py:126-168 | the draft is additive in working width and in depth, at 1, 0.7 and 0.45 by soil texture |
| `JobLaws.CombinedCgKeepsMoments` | app/core/combi_algorithms.py:236-246 | collapsing two tools into one centre of gravity keeps each tool's moment exactly |
| `JobLaws.SingleRunBalances` | app/core/legacy_algorithms.py:248-304 | the axle loads of an accepted single-implement report balance, in its own inputs: masses, radii, depth, soil reaction |
| `JobLaws.PairRunBalances` | app/core/combi_algorithms.py:366-430 | the same of a passive-passive report, each tool's weight acting where it hangs |
| `JobLaws.RotorRunBalances` | app/core/combi_algorithms.py:675-860 | the same of an active-passive report; the thrust at the forward speed spends the rotor's share of PTO power and is taken off the draft, and the PTO torque over the wheelbase presses on the rear axle |
| `JobLaws.WidthAndPower` | app/core/combi_algorithms.py:366-420 | what each mode takes as working width, PTO power of its own and slip for the rear ballast |
| `ReportLaws.RunAddsUp` | app/core/dss_shared.py:222-411 | in every accepted report: hours, area and capacities; turns to the nearest; drawbar, PTO and rated power; fuel; unclamped tractive efficiency; wheel numerics; torque-limited pull and axle shares agree with one another |
| `ReportLaws.RunSlips` | app/core/legacy_algorithms.py:341-421 | in every accepted report the pull is net traction times the rear load, and net traction and rear rolling resistance share what the envelope develops at the slip |
| `ReportLaws.RunWarns` | app/core/legacy_algorithms.py:1071-1198 | each warning is in a report exactly where what it says is so |
| `Simulation.FitAxles` | app/core/legacy_algorithms.py:873-922 | axle resolution in the order of its checks, with its warning appended |
| `Simulation.AxlesAndSlip` | app/core/combi_algorithms.py:411-465 | axles, slip and efficiency, or the refusal, with the warnings each raises; a run whose soil cannot pull is refused |
| `Simulation.NoTractionIsRefused` | app/core/combi_algorithms.py:448-470 | a search with no net traction at any trial is always refused by the efficiency check that follows |
| `Simulation.Measure` | app/core/combi_algorithms.py:471-545 | for positive draft the measured part of a report has capacities in order, SFC above 0.41, fuel per hectare off its floor and overall efficiency strictly inside (0, 25)% |
| `Simulation.RunJob` | app/core/legacy_algorithms.py:1071-1198 | the chain shared by the three modes with its refusals, warnings in order of appearance |
| `Simulation.AddRearBallast` | app/core/combi_algorithms.py:931-945 | the last step changes only the rear ballast and its warning; the ballast is positive exactly where the axle load falls short of the draft at the target slip, and then makes it up to the tolerance |
| `Simulation.CalculateSingle` | app/core/legacy_algorithms.py:1042-1198 | on the engine's own relations, every accepted single-implement run adds up, warns truly, balances its axles, is in range, and its rear ballast is enough and no more |
| `Simulation.CalculatePassivePassive` | app/core/combi_algorithms.py:366-560 | the same of passive-passive runs; the reported draft is (1 - ki) times the sum of the two reported drafts, ki in [0, 0.25] |
| `Simulation.CalculateActivePassive` | app/core/combi_algorithms.py:739-945 | the same of active-passive runs, whose positive draft is that of tool and rotor less the thrust; a converged one asks for no rear ballast |
| `ModeLaws.SwappingToolsSwapsOnlyDrafts` | app/core/combi_algorithms.py:376-410 | exchanging the two tools swaps their two reported drafts and changes nothing else, nor any refusal |
| `ModeLaws.NullSecondTool` | app/core/combi_algorithms.py:366-560 | with a null second tool, no interaction and no override, the report of an accepted run is the single-implement report, field for field, if and only if the first tool has weight, sits at the hitch, or weight plus soil reaction is zero |
| `ModeLaws.WeightlessToolDiffers` | app/core/combi_algorithms.py:399-402 | a concrete plough entered without weight for which the two reports differ |
| `ModeLaws.RunDependsOnLoads` | app/core/combi_algorithms.py:404-560 | a run depends on the moment balance only through the axle loads it gives at each amount of ballast |
| `ModeLaws.WorkableJobRuns` | app/core/legacy_algorithms.py:1042-1198 | a job with positive inputs, resolvable axles and net traction at the 20% cap is never refused |
| `ModeLaws.RunsSizeRearBallast` | app/core/legacy_algorithms.py:800-833 | the reported rear ballast is never negative, positive exactly where the reported axle load falls short of the draft at the target slip, and then makes it up to the tolerance |
| `ModeLaws.NullToolAxleLoads` | app/core/combi_algorithms.py:399-402 | the same condition decides, at every amount of ballast, whether the rear loads agree |
| `ModeLaws.NullRotorRun` | app/core/combi_algorithms.py:739-945 | with a null rotor the active-passive report is the single-implement report except for rear ballast and its warning |
| `ModeLaws.NullRotorNeedsDraft` | app/core/combi_algorithms.py:694-716 | a tool without positive draft is refused by the active-passive mode |
| `ModeLaws.ConvergedActivePassiveRun` | app/core/combi_algorithms.py:834-945 | a converged active-passive run reports a rear ballast of exactly 0 and says so, or none because the iteration did not settle |
| `ModeLaws.RunsAreInRange` | app/core/legacy_algorithms.py:1042-1198 | every accepted run reports positive axle loads with the right sum, slip in [2, 20], efficiencies, capacity and fuel inside their ranges |
| `Rounding.HalfUp` | app/services/operation_cost_service.py:261-262 | half-up rounding: within half a unit, ties up |
| `Rounding.HalfEven` | app/services/field_area_service.py:225-225 | half-even rounding: within half a unit, ties to even |
| `Billing.PausedTotal` | app/services/operation_cost_service.py:164-183 | the accumulating loop equals the sum of the non-negative spans, open rows measured to the boundary |
| `Billing.TotalIsNearExactCharge` | app/services/operation_cost_service.py:243-262 | a per-hour total is within 0.005 + rate * 5 * 10^-7 Rs of rate times exact worked hours |
| `Billing.QuantumMovesAtMostAPaisa` | app/services/operation_cost_service.py:247-254 | up to Rs 20,000/hr, quantizing the hours first moves a total by at most one paisa |
| `Billing.QuantumMovesASmallTotal` | app/services/operation_cost_service.py:252-253 | a Rs 5/hr session whose total the hours quantum moves, against the comment that none below Rs 1,000,000/hr can be |
| `Billing.QuantumNeverMovesTotal` | app/services/operation_cost_service.py:247-262 | the quantum moves no total of a rate, over all durations, if and only if the rate is Rs 10,000/hr divided by an odd number |
| `Decimals.ReadsBack` | app/services/operation_cost_service.py:214-219 | every printed decimal reads back with the same coefficient and places |
| `Decimals.Trimmed` | app/services/operation_cost_service.py:214-219 | trimming trailing zeros keeps the value and leaves none |
| `CostNotes.NoteReadsBack` | app/services/operation_cost_service.py:264-269 | every cost note reads back as the rate, unit, quantity and total it was printed from |
| `CostNotes.NoteReconciles` | app/services/operation_cost_service.py:243-271 | multiplying the printed rate by the printed quantity, half-up, gives the printed total, for every operation, rate and quantity |
| `RateCard.AcceptedAmounts` | app/routes/operation_charges.py:36-118 | a posting is accepted if and only if it gives a positive amount in the unit of the operation; an edit if its row is there and the amount it gives, or else the stored one, is positive |
| `RateCard.PostedRateLocks` | app/routes/operation_charges.py:36-81 | an accepted posting makes its amount, to the nearest 10^-4 Rs, the rate a start would lock, or none if and only if it is below 0.00005; no other rate changes |
| `RateCard.EditedRateLocks` | app/routes/operation_charges.py:98-118 | the same of an edit; an amount not given leaves the rate as it was |
| `RateCard.TinyRateIsUnusable` | app/routes/operation_charges.py:36-51 | a posted rate of 0.00004 is accepted, stored as 0.0000 and refuses every start |
| `FieldArea.PausedAt` | app/services/field_area_service.py:42-49 | the window test; PauseSpans.ClosedCover says which instants it covers |
| `FieldArea.ParseGpsPoints` | app/services/field_area_service.py:52-126 | the filtering loop keeps exactly the positioned rows outside every window, in order |
| `FieldArea.PausedRowsAreFree` | app/services/field_area_service.py:86-88 | rows stamped inside a pause can be added, removed or changed without changing the path |
| `FieldArea.OutsideInserted` | app/services/field_area_service.py:69-88 | filtering out paused rows commutes with storing a row in timestamp order |
| `FieldArea.FilteredPathSegments` | app/services/field_area_service.py:181-196 | collects, in order, the steps between consecutive fixes that are in (0.25, 500] m |
| `FieldArea.TotalPathDistance` | app/services/field_area_service.py:199-203 | the path length is the sum of those steps, 0 for fewer than two fixes |
| `FieldArea.StepsAreBounded` | app/services/field_area_service.py:181-203 | every counted step is in (0.25, 500] m, n fixes make at most n - 1 of them, and the path is at most 500 * (n - 1) m |
| `FieldArea.PathOfCountedSteps` | app/services/field_area_service.py:181-203 | where every step counts the path is the sum of all distances |
| `FieldArea.StepAcrossPause` | app/services/field_area_service.py:60-88 | the straight step across a pause is added to the path exactly when it is in (0.25, 500] m, whatever happened during the pause |
| `FieldArea.ShoelaceSum` | app/services/field_area_service.py:150-155 | the index-wrapping loop equals the sum over the closed chain |
| `FieldArea.PolygonArea` | app/services/field_area_service.py:140-159 | the enclosed area in ha, 0 for fewer than three fixes |
| `FieldArea.PolygonAreaRotates` | app/services/field_area_service.py:140-159 | the polygon area does not depend on where the track starts |
| `FieldArea.PolygonAreaReverses` | app/services/field_area_service.py:140-159 | nor on the direction of travel |
| `FieldArea.OutAndBackEnclosesNothing` | app/services/field_area_service.py:140-159 | an out-and-back track encloses exactly nothing |
| `FieldArea.TriangleHa` | app/services/field_area_service.py:140-159 | three fixes enclose half the base times the height, in ha |
| `FieldArea.AreaCutsAlongDiagonal` | app/services/field_area_service.py:150-155 | the signed area is additive along every diagonal |
| `FieldArea.FinalizeArea` | app/services/field_area_service.py:162-237 | swath area where the width is known and positive, polygon area otherwise, never negative, to 10^-4 ha |
| `FieldArea.StoredAreaIsSwath` | app/services/field_area_service.py:162-225 | with a positive width the stored area is within half a square metre of width times worked path |
| `FieldArea.StoredAreaIsPolygon` | app/services/field_area_service.py:162-225 | without one it is within 0.00005 ha of the enclosed polygon |
| `Sessions.CloseOpenPause` | app/services/operation_cost_service.py:289-305 | closes the latest open interval and no other |
| `Sessions.BillableHours` | app/services/operation_cost_service.py:186-202 | quantized worked hours, or none where there is no duration |
| `Sessions.FinalizeSessionBilling` | app/services/operation_cost_service.py:222-277 | a final charge is left alone; without rate or quantity the session stays pending with a note; otherwise quantity, total, note and instant are written together |
| `Sessions.FinalizeCancelledSession` | app/services/operation_cost_service.py:280-286 | a cancelled session is closed at zero once |
| `Sessions.Backend.StartSession` | app/routes/sessions.py:188-325 | a start creates a session, with its rate locked, or changes nothing |
| `Sessions.Backend.PauseSession` | app/routes/sessions.py:383-407 | a pause opens an interval, or changes nothing |
| `Sessions.Backend.ResumeSession` | app/routes/sessions.py:411-432 | a resume closes it, or changes nothing |
| `Sessions.Backend.StopSession` | app/routes/sessions.py:355-379 | after its flush, a stop ends, measures and charges the session in one transaction, or changes nothing |
| `Sessions.Backend.CancelSession` | app/routes/sessions.py:463-480 | after its flush, a cancel ends and closes it at zero in one transaction, or changes nothing |
| `Sessions.Backend.BackfillLegacyBilling` | app/routes/sessions.py:129-156 | closes out a terminated session without a final charge and leaves any other alone |
| `Sessions.Backend.Summary` | app/routes/sessions.py:725-768 | reading a summary changes at most that session, by the backfill |
| `Sessions.Backend.FinalizeForReport` | app/services/report_service.py:27-59 | the report finalizer, session by session, is the backfill of the sessions it selected |
| `Sessions.Backend.StoreGpsRow` | app/services/ingestion_pipeline.py:209-216 | a stored GPS row joins its session's rows in timestamp order |
| `Sessions.Backend.UpsertOperationCharge` | app/routes/operation_charges.py:54-81 | posting a rate creates or replaces one row or is refused |
| `Sessions.Backend.UpdateOperationCharge` | app/routes/operation_charges.py:98-118 | an edit changes one row or is refused |
| `Sessions.Backend.DeleteOperationCharge` | app/routes/operation_charges.py:121-133 | a deletion removes one row |
| `Sessions.BackfillTwice` | app/routes/sessions.py:129-156 | backfilling twice is backfilling once |
| `SessionLaws.LedgerIsOrdered` | app/services/operation_cost_service.py:164-183 | a ledger has ordered, disjoint intervals of which only the last may be open |
| `SessionLaws.Waits` | app/routes/sessions.py:113-126 | waiting adds to a session's net time exactly while it is active |
| `SessionLaws.EventFollows` | app/routes/sessions.py:188-480 | every request keeps a session well formed, keeps its net time at that instant, what was fixed at its start, a terminal state and a final charge |
| `SessionLaws.RunKeepsInv` | app/routes/sessions.py:188-480 | the session invariant holds after every run of requests with a non-decreasing clock |
| `SessionRuns.EveryRunIsWellKept` | app/routes/sessions.py:188-480 | from an empty database: paused iff the last interval is open, ledgers ordered, positive rate in the unit of the operation, every terminated session settled, one open session per operator |
| `SessionRuns.NetIsObserved` | app/services/operation_cost_service.py:186-202 | over every run, wall clock less recorded pauses is the time an onlooker saw the session active |
| `SessionRuns.BilledHoursAreObserved` | app/services/operation_cost_service.py:243-262 | a per-hour session is billed for exactly that time to the microhour and displays it in minutes; the clamps at zero never act |
| `SessionRuns.FinalChargeIsFrozen` | app/services/operation_cost_service.py:222-230 | once a charge is final no run changes the session beyond its stored GPS rows; terminated states are absorbing |
| `SessionRuns.RateEditsDoNotReprice` | app/services/operation_cost_service.py:119-157 | runs that agree on a session and on the requests made of it end with the same session, whatever happens to rate cards and other sessions |
| `SessionRuns.BilledAtTheLockedRate` | app/services/operation_cost_service.py:119-157 | a completed session is billed at the rate its owner's card held when it started, in the unit of its operation |
| `SessionRuns.StoppedBillIsNearSwath` | app/routes/sessions.py:355-370 | stopping a per-hectare session bills rate times worked swath to half a paisa and half a unit of area |
| `SessionRuns.PausedFixesAreFree` | app/services/field_area_service.py:52-126 | leaving every fix stamped inside a pause out of a run changes neither area, charge nor note |
| `SessionRuns.UnpricedStaysPending` | app/services/operation_cost_service.py:233-239 | a completed session without a locked rate is never charged |
| `SessionEnds.StopCharges` | app/routes/sessions.py:355-371 | an accepted stop completes the session now and charges its rate times the hours worked until now, or times the measured area, and changes nothing else |
| `SessionEnds.StopWithoutRate` | app/services/operation_cost_service.py:233-239 | a stop without a locked rate leaves the charge pending |
| `SessionEnds.CancelChargesNothing` | app/routes/sessions.py:463-474 | an accepted cancel aborts the session now and charges nothing |
| `SessionEnds.ReadingCharges` | app/routes/sessions.py:129-156 | a backfill closes an aborted session at zero and a completed one at its rate for its recorded time or area, or leaves it pending |
| `SessionEnds.FirstEndDecides` | app/routes/sessions.py:329-480 | the first stop or cancel by its operator ends an open session, as completed or as aborted and free, and nothing else does |
| `SessionEnds.StartedSessionEndsAs` | app/routes/sessions.py:188-480 | over every run, a started session is completed exactly if the request that ended it was a stop, aborted exactly if a cancel |
| `PauseSpans.ClosedCover` | app/services/field_area_service.py:42-49 | an ended pause covers exactly the instants from its pause request to the request that ended it, both included |
| `PauseSpans.PausesAreSpans` | app/routes/sessions.py:329-480 | the pauses a session ends with are those its operator's requests began and ended |
| `PauseSpans.TrailIsStored` | app/services/ingestion_pipeline.py:209-216 | a session's GPS rows are the fixes stored for it, each as often as stored |
| `PauseSpans.FixesInPausesAreFree` | app/services/field_area_service.py:42-126 | fixes stamped between a pause and the request that ended it can be left out, added or altered: area, hours, total and note stay |
| `PauseSpans.OtherFixesAreMeasured` | app/services/field_area_service.py:52-237 | the area a session ends with is that of a path of exactly the positioned fixes stored before it ended and stamped in no pause, in stamp order |
| `RateRuns.RateStands` | app/routes/operation_charges.py:54-133 | a rate changes only with requests about it; an edit without an amount leaves it, a deletion removes it |
| `RateRuns.StartLocksRate` | app/routes/sessions.py:188-325 | an otherwise acceptable start opens a session exactly where there is a rate, and locks it |
| `RateRuns.BilledAtTheSetRate` | app/services/operation_cost_service.py:119-157 | from the owner's amount, posted or edited, to the bill: sessions started after it are billed at the nearest 10^-4 Rs, per hour for threshing and grading, per hectare else |
| `RateRuns.NoStartAfterDeletion` | app/routes/operation_charges.py:121-133 | after a deletion nothing starts until the rate is given again |
| `RateRuns.CardStaysUsable` | app/routes/operation_charges.py:54-133 | as long as amounts the column can hold are posted, every row of the card can start sessions |
| `Ingestion.ResolveTargetSession` | app/services/ingestion_pipeline.py:96-135 | the named session if attachable, else an attachable session started last, else none |
| `Ingestion.TargetIsTracked` | app/services/ingestion_pipeline.py:96-135 | readings go to a running or paused session with GPS tracking, or to none exactly if there is none; a named one gets them, else none that started later |
| `Ingestion.CollapseDuplicates` | app/services/ingestion_pipeline.py:196-199 | the first occurrence of each id, in order |
| `Ingestion.InsertAbsentMeaning` | app/services/ingestion_pipeline.py:196-216 | insert-if-absent: old rows untouched, each new id stored once with its first reading |
| `Ingestion.ReingestChangesNothing` | app/services/ingestion_pipeline.py:202-205 | re-ingesting stores nothing |
| `Ingestion.OneByOneMeaning` | app/services/ingestion_pipeline.py:238-259 | the fallback, with other writers between its savepoints: ids are old + theirs + the batch's less the refused, nothing is overwritten, the returned readings are the rows that are new and ours |
| `Ingestion.OneByOneAlone` | app/services/ingestion_pipeline.py:238-259 | without interference the fallback equals the batch insert |
| `Ingestion.IngestAccounts` | app/services/ingestion_pipeline.py:182-274 | whichever path an ingest takes, also when an error escapes from its transaction or from the fan-out after its commit: stored ids, untouched rows, and the readings counted |
| `Ingestion.NewRowsAreOurs` | app/services/ingestion_pipeline.py:182-274 | a row that appears during an ingest and is no other writer's holds a reading of the batch, under the batch's session |
| `Ingestion.ReturnedIds` | app/services/ingestion_pipeline.py:182-274 | where no other writer has an id of the batch, the returned readings have exactly the ids that are new |
| `Ingestion.ReadingStore.ExistingIds` | app/services/ingestion_pipeline.py:154-167 | the lookup in windows of 500 finds exactly the ids already stored |
| `Ingestion.ReadingStore.IngestRowsIndividually` | app/services/ingestion_pipeline.py:238-259 | each row is stored if and only if its id is free at its turn and the database accepts it |
| `Ingestion.ReadingStore.IngestBatch` | app/services/ingestion_pipeline.py:196-235 | the batch path ends as insert-if-absent, as the fallback, with an error and nothing of the batch stored, or with an error after its commit, depending on what other writers and the database do |
| `Ingestion.ReadingStore.IngestNormalizedBatch` | app/services/ingestion_pipeline.py:182-235 | the entry point: the target session is resolved once for the batch |
| `IngestBuffer.ReadingBuffer.constructor` | app/services/ingest_buffer.py:38-48 | the limits, floored at one reading and half a second |
| `IngestBuffer.ReadingBuffer.Add` | app/services/ingest_buffer.py:52-56 | appends, and starts the age when the buffer was empty |
| `IngestBuffer.ReadingBuffer.AddMany` | app/services/ingest_buffer.py:58-65 | the same for several; nothing for none |
| `IngestBuffer.ReadingBuffer.IsDue` | app/services/ingest_buffer.py:71-80 | due iff non-empty and full or old enough |
| `IngestBuffer.ReadingBuffer.Take` | app/services/ingest_buffer.py:82-87 | hands over everything and leaves the buffer empty |
| `IngestBuffer.ReadingBuffer.Flush` | app/services/ingest_buffer.py:91-133 | stores and counts the batch, or counts it as dropped; never raises |
| `IngestBuffer.CountsNewRows` | app/services/ingest_buffer.py:91-133 | a stored batch counts once and by as many readings as new rows |
| `IngestBuffer.AgeIsOldestArrival` | app/services/ingest_buffer.py:50-87 | after any arrivals and takings the age is the arrival of the oldest waiting reading |
| `IngestBuffer.DueIffWaited` | app/services/ingest_buffer.py:71-80 | a flush is due if and only if a full batch waits or some reading has waited the allowed time |
| `FlushProtocol.StepKeepsInv` | app/services/ingest_buffer.py:50-133 | in every interleaving readings are settled, in hand or buffered in the order they came, one thread at a time has a batch in hand, and drops are counted |
| `FlushProtocol.FatesExactly` | app/services/ingestion_pipeline.py:182-274 | exactly when a reading of a batch is dropped and exactly when it is lost (the fallback was refused its row and nobody else stored its id); a kept one has a new row of its own, a duplicate an id that was taken |
| `FlushProtocol.FallbackLosesAReading` | app/services/ingestion_pipeline.py:245-259 | a batch in which the fallback loses a reading that is neither stored nor counted as dropped |
| `FlushProtocol.FanOutFailureCountsStored` | app/services/ingestion_pipeline.py:24-39 | a reading that is stored and yet counted as dropped, because reading its row back for the display failed |
| `FlushProtocol.FreshProcessIsOk` | app/services/ingest_buffer.py:38-48 | a process that has just started, over any database, satisfies the interleaving invariant |
| `FlushProtocol.FlushIsABarrier` | app/services/ingest_buffer.py:91-133 | when a call of flush returns, every reading added before it was made is stored, has its id stored, is counted in dropped_total, or was lost by the fallback |
| `FlushProtocol.NothingIsLost` | app/services/ingestion_pipeline.py:238-259 | over a run nothing is lost if and only if no commit of it lets the fallback be refused a row that nobody else stores |
| `StopOrder.StopFlushAttributes` | app/routes/sessions.py:348-364 | if S is the only attachable session until its stop flush returns, no reading added in between and before that flush is stored under another session or none |
| `StopOrder.StopFlushOwnsRows` | app/routes/sessions.py:348-364 | under an id nobody else writes there is then a row of S, unless the reading was dropped or lost; no other session has it in any case |
| `StopOrder.StopMeasuresEveryFix` | app/routes/sessions.py:348-370 | every such position fix, not dropped or lost, is among the rows the stop measures, and on the path it bills unless it fell into a pause; a cancel measures the same area |
| `StopOrder.FlushingAfterCompletionDetaches` | app/routes/sessions.py:348-353 | in the other order a buffered reading is stored under no session |
| `FlushProtocol.UninterruptedFlush` | app/services/ingest_buffer.py:91-133 | the interleaved steps of an uninterrupted flush are what the buffer class promises |
| `Alerts.AlertBoard.EvaluateThreshold` | app/services/alert_engine.py:99-166 | raises a threshold alert unless one is open |
| `Alerts.AlertBoard.EvaluatePresetDeviation` | app/services/alert_engine.py:169-236 | raises a deviation alert or brings the open one up to date |
| `Alerts.AlertBoard.Evaluate` | app/services/alert_engine.py:239-270 | presets take precedence over generic limits; readings without a session are ignored |
| `Alerts.AlertBoard.EvaluateRows` | app/services/ingestion_pipeline.py:193-225 | a stored batch is evaluated only while its session is active |
| `Alerts.AlertBoard.Acknowledge` | app/routes/sessions.py:816-836 | acknowledging marks one alert |
| `Alerts.LabelIsLimitReached` | app/services/alert_engine.py:26-75 | a reading is critical or a warning exactly if it reaches that limit of its feed, and the alert names the limit it reached |
| `Alerts.DeviationIsShareOfTarget` | app/services/alert_engine.py:78-92 | a deviation is critical or a warning exactly by the share of the target it is out; a gearbox target is exceeded only upwards |
| `Alerts.EveryRunIsOk` | app/services/alert_engine.py:99-270 | over every run each session feed has at most one unacknowledged alert, of one kind, and an open deviation alert shows value, level and target of the latest evaluated reading that was out of tolerance |
| `Alerts.OutOfLimitsIsOpen` | app/services/alert_engine.py:99-270 | every out-of-limits reading leaves an open alert: one that shows it, or the threshold alert already open; others change nothing |
| `Alerts.LimitsHoldWithoutTarget` | app/services/alert_engine.py:239-270 | a missing or zero target leaves the generic limits in force |
| `Alerts.TargetOverridesLimits` | app/services/alert_engine.py:239-270 | a target takes their place: within its tolerances nothing is raised |
| `Alerts.BatchTouchesOnlyItsSession` | app/services/alert_engine.py:99-236 | a batch changes only open deviation alerts of its own session and deletes none |
| `Alerts.PausedSessionRaisesNothing` | app/services/ingestion_pipeline.py:193-225 | ingesting for a session that is never active raises no alert for it and changes those it has only by acknowledgement |

## Left out

- Floating point: engine formulas, GPS distances and timestamps are exact; rounding appears only where the code rounds on purpose. The 0.1% slip grid is exact, so 20% is reached in 180 steps.
- exp, sqrt, cosine and great-circle distance are parameters; exp and sqrt obey the laws named above, the other two obey none.
- Simulation.RunJob: the tail of the three orchestrators is one method; the single-implement code evaluates its wheel response before its efficiency check, so where both refuse it names the other fault.
- Simulation.CalculateActivePassive: the report's echo of rotor terms (its draft, thrust, reaction moment and equivalent load) is left out, as are echoed inputs of the other modes.
- Diagnostics that feed no result: gross traction at slip, tractive efficiency at slip, the section 4 wheel numeric, rotor power and force, spreadsheet fuel bases.
- Status labels, recommendations, load status, confidence and the standalone active mode: finite tables and pass-throughs.
- Draft coefficients, soil factors beyond texture and implement lookups are inputs of a tool or a three-row table.
- SessionRuns.EveryRunIsWellKept: requests are serialized and use one clock; concurrent requests take no row lock in the code, and started_at comes from the database's clock.
- SessionRuns.BilledHoursAreObserved: sessions stored before rates were locked are covered by the invariant but not by this result.
- FlushProtocol.FlushIsABarrier: says what became of a reading, not how soon; that a waiting flush gets the lock is not modelled.
- StopOrder.StopFlushAttributes: a reading that a second attachable session could take may be stored under that one.
- Sessions.Backend.StopSession: the flush the route opens with runs between other threads and is modelled among them; StopOrder.StopMeasuresEveryFix joins the two, for a cancel as well.
- Sessions.Backend.CancelSession: as for StopSession.
- Operation names are an enumeration; trimming and case folding of free text are not modelled.
- Parsing of payloads, JSON and timestamps; readings and fixes start already parsed.
- HTTP polling, MQTT, session gate wake-ups, WebSocket fan-out, authentication and access checks beyond session ownership.
- Alert messages and acknowledgement metadata; the acknowledged flag is kept.
- Wages, fuel logs, exports and report totals; of reports only their finalizer.
- Numeric column overflow: rates and totals are unbounded.
