/** What a session is charged: units, pause arithmetic, quantized hours and totals.
Time is in microseconds, rates in 10^-4 Rs, areas in 10^-4 ha, hours in 10^-6 h, totals in paise. */
module Billing {
  import opened Outcomes
  import opened Rounding

  datatype Operation = Tillage | Sowing | Spraying | Weeding | Harvesting | Threshing | Grading

  datatype Unit = PerHectare | PerHour

  predicate IsPerHour(op: Operation) {
    op in {Threshing, Grading}
  }

  function UnitFor(op: Operation): Unit {
    if IsPerHour(op) then PerHour else PerHectare
  }

  const MICROS_PER_MICROHOUR := 3600

  // --- The pause ledger ---

  /** A paused interval; open while `to` is None. */
  datatype Interval = Interval(from: int, to: Option<int>) {
    function End(until: int): int {
      if to.Some? then to.value else until
    }

    /** An interval that runs backwards counts for nothing. */
    function Span(until: int): nat {
      if End(until) > from then End(until) - from else 0
    }
  }

  function PausedMicros(rows: seq<Interval>, until: int): nat {
    if rows == [] then 0 else PausedMicros(rows[..|rows| - 1], until) + rows[|rows| - 1].Span(until)
  }

  method PausedTotal(rows: seq<Interval>, until: int) returns (total: nat)
    ensures total == PausedMicros(rows, until)
  {
    total := 0;
    for i := 0 to |rows|
      invariant total == PausedMicros(rows[..i], until)
    {
      var row := rows[i];
      var end := if row.to.Some? then row.to.value else until;
      var span := end - row.from;
      assert rows[..i + 1][..i] == rows[..i];
      if span > 0 {
        total := total + span;
      }
    }
    assert rows[..|rows|] == rows;
  }

  /** Worked time of an ended session; None when the clock ran backwards. */
  function WorkedMicros(started: int, ended: int, rows: seq<Interval>): Option<nat> {
    if ended < started then None
    else if ended - started < PausedMicros(rows, ended) then Some(0)
    else Some(ended - started - PausedMicros(rows, ended))
  }

  /** The billed quantity of a per-hour session. */
  function BilledHours(worked: nat): nat {
    HalfUp(worked, MICROS_PER_MICROHOUR)
  }

  // --- Totals ---

  /** Places of the printed quantity. */
  function QuantityPlaces(unit: Unit): nat {
    if unit.PerHour? then 6 else 4
  }

  /** Paise in one unit of rate times one unit of quantity. */
  function ProductsPerPaisa(unit: Unit): (n: nat)
    ensures n > 0
  {
    if unit.PerHour? then 100_000_000 else 1_000_000
  }

  function Total(unit: Unit, rate: nat, quantity: nat): nat {
    HalfUp(rate * quantity, ProductsPerPaisa(unit))
  }

  /** The total a worked duration would have if the hours were not quantized first. */
  function UnquantizedTotal(rate: nat, worked: nat): nat {
    HalfUp(rate * worked, MICROS_PER_MICROHOUR * 100_000_000)
  }

  // --- How far quantizing the hours can move a total ---

  /** A per-hour total is within half a paisa, plus half a microhour at the rate, of the exact charge. */
  lemma TotalIsNearExactCharge(rate: nat, worked: nat)
    ensures var charge := rate as real / 10000.0 * (worked as real / 3600.0 / 1000000.0);
      var margin := 0.005 + rate as real / 10000.0 * 0.0000005;
      -margin <= Total(PerHour, rate, BilledHours(worked)) as real / 100.0 - charge <= margin
  {
    var q := BilledHours(worked);
    var t := Total(PerHour, rate, q);
    QuantumTimesRate(rate, worked, q);
    var x, y := rate * worked, 3600 * (rate * q);
    assert 2 * x - 3600 * rate <= 2 * y <= 2 * x + 3600 * rate;
    assert -1_800 * (100_000_000 + rate) <= 3600 * 100_000_000 * t - x <= 1_800 * (100_000_000 + rate);
    assert x as real == rate as real * worked as real;
    assert rate as real / 10000.0 * (worked as real / 3600.0 / 1000000.0)
        == x as real / 36_000_000_000_000.0;
  }

  lemma QuantumTimesRate(rate: nat, worked: nat, q: nat)
    requires q == BilledHours(worked)
    ensures 2 * (rate * worked) - 3600 * rate <= 2 * (3600 * (rate * q)) <= 2 * (rate * worked) + 3600 * rate
  {
    Times(2 * worked - 3600, 2 * (q * 3600), rate);
    Times(2 * (q * 3600), 2 * worked + 3600, rate);
    assert 2 * (q * 3600) * rate == 2 * (3600 * (rate * q));
    assert (2 * worked - 3600) * rate == 2 * (rate * worked) - 3600 * rate;
    assert (2 * worked + 3600) * rate == 2 * (rate * worked) + 3600 * rate;
  }

  /** Below Rs 20,000/hr quantizing moves a total by at most one paisa. */
  lemma QuantumMovesAtMostAPaisa(rate: nat, worked: nat)
    requires rate <= 200_000_000
    ensures -1 <= Total(PerHour, rate, BilledHours(worked)) - UnquantizedTotal(rate, worked) <= 1
  {
    QuantumTimesRate(rate, worked, BilledHours(worked));
  }

  /** A five-rupee hourly rate already shows that the quantum can move a total: 3.5982 s of work, 1.8 ms
  short of a whole 0.001 h, is rounded up to it and costs one paisa instead of nothing. */
  lemma QuantumMovesASmallTotal()
    ensures Total(PerHour, 50_000, BilledHours(3_598_200)) == 1 && UnquantizedTotal(50_000, 3_598_200) == 0
  {
  }

  /** Rates of Rs 10,000/hr divided by an odd number. */
  predicate OddShareOfTenThousand(rate: nat) {
    rate > 0 && 100_000_000 % rate == 0 && 100_000_000 / rate % 2 == 1
  }

  predicate Unmoved(rate: nat, worked: nat) {
    Total(PerHour, rate, BilledHours(worked)) == UnquantizedTotal(rate, worked)
  }

  /** The quantum moves no total of a rate, whatever the duration, exactly when the rate is an odd share
  of Rs 10,000/hr. Every other rate has durations whose total it moves. */
  lemma QuantumNeverMovesTotal(rate: nat)
    requires rate > 0
    ensures (forall worked: nat :: Unmoved(rate, worked)) <==> OddShareOfTenThousand(rate)
  {
    if OddShareOfTenThousand(rate) {
      forall worked: nat ensures Unmoved(rate, worked) {
        OddShareIsUnmoved(rate, worked);
      }
    } else {
      var worked := MovingDuration(rate);
    }
  }

  /** Reaching t paise, by the billed hours and by the exact time. */
  lemma ReachesTotal(rate: nat, worked: nat, t: int)
    ensures Total(PerHour, rate, BilledHours(worked)) >= t <==>
            2 * (rate * BilledHours(worked)) >= 100_000_000 * (2 * t - 1)
    ensures UnquantizedTotal(rate, worked) >= t <==> rate * worked >= 180_000_000_000 * (2 * t - 1)
  {
    HalfUpReaches(rate * BilledHours(worked), 100_000_000, t);
    HalfUpReaches(rate * worked, 360_000_000_000, t);
  }

  lemma ReachesHours(worked: nat, q: int)
    ensures BilledHours(worked) >= q <==> worked >= 1800 * (2 * q - 1)
  {
    HalfUpReaches(worked, 3600, q);
  }

  lemma OddShareIsUnmoved(rate: nat, worked: nat)
    requires OddShareOfTenThousand(rate)
    ensures Unmoved(rate, worked)
  {
    var a, b := Total(PerHour, rate, BilledHours(worked)), UnquantizedTotal(rate, worked);
    OddShareReachesTogether(rate, worked, a);
    OddShareReachesTogether(rate, worked, b);
  }

  lemma OddShareReachesTogether(rate: nat, worked: nat, t: int)
    requires OddShareOfTenThousand(rate)
    ensures Total(PerHour, rate, BilledHours(worked)) >= t <==> UnquantizedTotal(rate, worked) >= t
  {
    var odd := 100_000_000 / rate;
    assert rate * odd == 100_000_000;
    Regroup(rate, odd, 2 * t - 1);
    OddProduct(odd, 2 * t - 1);
    ReachTogether(rate, worked, t, odd * (2 * t - 1));
  }

  lemma ReachTogether(rate: nat, worked: nat, t: int, n: int)
    requires rate > 0 && n % 2 == 1 && 100_000_000 * (2 * t - 1) == n * rate
    ensures Total(PerHour, rate, BilledHours(worked)) >= t <==> UnquantizedTotal(rate, worked) >= t
  {
    BilledReaches(rate, worked, t, n);
    ExactReaches(rate, worked, t, n);
  }

  lemma BilledReaches(rate: nat, worked: nat, t: int, n: int)
    requires rate > 0 && n % 2 == 1 && 100_000_000 * (2 * t - 1) == n * rate
    ensures Total(PerHour, rate, BilledHours(worked)) >= t <==> worked >= 1800 * n
  {
    TotalReaches(rate, BilledHours(worked), t, n);
    ReachesHours(worked, (n + 1) / 2);
  }

  lemma TotalReaches(rate: nat, q: nat, t: int, n: int)
    requires rate > 0 && 100_000_000 * (2 * t - 1) == n * rate
    ensures Total(PerHour, rate, q) >= t <==> 2 * q >= n
  {
    HalfUpReaches(rate * q, 100_000_000, t);
    CancelTwice(rate, q, n);
  }

  lemma ExactReaches(rate: nat, worked: nat, t: int, n: int)
    requires rate > 0 && 100_000_000 * (2 * t - 1) == n * rate
    ensures UnquantizedTotal(rate, worked) >= t <==> worked >= 1800 * n
  {
    HalfUpReaches(rate * worked, 360_000_000_000, t);
    CancelHalfHours(rate, worked, n);
  }

  lemma CancelTwice(rate: nat, q: int, n: int)
    requires rate > 0
    ensures 2 * (rate * q) >= n * rate <==> 2 * q >= n
  {
    ProductReaches(rate, 2 * q, n);
  }

  lemma CancelHalfHours(rate: nat, worked: int, n: int)
    requires rate > 0
    ensures rate * worked >= 1800 * (n * rate) <==> worked >= 1800 * n
  {
    ProductReaches(rate, worked, 1800 * n);
    Regroup(1800, n, rate);
  }

  lemma OddProduct(x: int, y: int)
    requires x % 2 == 1 && y % 2 == 1
    ensures x * y % 2 == 1
  {
    var i, j := x / 2, y / 2;
    assert x * y == 2 * (2 * i * j + i + j) + 1;
  }

  lemma Regroup(x: int, y: int, z: int)
    ensures (x * y) * z == (y * z) * x
  {
  }

  lemma ProductReaches(rate: nat, x: int, y: int)
    requires rate > 0
    ensures x * rate >= y * rate <==> x >= y
  {
    if x >= y {
      Times(y, x, rate);
    } else {
      Times(x + 1, y, rate);
    }
  }

  /** 10^8 as an odd multiple of the rate plus what is left over. */
  lemma OddMultiple(rate: nat) returns (odd: int, rest: int)
    requires rate > 0
    ensures odd % 2 == 1 && 100_000_000 == rate * odd + rest && rest + rate > 0 && rest <= rate
    ensures rest == 0 ==> OddShareOfTenThousand(rate)
  {
    var steps := (100_000_000 + 2 * rate - 1) / (2 * rate);
    odd := 2 * steps - 1;
    rest := 100_000_000 - rate * odd;
    DivisionBounds(100_000_000 + 2 * rate - 1, 2 * rate);
    assert steps * (2 * rate) == 2 * (rate * steps);
    assert rate * (2 * steps - 1) == 2 * (rate * steps) - rate;
    if rest == 0 {
      ExactDivision(rate, odd);
    }
  }

  lemma ExactDivision(rate: nat, odd: int)
    requires rate > 0 && rate * odd == 100_000_000
    ensures 100_000_000 % rate == 0 && 100_000_000 / rate == odd
  {
    var quotient, rest := 100_000_000 / rate, 100_000_000 % rate;
    assert quotient * rate + rest == 100_000_000;
    assert (odd - quotient) * rate == rest;
    if odd > quotient {
      Times(1, odd - quotient, rate);
    } else if odd < quotient {
      Times(odd - quotient, -1, rate);
    }
  }

  /** The boundary of k + 1 paise, (2k + 1) * 10^8, lies `rest` past an odd multiple of the rate: a
  duration between the two thresholds is charged k + 1 paise by one reckoning and less by the other. */
  lemma MovedAt(rate: nat, k: nat, odd: int, rest: int) returns (worked: nat)
    requires rate > 0 && odd % 2 == 1 && 100_000_000 * (2 * k + 1) == rate * odd + rest
    requires rest <= rate && rate + rest > 0 && (rest > 0 || rate + 1800 * rest <= 0)
    ensures !Unmoved(rate, worked)
  {
    Threshold(rate, odd, rest);
    if rest > 0 {
      worked := 1800 * odd;
      BilledFirst(rate, k, odd, rest, worked);
    } else {
      worked := 1800 * odd - 1;
      BilledLast(rate, k, odd, rest, worked);
    }
  }

  lemma Threshold(rate: nat, odd: int, rest: int)
    requires rate > 0 && rate * odd + rest > 0 && rest <= rate && odd % 2 == 1
    ensures odd >= 1
  {
    if odd <= -1 {
      Times(odd, -1, rate);
    }
  }

  lemma BilledFirst(rate: nat, k: nat, odd: int, rest: int, worked: nat)
    requires odd % 2 == 1 && 100_000_000 * (2 * k + 1) == rate * odd + rest
    requires 0 < rest <= rate && worked == 1800 * odd
    ensures Total(PerHour, rate, BilledHours(worked)) >= k + 1 > UnquantizedTotal(rate, worked)
  {
    ReachesHours(worked, (odd + 1) / 2);
    ReachesTotal(rate, worked, k + 1);
    TwiceAtLeast(rate, BilledHours(worked), odd + 1);
    HalfHours(rate, odd);
  }

  lemma BilledLast(rate: nat, k: nat, odd: int, rest: int, worked: nat)
    requires odd % 2 == 1 && 100_000_000 * (2 * k + 1) == rate * odd + rest
    requires rate + rest > 0 && rate + 1800 * rest <= 0 && worked == 1800 * odd - 1
    ensures Total(PerHour, rate, BilledHours(worked)) < k + 1 <= UnquantizedTotal(rate, worked)
  {
    ReachesHours(worked, (odd + 1) / 2);
    ReachesTotal(rate, worked, k + 1);
    TwiceAtMost(rate, BilledHours(worked), odd - 1);
    HalfHours(rate, odd);
  }

  lemma TwiceAtLeast(rate: nat, q: nat, n: int)
    requires 2 * q >= n
    ensures 2 * (rate * q) >= rate * n && rate * n == rate * (n - 1) + rate
  {
    Times(n, 2 * q, rate);
  }

  lemma TwiceAtMost(rate: nat, q: nat, n: int)
    requires 2 * q <= n
    ensures 2 * (rate * q) <= rate * n && rate * (n + 1) == rate * n + rate
  {
    Times(2 * q, n, rate);
  }

  lemma HalfHours(rate: nat, odd: int)
    ensures rate * (1800 * odd) == 1800 * (rate * odd)
    ensures rate * (1800 * odd - 1) == 1800 * (rate * odd) - rate
  {
  }

  lemma MovingDuration(rate: nat) returns (worked: nat)
    requires rate > 0 && !OddShareOfTenThousand(rate)
    ensures !Unmoved(rate, worked)
  {
    var odd, rest := OddMultiple(rate);
    if rest > 0 || rate + 1800 * rest <= 0 {
      worked := MovedAt(rate, 0, odd, rest);
    } else {
      var k, odd', rest' := LaterBoundary(rate, odd, rest);
      worked := MovedAt(rate, k, odd', rest');
    }
  }

  /** Too close to tell at the first boundary; odd multiples of what is left over drift away from it. */
  lemma LaterBoundary(rate: nat, odd: int, rest: int) returns (k: nat, odd': int, rest': int)
    requires rate > 0 && odd % 2 == 1 && 100_000_000 == rate * odd + rest
    requires rest < 0 && rate + 1800 * rest > 0
    ensures odd' % 2 == 1 && 100_000_000 * (2 * k + 1) == rate * odd' + rest'
    ensures rest' <= rate && rate + rest' > 0 && rate + 1800 * rest' <= 0
  {
    k, rest' := Drift(rate, rest);
    odd' := (2 * k + 1) * odd;
    OddProduct(2 * k + 1, odd);
    Spread(100_000_000, rate, odd, rest, 2 * k + 1, odd', rest');
  }

  lemma Spread(total: int, rate: nat, x: int, rest: int, factor: int, x': int, rest': int)
    requires total == rate * x + rest && x' == factor * x && rest' == factor * rest
    ensures total * factor == rate * x' + rest'
  {
    assert rate * x' == (rate * x) * factor;
  }

  lemma Drift(rate: nat, rest: int) returns (k: nat, drifted: int)
    requires rest < 0 && rate + 1800 * rest > 0
    ensures drifted == (2 * k + 1) * rest
    ensures rate + drifted > 0 && rate + 1800 * drifted <= 0
  {
    var step := -3600 * rest;
    k := rate / step + 1;
    DivisionBounds(rate, step);
    var reach := StepsCovered(k, step, rest);
    drifted := (2 * k + 1) * rest;
  }

  lemma StepsCovered(k: int, step: int, rest: int) returns (reach: int)
    requires step == -3600 * rest
    ensures reach == k * step && (k - 1) * step == reach - step
    ensures 1800 * ((2 * k + 1) * rest) == -reach + 1800 * rest
  {
    reach := k * step;
    assert k * step == -3600 * (k * rest);
  }
}
