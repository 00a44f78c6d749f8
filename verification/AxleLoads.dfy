/** Dynamic axle loads (Eq. 3.5 and 3.6) with front ballast added to the tractor. */
module AxleLoads {
  import opened Outcomes

  const GRAVITY := 9.81
  const WHEEL_ECCENTRICITY_COEFF := 0.1
  const DRAFT_DEPTH_ACTION_FRACTION := 2.0 / 3.0

  /** The moment balance of a tractor and what it tows. Lengths in m, loads in N. `extraRear` is the
  PTO reaction and vertical rotor force of an active-passive combination, 0 for the other modes. */
  datatype Balance = Balance(
    tractorWeight: real,
    cgFromRear: real,
    implementWeight: real,
    implementCg: real,
    soilReaction: real,
    hitch: real,
    draft: real,
    draftDepth: real,
    rearOffset: real,
    frontOffset: real,
    wheelbase: real,
    extraRear: real)
  {
    /** Effective wheelbase L - er + ef, the denominator of Eq. 3.5. */
    function Span(): real {
      wheelbase - rearOffset + frontOffset
    }

    /** Load on the rear axle with `extra` N of front ballast on the tractor. */
    function RearLoad(extra: real): real
      requires Span() != 0.0
    {
      ((implementWeight + soilReaction) * (implementCg + hitch + wheelbase + frontOffset)
       + (tractorWeight + extra) * (wheelbase + frontOffset - cgFromRear)
       - draft * draftDepth) / Span()
      + extraRear
    }

    function TotalLoad(extra: real): real {
      tractorWeight + extra + implementWeight + soilReaction
    }

    function FrontLoad(extra: real): real
      requires Span() != 0.0
    {
      TotalLoad(extra) - RearLoad(extra)
    }

    /** Share of added front ballast that ends up on the front axle. */
    function FrontShare(): real
      requires Span() != 0.0
    {
      (cgFromRear - rearOffset) / Span()
    }

    /** Share of it that ends up on the rear axle. */
    function RearShare(): real
      requires Span() != 0.0
    {
      (wheelbase + frontOffset - cgFromRear) / Span()
    }

    lemma SharesAddUp()
      requires Span() != 0.0
      ensures FrontShare() + RearShare() == 1.0
    {
      QuotientsAddUp(cgFromRear - rearOffset, wheelbase + frontOffset - cgFromRear, Span());
    }

    /** Both axle loads are affine in the added ballast. */
    lemma LoadsAreAffine(extra: real)
      requires Span() != 0.0
      ensures RearLoad(extra) == RearLoad(0.0) + RearShare() * extra
      ensures FrontLoad(extra) == FrontLoad(0.0) + FrontShare() * extra
    {
      var base := (implementWeight + soilReaction) * (implementCg + hitch + wheelbase + frontOffset);
      var arm := wheelbase + frontOffset - cgFromRear;
      QuotientIsAffine(base, tractorWeight, extra, arm, draft * draftDepth, Span());
      SharesAddUp();
      ShareOfExtra(FrontShare(), RearShare(), extra);
    }

    /** Equilibrium about the rear contact point: the front axle holds what the tractor's own weight
    presses down before that point and the draft pulls down, less what hangs behind it lifts. */
    lemma MomentsBalance(extra: real)
      requires Span() != 0.0
      ensures RearLoad(extra) + FrontLoad(extra) == TotalLoad(extra)
      ensures FrontLoad(extra) * Span()
           == (tractorWeight + extra) * (cgFromRear - rearOffset)
              - (implementWeight + soilReaction) * (implementCg + hitch + rearOffset)
              + draft * draftDepth - extraRear * Span()
    {
      var hung, reach := implementWeight + soilReaction, implementCg + hitch + rearOffset;
      var heavy, lead := tractorWeight + extra, cgFromRear - rearOffset;
      RearArms();
      Cancels(hung * (reach + Span()) + heavy * (Span() - lead) - draft * draftDepth, Span());
      OtherSide(hung, reach, heavy, lead, draft * draftDepth, extraRear, Span(), RearLoad(extra));
    }

    lemma RearArms()
      ensures implementCg + hitch + wheelbase + frontOffset == (implementCg + hitch + rearOffset) + Span()
      ensures wheelbase + frontOffset - cgFromRear == Span() - (cgFromRear - rearOffset)
    {
    }

    /** What a heavier draft, a heavier load behind and a rotor do: the draft moves load from the rear axle to
    the front, what hangs behind the rear contact point takes load off the front axle and puts more than
    its weight on the rear, and the rotor's rear load is moved from the front. */
    lemma LoadsMove(other: Balance, extra: real)
      requires Span() > 0.0
      requires other == this.(draft := other.draft, implementWeight := other.implementWeight,
                              extraRear := other.extraRear)
      ensures other.Span() == Span()
      ensures other.RearLoad(extra) + other.FrontLoad(extra)
           == RearLoad(extra) + FrontLoad(extra) + (other.implementWeight - implementWeight)
      ensures (other.FrontLoad(extra) - FrontLoad(extra)) * Span()
           == (other.draft - draft) * draftDepth
              - (other.implementWeight - implementWeight) * (implementCg + hitch + rearOffset)
              - (other.extraRear - extraRear) * Span()
    {
      MomentsBalance(extra);
      other.MomentsBalance(extra);
      var reach := implementCg + hitch + rearOffset;
      LessTimes(other.draft, draft, draftDepth);
      LessTimes(other.implementWeight + soilReaction, implementWeight + soilReaction, reach);
      LessTimes(other.extraRear, extraRear, Span());
      LessTimes(other.FrontLoad(extra), FrontLoad(extra), Span());
    }
  }

  lemma OtherSide(
    hung: real, reach: real, heavy: real, lead: real, pull: real, more: real, s: real, rear: real)
    requires (rear - more) * s == hung * (reach + s) + heavy * (s - lead) - pull
    ensures (heavy + hung - rear) * s == heavy * lead - hung * reach + pull - more * s
  {
    assert hung * (reach + s) == hung * reach + hung * s;
    assert heavy * (s - lead) == heavy * s - heavy * lead;
    assert (heavy + hung - rear) * s == heavy * s + hung * s - rear * s;
    assert (rear - more) * s == rear * s - more * s;
  }

  lemma LessTimes(x: real, y: real, k: real)
    ensures (x - y) * k == x * k - y * k
  {
  }

  lemma QuotientsAddUp(f: real, r: real, s: real)
    requires s != 0.0 && f + r == s
    ensures f / s + r / s == 1.0
  {
    Cancels(f, s);
    Cancels(r, s);
    var z := SumTimes(f / s, r / s, f, r, s, s);
    QuotientOf(z, s, s);
    QuotientOf(1.0, s, s);
  }

  lemma Cancels(x: real, s: real)
    requires s != 0.0
    ensures x / s * s == x
  {
  }

  lemma SumTimes(p: real, q: real, f: real, r: real, s: real, total: real) returns (z: real)
    requires p * s == f && q * s == r && f + r == total
    ensures z == p + q && z * s == total
  {
    z := p + q;
  }

  lemma QuotientIsAffine(base: real, w: real, extra: real, arm: real, moment: real, s: real)
    requires s != 0.0
    ensures (base + (w + extra) * arm - moment) / s == (base + (w + 0.0) * arm - moment) / s + arm / s * extra
  {
    var still := base + w * arm - moment;
    var q, share := still / s, arm / s;
    assert q * s == still && share * s == arm;
    assert (w + extra) * arm == w * arm + extra * arm;
    assert (q + share * extra) * s == still + extra * arm;
    QuotientOf(q + share * extra, s, still + extra * arm);
  }

  lemma QuotientOf(q: real, s: real, x: real)
    requires s != 0.0 && q * s == x
    ensures x / s == q
  {
  }

  lemma ShareOfExtra(f: real, r: real, extra: real)
    requires f + r == 1.0
    ensures extra - r * extra == f * extra
  {
    assert f * extra + r * extra == (f + r) * extra;
  }

  datatype Geometry = Geometry(draftDepth: real, rearOffset: real, frontOffset: real)

  /** Depth at which the draft acts and the two wheel eccentricities. */
  function GeometryTerms(depthCm: real, rearRadius: real, frontRadius: real): Outcome<Geometry> {
    if depthCm <= 0.0 || rearRadius <= 0.0 || frontRadius <= 0.0 then
      Rejected(NonPositiveInput)
    else
      Ok(Geometry(DRAFT_DEPTH_ACTION_FRACTION * (depthCm / 100.0),
                  WHEEL_ECCENTRICITY_COEFF * rearRadius,
                  WHEEL_ECCENTRICITY_COEFF * frontRadius))
  }
}
