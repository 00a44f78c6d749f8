/** Field capacity, specific fuel consumption, power and fuel (shared by the three modes). */
module PowerFuel {
  import opened Calculus
  import opened FrontBallast
  import opened Outcomes
  import opened Traction

  const DIESEL_CALORIFIC_VALUE := 35.5
  const SFC_COEFF_A := 2.64
  const SFC_COEFF_B := 3.91
  const SFC_COEFF_C := 0.203
  const SFC_RADICAND_COEFF := 738.0
  const SFC_RADICAND_OFFSET := 173.0

  function Clamp(x: real, low: real, high: real): real {
    var capped := if x < high then x else high;
    if low > capped then low else capped
  }

  /** Nearest integer, ties away from zero. */
  function RoundHalfAway(x: real): int {
    if x >= 0.0 then (x + 0.5).Floor else -((-x + 0.5).Floor)
  }

  datatype Capacity = Capacity(
    theoretical: real,
    actual: real,
    efficiencyPct: real,
    rawEfficiencyPct: real,
    turningTimeS: real,
    turns: nat,
    totalTimeH: real,
    turningTimeH: real)

  /** Seconds for a turn, by the speed in km/h and the width in m for each km/h, before their limits. */
  function Turning(speed: real, ratio: real): real {
    15.56 + 2.61 * ratio - 1.41 * speed
  }

  function TurningTime(speed: real, width: real): (t: real)
    requires speed != 0.0
    ensures 8.0 <= t <= 45.0
  {
    Clamp(Turning(speed, width / speed), 8.0, 45.0)
  }

  /** Turning takes no less time with a wider implement, and no more at a higher speed. */
  lemma TurningTimeOrder(speed: real, faster: real, width: real, wider: real)
    requires 0.0 < speed <= faster && 0.0 < width <= wider
    ensures TurningTime(speed, width) <= TurningTime(speed, wider)
    ensures TurningTime(faster, width) <= TurningTime(speed, width)
  {
    QuotientMonotone(width, speed, faster);
    WiderQuotient(width, wider, speed);
    ClampMonotone(Turning(speed, width / speed), Turning(speed, wider / speed));
    ClampMonotone(Turning(faster, width / faster), Turning(speed, width / speed));
  }

  lemma ClampMonotone(x: real, y: real)
    requires x <= y
    ensures Clamp(x, 8.0, 45.0) <= Clamp(y, 8.0, 45.0)
  {
  }

  lemma WiderQuotient(x: real, y: real, k: real)
    requires x <= y && k > 0.0
    ensures x / k <= y / k
  {
    var p, q := x / k, y / k;
    assert p * k == x && q * k == y;
    if q < p {
      ScaleStrict(k, q, p);
    }
  }

  function FieldCapacity(speed: real, width: real, area: real, fieldWidth: real): Outcome<Capacity> {
    if speed <= 0.0 || width <= 0.0 || area <= 0.0 then
      Rejected(NonPositiveInput)
    else
      var th := speed * width / 10.0;
      var turning := TurningTime(speed, width);
      var turns := RoundHalfAway(fieldWidth / width);
      var n: nat := if turns > 0 then turns else 0;
      var turningH := turning * n as real / 3600.0 * 2.0;
      if th <= 0.0 || turningH + area / th <= 0.0 then
        Rejected(NonPositiveInput)
      else
        var total := turningH + area / th;
        var ac := area / total;
        Ok(Capacity(th, ac, Clamp(ac / th * 100.0, 50.0, 95.0), ac / th * 100.0, turning, n, total, turningH))
  }

  /** Field capacity is refused only for non-positive input; turning can only lower the capacity, and
  it does so exactly when there is a turn to make. */
  lemma TurningOnlyLowersCapacity(speed: real, width: real, area: real, fieldWidth: real)
    requires speed > 0.0 && width > 0.0 && area > 0.0
    ensures FieldCapacity(speed, width, area, fieldWidth).Ok?
    ensures var c := FieldCapacity(speed, width, area, fieldWidth).value;
      && 0.0 < c.actual <= c.theoretical
      && (c.actual == c.theoretical <==> c.turns == 0)
  {
    var product := PositiveProduct(speed, width);
    var th := speed * width / 10.0;
    QuotientPositive(area, th);
    var turns := RoundHalfAway(fieldWidth / width);
    var n: nat := if turns > 0 then turns else 0;
    var turning := TurningTime(speed, width);
    TurningHours(turning, n);
    var turningH := turning * n as real / 3600.0 * 2.0;
    LongerTakesLess(area, th, area / th, turningH + area / th);
  }

  lemma TurningHours(turning: real, n: nat)
    requires turning >= 8.0
    ensures turning * n as real / 3600.0 * 2.0 >= 0.0
    ensures turning * n as real / 3600.0 * 2.0 == 0.0 <==> n == 0
  {
    if n > 0 {
      var p := PositiveProduct(turning, n as real);
    }
  }

  lemma LongerTakesLess(area: real, rate: real, time: real, total: real)
    requires area > 0.0 && rate > 0.0 && time == area / rate && 0.0 < time <= total
    ensures 0.0 < area / total <= rate && (area / total == rate <==> total == time)
  {
    QuotientPositive(area, total);
    var slower := area / total;
    assert slower * total == area && time * rate == area;
    if slower > rate {
      ScaleStrict(total, rate, slower);
      Scale(rate, time, total);
    }
    if total > time {
      ScaleStrict(rate, time, total);
    }
  }

  /** ASABE specific fuel consumption in l/kWh at a PTO power fraction. */
  function SpecificFuelConsumption(m: Maths, fraction: real): real {
    var x := if fraction > 0.0 then fraction else 0.0;
    SFC_COEFF_A * x + SFC_COEFF_B - SFC_COEFF_C * m.sqrt(SFC_RADICAND_COEFF * x + SFC_RADICAND_OFFSET)
  }

  /** Specific fuel consumption never drops to 0.41 l/kWh, at any power fraction. */
  lemma FuelRateBoundedBelow(m: Maths, fraction: real)
    requires m.Valid()
    ensures SpecificFuelConsumption(m, fraction) > 0.41
  {
    var x := if fraction > 0.0 then fraction else 0.0;
    var radicand := SFC_RADICAND_COEFF * x + SFC_RADICAND_OFFSET;
    RootPositive(m, radicand);
    var u := m.sqrt(radicand);
    ParabolaAboveAxis(u, u - 149.814 / 5.28);
  }

  /** Idling costs about 1.24 l for each kWh, working at the rated power about 0.42 l. */
  lemma FuelRateAtEnds(m: Maths)
    requires m.Valid()
    ensures 1.23 < SpecificFuelConsumption(m, 0.0) < 1.25
    ensures 0.42 < SpecificFuelConsumption(m, 1.0) < 0.43
  {
    RootBetween(m, 173.0, 13.15, 13.16);
    RootBetween(m, 911.0, 30.15, 30.19);
    RateAt(m, 0.0, 173.0);
    RateAt(m, 1.0, 911.0);
  }

  lemma RateAt(m: Maths, x: real, radicand: real)
    requires x >= 0.0 && radicand == 738.0 * x + 173.0
    ensures SpecificFuelConsumption(m, x) == 2.64 * x + 3.91 - 0.203 * m.sqrt(radicand)
  {
  }

  lemma RootBetween(m: Maths, x: real, low: real, high: real)
    requires m.Valid() && x > 0.0 && 0.0 < low < high && low * low < x < high * high
    ensures low < m.sqrt(x) < high
  {
    RootPositive(m, x);
    if m.sqrt(x) <= low {
      SquareMonotone(m.sqrt(x), low);
    }
    if m.sqrt(x) >= high {
      SquareMonotone(high, m.sqrt(x));
    }
  }

  // 2.64 u^2 - 149.814 u + 2126.28 is 2.64 times a square, plus a positive rest.
  lemma ParabolaAboveAxis(u: real, w: real)
    requires w == u - 149.814 / 5.28
    ensures 2.64 * (u * u) - 149.814 * u + 2126.28 > 0.0
  {
    var square := w * w;
    SquareNonNegative(w);
    assert square == u * u - 2.0 * (149.814 / 5.28) * u + (149.814 / 5.28) * (149.814 / 5.28);
  }

  datatype Power = Power(
    drawbarKw: real,
    ptoKw: real,
    utilisationPct: real,
    fraction: real,
    sfc: real,
    fuelLph: real,
    fuelLphPtoBasis: real,
    fuelLPerHa: real,
    overallPct: real)

  function OverallRaw(drawbar: real, theoretical: real, fuelLPerHa: real): real
    requires theoretical * fuelLPerHa * DIESEL_CALORIFIC_VALUE != 0.0
  {
    drawbar * 3600.0 / 1000.0 / (theoretical * fuelLPerHa * DIESEL_CALORIFIC_VALUE) * 100.0
  }

  function OverallEfficiency(drawbar: real, theoretical: real, fuelLPerHa: real): real
    requires theoretical > 0.0
  {
    if fuelLPerHa > 0.0 then
      FuelEnergyPositive(theoretical, fuelLPerHa);
      Clamp(OverallRaw(drawbar, theoretical, fuelLPerHa), 0.0, 100.0)
    else
      0.0
  }

  lemma FuelEnergyPositive(theoretical: real, fuelLPerHa: real)
    requires theoretical > 0.0 && fuelLPerHa > 0.0
    ensures theoretical * fuelLPerHa * DIESEL_CALORIFIC_VALUE > 0.0
  {
    var p := PositiveProduct(theoretical, fuelLPerHa);
  }

  lemma DivisorPositive(x: real, y: real)
    requires x > 0.0 && y > 0.0
    ensures x * y > 0.0
  {
  }

  /** Drawbar power, required PTO power, utilisation and fuel, on the drawbar basis. `extraPto` is the
  rotor's own draw. */
  function PowerAndFuel(
    m: Maths, draft: real, speed: real, tePct: real, transmissionPct: real, reservePct: real,
    ratedPto: real, theoretical: real, actual: real, extraPto: real): Outcome<Power>
  {
    if ratedPto <= 0.0 || speed <= 0.0 || theoretical <= 0.0 || actual <= 0.0 || tePct <= 0.0
       || transmissionPct <= 0.0 then
      Rejected(NonPositiveInput)
    else if reservePct >= 100.0 then
      Rejected(OutOfRange)
    else
      DivisorPositive(tePct / 100.0, transmissionPct / 100.0);
      DivisorPositive(ratedPto, 1.0 - reservePct / 100.0);
      var drawbar := draft * speed / 3.6 / 1000.0;
      var pto := drawbar / (tePct / 100.0 * (transmissionPct / 100.0));
      var total := pto + extraPto;
      var sfc := SpecificFuelConsumption(m, total / ratedPto);
      var perHa := sfc * drawbar / actual;
      var fuelLPerHa := if perHa > 0.0 then perHa else 0.0;
      Ok(Power(drawbar, pto, total / (ratedPto * (1.0 - reservePct / 100.0)) * 100.0, total / ratedPto, sfc,
               sfc * drawbar, sfc * total, fuelLPerHa, OverallEfficiency(drawbar, theoretical, fuelLPerHa)))
  }

  /** For a positive draft the fuel figure never rests on its floor, and overall efficiency is
  360 * (actual / theoretical capacity) / (35.5 * SFC): strictly between 0 and 25%, so that neither end
  of its clamp is ever met. */
  lemma FuelAndEfficiencyBounds(
    m: Maths, draft: real, speed: real, tePct: real, transmissionPct: real, reservePct: real,
    ratedPto: real, theoretical: real, actual: real, extraPto: real)
    requires m.Valid() && draft > 0.0 && actual <= theoretical
    requires PowerAndFuel(m, draft, speed, tePct, transmissionPct, reservePct, ratedPto, theoretical, actual,
                          extraPto).Ok?
    ensures var p := PowerAndFuel(m, draft, speed, tePct, transmissionPct, reservePct, ratedPto, theoretical,
                                  actual, extraPto).value;
      && p.sfc > 0.41 && p.fuelLph > 0.0
      && p.fuelLPerHa == p.fuelLph / actual > 0.0
      && p.overallPct == 360.0 * (actual / theoretical) / (35.5 * p.sfc)
      && 0.0 < p.overallPct < 25.0
  {
    var p := PowerAndFuel(m, draft, speed, tePct, transmissionPct, reservePct, ratedPto, theoretical, actual,
                          extraPto).value;
    FuelRateBoundedBelow(m, p.fraction);
    var work := PositiveProduct(draft, speed);
    var fuel := PositiveProduct(p.sfc, p.drawbarKw);
    QuotientPositive(fuel, actual);
    EfficiencyReduces(p.drawbarKw, p.sfc, theoretical, actual, p.fuelLPerHa);
    EfficiencyRange(actual, theoretical, p.sfc);
  }

  lemma EfficiencyReduces(drawbar: real, sfc: real, theoretical: real, actual: real, perHa: real)
    requires drawbar > 0.0 && sfc > 0.0 && theoretical > 0.0 && actual > 0.0 && perHa > 0.0
    requires perHa == sfc * drawbar / actual
    ensures theoretical * perHa * DIESEL_CALORIFIC_VALUE > 0.0
    ensures OverallRaw(drawbar, theoretical, perHa) == 360.0 * (actual / theoretical) / (35.5 * sfc)
  {
    FuelEnergyPositive(theoretical, perHa);
    var share := actual / theoretical;
    var e := 360.0 * share / (35.5 * sfc);
    assert share * theoretical == actual;
    assert e * (35.5 * sfc) == 360.0 * share;
    assert perHa * actual == sfc * drawbar;
    EnergyBalance(drawbar, sfc, theoretical, share, perHa, e);
    QuotientIs(e / 100.0, theoretical * perHa * DIESEL_CALORIFIC_VALUE, drawbar * 3600.0 / 1000.0);
  }

  lemma EnergyBalance(drawbar: real, sfc: real, theoretical: real, share: real, perHa: real, e: real)
    requires sfc > 0.0 && e * (35.5 * sfc) == 360.0 * share
    requires perHa * (share * theoretical) == sfc * drawbar
    ensures e / 100.0 * (theoretical * perHa * DIESEL_CALORIFIC_VALUE) == drawbar * 3600.0 / 1000.0
  {
    var tp := theoretical * perHa;
    assert share * tp == sfc * drawbar;
    var x := e * tp * 35.5;
    assert x * sfc == (e * (35.5 * sfc)) * tp;
    assert (e * (35.5 * sfc)) * tp == 360.0 * (share * tp);
    assert x * sfc == (360.0 * drawbar) * sfc;
    CancelRight(x, 360.0 * drawbar, sfc);
  }

  lemma CancelRight(x: real, y: real, s: real)
    requires s > 0.0 && x * s == y * s
    ensures x == y
  {
    if x < y {
      ScaleStrict(s, x, y);
    } else if y < x {
      ScaleStrict(s, y, x);
    }
  }

  lemma QuotientIs(q: real, y: real, x: real)
    requires y > 0.0 && q * y == x
    ensures x / y == q
  {
  }

  lemma EfficiencyRange(actual: real, theoretical: real, sfc: real)
    requires 0.0 < actual <= theoretical && sfc > 0.41
    ensures 0.0 < 360.0 * (actual / theoretical) / (35.5 * sfc) < 25.0
  {
    var share := actual / theoretical;
    QuotientPositive(actual, theoretical);
    QuotientAtMost(actual, theoretical, 1.0);
    QuotientPositive(360.0 * share, 35.5 * sfc);
    QuotientAtLeast(360.0 * share, 35.5 * sfc, 25.0);
  }
}
