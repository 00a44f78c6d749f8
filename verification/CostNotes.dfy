/** The note printed under a charge, and why a reader can check the bill from it. */
module CostNotes {
  import opened Billing
  import opened Decimals
  import opened Outcomes
  import opened Rounding

  const NO_WORK := " (no measured work recorded for this session)"

  function Label(op: Operation): string {
    match op
    case Tillage => "Tillage"
    case Sowing => "Sowing"
    case Spraying => "Spraying"
    case Weeding => "Weeding"
    case Harvesting => "Harvesting"
    case Threshing => "Threshing"
    case Grading => "Grading"
  }

  function Suffix(unit: Unit): string {
    if unit.PerHour? then "hr" else "ha"
  }

  function PrintedRate(rate: nat): Decimal {
    Trimmed(Decimal(rate, 4))
  }

  function PrintedQuantity(unit: Unit, quantity: nat): Decimal {
    Decimal(quantity, QuantityPlaces(unit))
  }

  function Closing(quantity: nat): string {
    if quantity == 0 then NO_WORK else ""
  }

  /** "Tillage: Rs 1200/ha x 1.2500 ha = Rs 1500.00" */
  function Note(op: Operation, unit: Unit, rate: nat, quantity: nat, total: nat): string {
    Label(op) + (": Rs " + (Fixed(PrintedRate(rate)) + ("/" + (Suffix(unit) + (" x "
      + (Fixed(PrintedQuantity(unit, quantity)) + (" " + (Suffix(unit) + (" = Rs "
      + (Fixed(Decimal(total, 2)) + Closing(quantity)))))))))))
  }

  // --- Reading a note back ---

  datatype Bill = Bill(rate: Decimal, unit: Unit, quantity: Decimal, total: Decimal)

  function AfterColon(s: string): string
    ensures |AfterColon(s)| <= |s|
  {
    if s == [] || s[0] == ':' then s else AfterColon(s[1..])
  }

  function Expect(s: string, text: string): Option<string> {
    if text <= s then Some(s[|text|..]) else None
  }

  function ReadUnit(s: string): Option<(Unit, string)> {
    if "ha" <= s then Some((PerHectare, s[2..]))
    else if "hr" <= s then Some((PerHour, s[2..]))
    else None
  }

  /** Quantity and total, once the rate and its unit are read. */
  function ReadAmounts(s: string, rate: Decimal, unit: Unit): Option<Bill> {
    var (quantity, rest) := Read(s);
    match Expect(rest, " " + Suffix(unit) + " = Rs ")
    case None => None
    case Some(amount) => Some(Bill(rate, unit, quantity, Read(amount).0))
  }

  /** What follows "Rs ". */
  function ReadPriced(s: string): Option<Bill> {
    var (rate, rest) := Read(s);
    match Expect(rest, "/")
    case None => None
    case Some(per) =>
      match ReadUnit(per)
      case None => None
      case Some((unit, more)) =>
        match Expect(more, " x ")
        case None => None
        case Some(amounts) => ReadAmounts(amounts, rate, unit)
  }

  function ReadNote(s: string): Option<Bill> {
    match Expect(AfterColon(s), ": Rs ")
    case None => None
    case Some(priced) => ReadPriced(priced)
  }

  lemma {:induction false} SkipsLabel(name: string, rest: string)
    requires ':' !in name && rest != [] && rest[0] == ':'
    ensures AfterColon(name + rest) == rest
    decreases |name|
  {
    if name == [] {
      assert name + rest == rest;
    } else {
      assert (name + rest)[0] == name[0] && (name + rest)[1..] == name[1..] + rest;
      SkipsLabel(name[1..], rest);
    }
  }

  lemma ExpectsPrefix(text: string, rest: string)
    ensures Expect(text + rest, text) == Some(rest)
  {
    assert (text + rest)[|text|..] == rest;
  }

  lemma ReadsUnit(unit: Unit, rest: string)
    ensures ReadUnit(Suffix(unit) + rest) == Some((unit, rest))
  {
    ExpectsPrefix(Suffix(unit), rest);
    if unit.PerHour? {
      assert (Suffix(unit) + rest)[1] == 'r';
    }
  }

  /** Amounts as printed after the rate. */
  function Amounts(unit: Unit, quantity: nat, total: nat): string {
    Fixed(PrintedQuantity(unit, quantity)) + (" " + (Suffix(unit) + (" = Rs "
      + (Fixed(Decimal(total, 2)) + Closing(quantity)))))
  }

  lemma AmountsReadBack(rate: Decimal, unit: Unit, quantity: nat, total: nat)
    ensures ReadAmounts(Amounts(unit, quantity, total), rate, unit)
         == Some(Bill(rate, unit, PrintedQuantity(unit, quantity), Decimal(total, 2)))
  {
    var closing := Closing(quantity);
    var amount := Fixed(Decimal(total, 2)) + closing;
    var middle := " " + Suffix(unit) + " = Rs ";
    assert " " + (Suffix(unit) + (" = Rs " + amount)) == middle + amount;
    ReadsBack(PrintedQuantity(unit, quantity), middle + amount);
    ExpectsPrefix(middle, amount);
    ReadsBack(Decimal(total, 2), closing);
  }

  /** The note from its rate on. */
  function Priced(unit: Unit, rate: nat, amounts: string): string {
    Fixed(PrintedRate(rate)) + ("/" + (Suffix(unit) + (" x " + amounts)))
  }

  lemma PricedReadsBack(unit: Unit, rate: nat, amounts: string)
    ensures ReadPriced(Priced(unit, rate, amounts)) == ReadAmounts(amounts, PrintedRate(rate), unit)
  {
    ReadsBack(PrintedRate(rate), "/" + (Suffix(unit) + (" x " + amounts)));
    ExpectsPrefix("/", Suffix(unit) + (" x " + amounts));
    ReadsUnit(unit, " x " + amounts);
    ExpectsPrefix(" x ", amounts);
  }

  /** Every note reads back as the rate, unit, quantity and total it was printed from. */
  lemma NoteReadsBack(op: Operation, unit: Unit, rate: nat, quantity: nat, total: nat)
    ensures ReadNote(Note(op, unit, rate, quantity, total))
         == Some(Bill(PrintedRate(rate), unit, PrintedQuantity(unit, quantity), Decimal(total, 2)))
  {
    var amounts := Amounts(unit, quantity, total);
    var priced := Priced(unit, rate, amounts);
    SkipsLabel(Label(op), ": Rs " + priced);
    ExpectsPrefix(": Rs ", priced);
    PricedReadsBack(unit, rate, amounts);
    AmountsReadBack(PrintedRate(rate), unit, quantity, total);
  }

  // --- Checking a bill by hand ---

  /** Rate times quantity, half-up to paise, computed from the printed figures alone. */
  function Reprice(rate: Decimal, quantity: Decimal): nat {
    HalfUp(rate.coefficient * quantity.coefficient * 100, Pow10(rate.places + quantity.places))
  }

  /** Multiplying the rate and the quantity a note prints gives the total it prints: for every
  operation, rate and quantity. */
  lemma NoteReconciles(op: Operation, unit: Unit, rate: nat, quantity: nat)
    ensures var bill := ReadNote(Note(op, unit, rate, quantity, Total(unit, rate, quantity)));
      bill.Some? && bill.value.total == Decimal(Reprice(bill.value.rate, bill.value.quantity), 2)
  {
    var total := Total(unit, rate, quantity);
    NoteReadsBack(op, unit, rate, quantity, total);
    TrimmingKeepsProduct(unit, rate, quantity);
  }

  lemma TrimmingKeepsProduct(unit: Unit, rate: nat, quantity: nat)
    ensures Reprice(PrintedRate(rate), PrintedQuantity(unit, quantity)) == Total(unit, rate, quantity)
  {
    var d := PrintedRate(rate);
    var k := Pow10(4 - d.places);
    var printed, stored := MovesFactor(d.coefficient, k, quantity, rate);
    ScaledUnits(unit, d.places);
    EqualFractions(k, printed, Pow10(d.places + QuantityPlaces(unit)), 100, stored, ProductsPerPaisa(unit));
  }

  lemma MovesFactor(c: nat, k: nat, q: nat, rate: nat) returns (printed: nat, stored: nat)
    requires c * k == rate
    ensures printed == c * q * 100 && stored == rate * q && k * printed == 100 * stored
  {
    printed, stored := c * q * 100, rate * q;
    assert k * (c * q) == (c * k) * q;
  }

  lemma ScaledUnits(unit: Unit, places: nat)
    requires places <= 4
    ensures Pow10(4 - places) * Pow10(places + QuantityPlaces(unit)) == 100 * ProductsPerPaisa(unit)
  {
    Pow10Adds(4 - places, places + QuantityPlaces(unit));
    Powers();
  }

  lemma {:induction false} Pow10Adds(a: nat, b: nat)
    ensures Pow10(a + b) == Pow10(a) * Pow10(b)
  {
    if a > 0 {
      Pow10Adds(a - 1, b);
    }
  }

  lemma Powers()
    ensures Pow10(8) == 100 * 1_000_000 && Pow10(10) == 100 * 100_000_000
  {
    assert Pow10(4) == 10_000;
    Pow10Adds(4, 4);
    Pow10Adds(2, 8);
  }
}
