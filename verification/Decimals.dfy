/** Decimal numbers as text: what a cost note prints and what a reader gets back from it. */
module Decimals {
  import opened Outcomes

  /** coefficient / 10^places */
  datatype Decimal = Decimal(coefficient: nat, places: nat)

  function Pow10(n: nat): (p: nat)
    ensures p > 0
  {
    if n == 0 then 1 else 10 * Pow10(n - 1)
  }

  function Digit(d: nat): char
    requires d < 10
  {
    '0' + d as char
  }

  predicate IsDigit(c: char) {
    '0' <= c <= '9'
  }

  predicate AllDigits(s: string) {
    forall i :: 0 <= i < |s| ==> IsDigit(s[i])
  }

  // --- Printing ---

  function Digits(n: nat): (s: string)
    ensures |s| > 0 && AllDigits(s)
  {
    if n < 10 then [Digit(n)] else Digits(n / 10) + [Digit(n % 10)]
  }

  /** n without its last `places` digits, and those digits. */
  function Whole(n: nat, places: nat): nat {
    if places == 0 then n else Whole(n / 10, places - 1)
  }

  function LastDigits(n: nat, places: nat): (s: string)
    ensures |s| == places && AllDigits(s)
  {
    if places == 0 then "" else LastDigits(n / 10, places - 1) + [Digit(n % 10)]
  }

  /** A quantized Decimal: exactly `places` digits after the point. */
  function Fixed(d: Decimal): string {
    if d.places == 0 then Digits(d.coefficient)
    else Digits(Whole(d.coefficient, d.places)) + "." + LastDigits(d.coefficient, d.places)
  }

  /** The same value without trailing zeros after the point. */
  function Trimmed(d: Decimal): (t: Decimal)
    ensures t.places <= d.places && t.coefficient * Pow10(d.places - t.places) == d.coefficient
    ensures t.places > 0 ==> t.coefficient % 10 != 0
    decreases d.places
  {
    if d.places > 0 && d.coefficient % 10 == 0 then
      var t := Trimmed(Decimal(d.coefficient / 10, d.places - 1));
      TenfoldProduct(t.coefficient, Pow10(d.places - 1 - t.places), d.coefficient / 10);
      t
    else
      d
  }

  lemma TenfoldProduct(x: nat, p: nat, n: nat)
    requires x * p == n
    ensures x * (10 * p) == 10 * n
  {
  }

  // --- Reading ---

  /** Reads digits, with at most one point among them, off the front of `s`. */
  function Scan(s: string, read: nat, places: Option<nat>): (Decimal, string) {
    if s != [] && IsDigit(s[0]) then
      Scan(s[1..], read * 10 + (s[0] - '0') as nat, if places.Some? then Some(places.value + 1) else None)
    else if s != [] && s[0] == '.' && places.None? then
      Scan(s[1..], read, Some(0))
    else
      (Decimal(read, if places.Some? then places.value else 0), s)
  }

  function Read(s: string): (Decimal, string) {
    Scan(s, 0, None)
  }

  function Accumulate(read: nat, ds: string): nat
    requires AllDigits(ds)
    decreases |ds|
  {
    if ds == [] then read else Accumulate(read * 10 + (ds[0] - '0') as nat, ds[1..])
  }

  lemma {:induction false} AccumulateLast(read: nat, ds: string, d: nat)
    requires AllDigits(ds) && d < 10
    ensures AllDigits(ds + [Digit(d)])
    ensures Accumulate(read, ds + [Digit(d)]) == Accumulate(read, ds) * 10 + d
    decreases |ds|
  {
    if ds == [] {
      assert (ds + [Digit(d)])[1..] == [];
    } else {
      AccumulateLast(read * 10 + (ds[0] - '0') as nat, ds[1..], d);
      assert (ds + [Digit(d)])[1..] == ds[1..] + [Digit(d)];
    }
  }

  lemma {:induction false} AccumulateDigits(n: nat)
    ensures Accumulate(0, Digits(n)) == n
  {
    if n < 10 {
      assert Digits(n)[1..] == [];
    } else {
      AccumulateDigits(n / 10);
      AccumulateLast(0, Digits(n / 10), n % 10);
    }
  }

  lemma {:induction false} AccumulateLastDigits(n: nat, places: nat)
    ensures Accumulate(Whole(n, places), LastDigits(n, places)) == n
  {
    if places > 0 {
      AccumulateLastDigits(n / 10, places - 1);
      AccumulateLast(Whole(n, places), LastDigits(n / 10, places - 1), n % 10);
    }
  }

  lemma {:induction false} ScanDigits(ds: string, rest: string, read: nat, places: Option<nat>)
    requires AllDigits(ds)
    ensures Scan(ds + rest, read, places)
         == Scan(rest, Accumulate(read, ds), if places.Some? then Some(places.value + |ds|) else None)
    decreases |ds|
  {
    if ds == [] {
      assert ds + rest == rest;
    } else {
      var more: Option<nat> := if places.Some? then Some(places.value + 1) else None;
      assert (ds + rest)[0] == ds[0] && (ds + rest)[1..] == ds[1..] + rest;
      ScanDigits(ds[1..], rest, read * 10 + (ds[0] - '0') as nat, more);
    }
  }

  /** Text that cannot continue a number. */
  predicate Ends(rest: string) {
    rest == [] || (!IsDigit(rest[0]) && rest[0] != '.')
  }

  /** Whatever a Decimal prints, reading it gives that Decimal back, coefficient and places. */
  lemma ReadsBack(d: Decimal, rest: string)
    requires Ends(rest)
    ensures Read(Fixed(d) + rest) == (d, rest)
  {
    var whole := Whole(d.coefficient, d.places);
    AccumulateDigits(whole);
    if d.places == 0 {
      ScanDigits(Digits(whole), rest, 0, None);
    } else {
      var last := LastDigits(d.coefficient, d.places);
      var tail := "." + last + rest;
      assert Fixed(d) + rest == Digits(whole) + tail;
      ScanDigits(Digits(whole), tail, 0, None);
      assert tail[0] == '.' && tail[1..] == last + rest;
      ScanDigits(last, rest, whole, Some(0));
      AccumulateLastDigits(d.coefficient, d.places);
    }
  }
}
