/** An owner's rate card: posting, editing and deleting rates, and the rate a session locks. */
module RateCard {
  import opened Billing
  import opened Outcomes

  /** A stored row; amounts in 10^-4 Rs. */
  datatype Charge = Charge(perHa: nat, perHour: Option<nat>)

  type Card = map<(nat, Operation), Charge>

  /** The amount an operation is charged by. */
  function Amount(c: Charge, op: Operation): Option<nat> {
    if IsPerHour(op) then c.perHour else Some(c.perHa)
  }

  function RowOf(op: Operation, amount: nat): Charge {
    if IsPerHour(op) then Charge(0, Some(amount)) else Charge(amount, None)
  }

  /** A posted amount in rupees as the column keeps it: to 4 places, ties up. */
  function Kept(posted: real): nat
    requires posted > 0.0
  {
    (posted * 10000.0 + 0.5).Floor
  }

  /** Posting a rate creates or replaces the owner's row; only the operation's own unit is kept. */
  function Posted(card: Card, owner: nat, op: Operation, perHa: Option<real>, perHour: Option<real>): Option<Card> {
    var amount := if IsPerHour(op) then perHour else perHa;
    if amount.None? || amount.value <= 0.0 then None
    else Some(card[(owner, op) := RowOf(op, Kept(amount.value))])
  }

  /** An edit leaves a missing amount as stored, and is refused if the result is not positive. */
  function Edited(card: Card, owner: nat, op: Operation, perHa: Option<real>, perHour: Option<real>): Option<Card> {
    if (owner, op) !in card then None
    else
      var stored := Amount(card[(owner, op)], op);
      var given := if IsPerHour(op) then perHour else perHa;
      if given.Some? then
        if given.value <= 0.0 then None else Some(card[(owner, op) := RowOf(op, Kept(given.value))])
      else
        if stored.None? || stored.value == 0 then None else Some(card[(owner, op) := RowOf(op, stored.value)])
  }

  /** The rate a session locks at start; None where the start is refused. */
  function LockedRate(card: Card, owner: Option<nat>, op: Operation): Option<nat> {
    if owner.None? || (owner.value, op) !in card then None
    else
      var amount := Amount(card[(owner.value, op)], op);
      if amount.None? || amount.value == 0 then None else amount
  }

  predicate Usable(card: Card, owner: nat, op: Operation) {
    LockedRate(card, Some(owner), op).Some?
  }

  // --- What a posted amount is worth ---

  /** The amount a request gives in the unit the operation is charged by. */
  function Given(op: Operation, perHa: Option<real>, perHour: Option<real>): Option<real> {
    if op in {Threshing, Grading} then perHour else perHa
  }

  predicate Whole(k: nat, amount: real) {
    amount == k as real / 10000.0
  }

  /** The rate in 10^-4 Rs that is the nearest to an amount in rupees, ties up: whole 10^-4 Rs are kept. */
  ghost predicate Nearest(rate: nat, amount: real) {
    && -0.00005 < rate as real / 10000.0 - amount <= 0.00005
    && (forall k: nat :: Whole(k, amount) ==> rate == k)
  }

  /** The rate a start would lock is the amount, where the column can hold it. */
  ghost predicate Locks(card: Card, owner: nat, op: Operation, amount: real) {
    && (LockedRate(card, Some(owner), op).Some? <==> amount >= 0.00005)
    && (amount >= 0.00005 ==> Nearest(LockedRate(card, Some(owner), op).value, amount))
  }

  ghost predicate OthersStand(before: Card, after: Card, owner: nat, op: Operation) {
    forall o: nat, p: Operation :: (o, p) != (owner, op) ==>
      LockedRate(after, Some(o), p) == LockedRate(before, Some(o), p)
  }

  lemma KeptIsNearest(posted: real)
    requires posted > 0.0
    ensures Nearest(Kept(posted), posted) && (Kept(posted) > 0 <==> posted >= 0.00005)
  {
  }

  lemma RowLocks(card: Card, owner: nat, op: Operation, amount: nat)
    ensures var after := card[(owner, op) := RowOf(op, amount)];
      && LockedRate(after, Some(owner), op) == (if amount == 0 then None else Some(amount))
      && OthersStand(card, after, owner, op)
  {
  }

  /** An accepted posting makes the amount it gives the rate of its operation, and no other. */
  lemma PostedRateLocks(card: Card, owner: nat, op: Operation, perHa: Option<real>, perHour: Option<real>)
    requires Posted(card, owner, op, perHa, perHour).Some?
    ensures Given(op, perHa, perHour).Some? && Given(op, perHa, perHour).value > 0.0
    ensures var after := Posted(card, owner, op, perHa, perHour).value;
      Locks(after, owner, op, Given(op, perHa, perHour).value) && OthersStand(card, after, owner, op)
  {
    var amount := Given(op, perHa, perHour).value;
    KeptIsNearest(amount);
    RowLocks(card, owner, op, Kept(amount));
  }

  /** So does an accepted edit that gives one; an edit that gives none leaves every rate as it was. */
  lemma EditedRateLocks(card: Card, owner: nat, op: Operation, perHa: Option<real>, perHour: Option<real>)
    requires Edited(card, owner, op, perHa, perHour).Some?
    ensures var given, after := Given(op, perHa, perHour), Edited(card, owner, op, perHa, perHour).value;
      && OthersStand(card, after, owner, op)
      && (given.Some? ==> given.value > 0.0 && Locks(after, owner, op, given.value))
      && (given.None? ==> LockedRate(after, Some(owner), op) == LockedRate(card, Some(owner), op)
                          && LockedRate(card, Some(owner), op).Some?)
  {
    var given := Given(op, perHa, perHour);
    if given.Some? {
      KeptIsNearest(given.value);
      RowLocks(card, owner, op, Kept(given.value));
    } else {
      RowLocks(card, owner, op, Amount(card[(owner, op)], op).value);
    }
  }

  /** When postings and edits are accepted. */
  lemma AcceptedAmounts(card: Card, owner: nat, op: Operation, perHa: Option<real>, perHour: Option<real>)
    ensures var given := Given(op, perHa, perHour);
      && (Posted(card, owner, op, perHa, perHour).Some? <==> given.Some? && given.value > 0.0)
      && (Edited(card, owner, op, perHa, perHour).Some? <==>
            && (owner, op) in card
            && (if given.Some? then given.value > 0.0 else LockedRate(card, Some(owner), op).Some?))
  {
  }

  /** A rate of four thousandths of a paisa is accepted, stored as nothing, and refuses every start. */
  lemma TinyRateIsUnusable(owner: nat)
    ensures var card := Posted(map[], owner, Tillage, Some(0.00004), None);
      card.Some? && (owner, Tillage) in card.value && !Usable(card.value, owner, Tillage)
  {
  }
}
