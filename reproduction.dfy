/** The deterministic part of reproduction. Every random number the
    program draws is passed in: a coin in [0, 1) per position of a child for
    uniform crossover, and per assignment a roll in [0, 1), a field and the
    catalog values a mutation may draw. */
module Reproduction {
  import opened Catalog

  /** The three fields a mutation may redraw. */
  datatype Field = RoomField | SlotField | FacilitatorField

  /** The draws one assignment consumes during mutation: the roll compared
      with the mutation rate, the field chosen, and the catalog value drawn
      for that field (the values for the other two fields are ignored). */
  datatype MutationDraw = MutationDraw(
    roll: real,
    field: Field,
    room: Room,
    slot: Slot,
    facilitator: Facilitator)

  /** A draw of random.random(): a real in [0, 1). */
  predicate UnitDraw(x: real) {
    0.0 <= x < 1.0
  }

  // ---------------------------------------------------------------------
  // Uniform crossover
  // ---------------------------------------------------------------------

  /** The child of p1 and p2: position i comes from p1 when its coin is
      below 0.5 and from p2 otherwise. */
  function Crossed(p1: seq<Assignment>, p2: seq<Assignment>, coins: seq<real>): (c: seq<Assignment>)
    requires |p1| == |p2| == |coins|
    ensures |c| == |p1|
    ensures forall i :: 0 <= i < |c| ==> c[i] == p1[i] || c[i] == p2[i]
  {
    seq(|p1|, i requires 0 <= i < |p1| => if coins[i] < 0.5 then p1[i] else p2[i])
  }

  /** A child of two schedules of the catalog is a schedule of the catalog:
      one assignment per activity, each for the activity of its position. */
  lemma {:induction false} CrossoverKeepsAlignment(p1: seq<Assignment>, p2: seq<Assignment>, coins: seq<real>)
    requires Aligned(p1) && Aligned(p2) && |coins| == |ACTIVITIES|
    ensures Aligned(Crossed(p1, p2, coins))
  {
  }

  /** Crossing a schedule with itself gives it back, whatever the coins. */
  lemma {:induction false} CrossoverOfClones(p: seq<Assignment>, coins: seq<real>)
    requires |coins| == |p|
    ensures Crossed(p, p, coins) == p
  {
  }

  /** The child takes its genes from p1 at exactly the positions whose
      coin is below 0.5, and from p2 at the others. */
  lemma {:induction false} CrossoverSources(p1: seq<Assignment>, p2: seq<Assignment>, coins: seq<real>)
    requires |p1| == |p2| == |coins|
    ensures forall i :: 0 <= i < |p1| && coins[i] < 0.5 ==> Crossed(p1, p2, coins)[i] == p1[i]
    ensures forall i :: 0 <= i < |p1| && coins[i] >= 0.5 ==> Crossed(p1, p2, coins)[i] == p2[i]
    ensures (forall i :: 0 <= i < |coins| ==> coins[i] < 0.5) ==> Crossed(p1, p2, coins) == p1
    ensures (forall i :: 0 <= i < |coins| ==> coins[i] >= 0.5) ==> Crossed(p1, p2, coins) == p2
  {
  }

  // ---------------------------------------------------------------------
  // Mutation
  // ---------------------------------------------------------------------

  /** One assignment after mutation: when the roll is below the rate, the
      chosen field is replaced by the drawn catalog value. */
  function MutateOne(x: Assignment, rate: real, d: MutationDraw): (y: Assignment)
    ensures y.activity == x.activity
    ensures d.roll >= rate ==> y == x
    ensures d.roll < rate && d.field == RoomField ==> y == x.(room := d.room)
    ensures d.roll < rate && d.field == SlotField ==> y == x.(slot := d.slot)
    ensures d.roll < rate && d.field == FacilitatorField ==> y == x.(facilitator := d.facilitator)
    ensures y.room != x.room ==> d.roll < rate && d.field == RoomField && y.room == d.room
    ensures y.slot != x.slot ==> d.roll < rate && d.field == SlotField && y.slot == d.slot
    ensures y.facilitator != x.facilitator ==> d.roll < rate && d.field == FacilitatorField && y.facilitator == d.facilitator
  {
    if d.roll < rate then
      match d.field
      case RoomField => x.(room := d.room)
      case SlotField => x.(slot := d.slot)
      case FacilitatorField => x.(facilitator := d.facilitator)
    else x
  }

  /** At most one of room, slot and facilitator changes. */
  lemma {:induction false} MutationChangesOneField(x: Assignment, rate: real, d: MutationDraw)
    ensures var y := MutateOne(x, rate, d);
      (y.room == x.room && y.slot == x.slot)
      || (y.room == x.room && y.facilitator == x.facilitator)
      || (y.slot == x.slot && y.facilitator == x.facilitator)
  {
  }

  /** A schedule after the mutation pass, draws[i] serving assignment i. */
  function Mutated(s: seq<Assignment>, rate: real, draws: seq<MutationDraw>): (r: seq<Assignment>)
    requires |draws| == |s|
    ensures |r| == |s|
    ensures forall i :: 0 <= i < |s| && draws[i].roll >= rate ==> r[i] == s[i]
    ensures forall i :: 0 <= i < |s| && draws[i].roll < rate ==> r[i] == MutateOne(s[i], rate, draws[i])
  {
    seq(|s|, i requires 0 <= i < |s| => MutateOne(s[i], rate, draws[i]))
  }

  /** Mutation never moves an assignment to another activity. */
  lemma {:induction false} MutationKeepsAlignment(s: seq<Assignment>, rate: real, draws: seq<MutationDraw>)
    requires Aligned(s) && |draws| == |s|
    ensures Aligned(Mutated(s, rate, draws))
  {
  }

  /** With a rate of 0 no roll of random.random() is below it, so mutation
      leaves the schedule as crossover made it. */
  lemma {:induction false} ZeroRateKeepsSchedule(s: seq<Assignment>, draws: seq<MutationDraw>)
    requires |draws| == |s|
    requires forall i :: 0 <= i < |draws| ==> UnitDraw(draws[i].roll)
    ensures Mutated(s, 0.0, draws) == s
  {
  }

  /** With a rate of 1 every roll of random.random() is below it, so every
      assignment gets its chosen field redrawn, and keeps its other two. */
  lemma {:induction false} FullRateRedrawsEveryAssignment(s: seq<Assignment>, draws: seq<MutationDraw>)
    requires |draws| == |s|
    requires forall i :: 0 <= i < |draws| ==> UnitDraw(draws[i].roll)
    ensures forall i :: 0 <= i < |s| && draws[i].field == RoomField ==>
      Mutated(s, 1.0, draws)[i] == s[i].(room := draws[i].room)
    ensures forall i :: 0 <= i < |s| && draws[i].field == SlotField ==>
      Mutated(s, 1.0, draws)[i] == s[i].(slot := draws[i].slot)
    ensures forall i :: 0 <= i < |s| && draws[i].field == FacilitatorField ==>
      Mutated(s, 1.0, draws)[i] == s[i].(facilitator := draws[i].facilitator)
  {
  }
}
