/** The fitness of a schedule (Schedule.fitness in main.py) as pure
    functions: the score is a plain sum of rule-based terms, each defined
    here over the list of assignments, with the properties each rule
    promises stated as contracts and lemmas. The loop-based evaluation
    that builds the same score step by step is in module Evaluation. */
module Scoring {
  import opened Sums
  import opened Catalog
  import opened Sorting

  // ---------------------------------------------------------------------
  // Filters and counts over a list of assignments (schedule order kept)
  // ---------------------------------------------------------------------

  /** The assignments held in slot t. */
  function InSlot(s: seq<Assignment>, t: int): (g: seq<Assignment>)
    ensures |g| <= |s|
    ensures forall x :: x in g ==> x.slot == t
  {
    if s == [] then []
    else InSlot(s[..|s| - 1], t) + if s[|s| - 1].slot == t then [s[|s| - 1]] else []
  }

  /** The assignments held in room r. */
  function InRoom(s: seq<Assignment>, r: Room): (g: seq<Assignment>)
    ensures |g| <= |s|
    ensures forall x :: x in g ==> x.room == r
  {
    if s == [] then []
    else InRoom(s[..|s| - 1], r) + if s[|s| - 1].room == r then [s[|s| - 1]] else []
  }

  /** The facilitator of each assignment. */
  function FacilitatorsOf(s: seq<Assignment>): (fs: seq<Facilitator>)
    ensures |fs| == |s|
  {
    if s == [] then [] else FacilitatorsOf(s[..|s| - 1]) + [s[|s| - 1].facilitator]
  }

  /** How many assignments of s facilitator f holds. */
  function Load(s: seq<Assignment>, f: Facilitator): nat {
    multiset(FacilitatorsOf(s))[f]
  }

  // ---------------------------------------------------------------------
  // Per-assignment terms: room size and facilitator preference
  // ---------------------------------------------------------------------

  /** The room-size term: the four tests are made in order, and for a
      non-negative enrollment they split the capacities into four bands. */
  function RoomSizeTerm(capacity: nat, enrollment: nat): (r: real)
    ensures r == -0.5 <==> capacity < enrollment
    ensures r == -0.4 <==> capacity > 6 * enrollment
    ensures r == -0.2 <==> 3 * enrollment < capacity <= 6 * enrollment
    ensures r == 0.3 <==> enrollment <= capacity <= 3 * enrollment
  {
    if capacity < enrollment then -0.5
    else if capacity > 6 * enrollment then -0.4
    else if capacity > 3 * enrollment then -0.2
    else 0.3
  }

  /** The preference term: a preferred facilitator wins even when the
      facilitator is also listed among the other ones. */
  function PreferenceTerm(a: Activity, f: Facilitator): (r: real)
    ensures r == 0.5 <==> f in a.preferred
    ensures r == 0.2 <==> f !in a.preferred && f in a.other
    ensures r == -0.1 <==> f !in a.preferred && f !in a.other
  {
    if f in a.preferred then 0.5
    else if f in a.other then 0.2
    else -0.1
  }

  function AssignmentTerm(x: Assignment): real {
    RoomSizeTerm(Capacity(x.room), x.activity.enrollment) + PreferenceTerm(x.activity, x.facilitator)
  }

  /** The sum of the per-assignment terms. Every assignment adds one
      room-size term and one preference term, so each adds between
      -0.5 - 0.1 and 0.3 + 0.5. */
  function ActivityScore(s: seq<Assignment>): (r: real)
    ensures -0.6 * (|s| as real) <= r <= 0.8 * (|s| as real)
  {
    if s == [] then 0.0
    else ActivityScore(s[..|s| - 1]) + AssignmentTerm(s[|s| - 1])
  }

  // ---------------------------------------------------------------------
  // Per-slot terms: room double-booking and facilitator double-booking
  // ---------------------------------------------------------------------

  function RoomPenalty(g: seq<Assignment>): Room -> real {
    r => if |InRoom(g, r)| > 1 then -0.5 else 0.0
  }

  /** The room-conflict part of one slot's group g. */
  function RoomConflictScore(g: seq<Assignment>): real {
    Sum(ROOMS, RoomPenalty(g))
  }

  /** The rooms of g holding two or more assignments. */
  ghost function ConflictRooms(g: seq<Assignment>): set<Room> {
    set r | r in ROOMS && |InRoom(g, r)| > 1
  }

  function FacilitatorSlotTerm(g: seq<Assignment>): Facilitator -> real {
    f => var n := Load(g, f); if n > 1 then -0.2 else if n == 1 then 0.2 else 0.0
  }

  /** The facilitator part of one slot's group g. */
  function FacilitatorSlotScore(g: seq<Assignment>): real {
    Sum(FACILITATORS, FacilitatorSlotTerm(g))
  }

  ghost function SinglyBooked(g: seq<Assignment>): set<Facilitator> {
    set f | f in FACILITATORS && Load(g, f) == 1
  }

  ghost function DoublyBooked(g: seq<Assignment>): set<Facilitator> {
    set f | f in FACILITATORS && Load(g, f) > 1
  }

  function SlotTerm(s: seq<Assignment>): Slot -> real {
    t => RoomConflictScore(InSlot(s, t)) + FacilitatorSlotScore(InSlot(s, t))
  }

  /** The per-slot terms summed over all slots. */
  function SlotScore(s: seq<Assignment>): real {
    Sum(SLOTS, SlotTerm(s))
  }

  // ---------------------------------------------------------------------
  // Facilitator load over the whole schedule
  // ---------------------------------------------------------------------

  /** The load term of facilitator f teaching n activities. */
  function LoadTerm(f: Facilitator, n: nat): (r: real)
    ensures r == -0.5 <==> n > 4
    ensures r == -0.4 <==> (n == 1 || n == 2) && f != LOAD_EXEMPT
    ensures r == 0.0 <==> n == 0 || n == 3 || n == 4 || ((n == 1 || n == 2) && f == LOAD_EXEMPT)
  {
    if n > 4 then -0.5
    else if n == 1 || n == 2 then (if f != LOAD_EXEMPT then -0.4 else 0.0)
    else 0.0
  }

  function LoadPenalty(s: seq<Assignment>): Facilitator -> real {
    f => LoadTerm(f, Load(s, f))
  }

  /** The load terms of every facilitator of the catalog. */
  function LoadScore(s: seq<Assignment>): real {
    Sum(FACILITATORS, LoadPenalty(s))
  }

  // ---------------------------------------------------------------------
  // Lecture groups: SLA101 and SLA191 sections
  // ---------------------------------------------------------------------

  datatype LectureGroup = SLA101 | SLA191 | Ungrouped

  /** The group an activity name falls in: names starting with "SLA101"
      first, then names starting with "SLA191". No name starts with both,
      so the order of the two tests does not matter. */
  function GroupOf(name: string): (grp: LectureGroup)
    ensures grp == SLA101 <==> "SLA101" <= name
    ensures grp == SLA191 <==> "SLA191" <= name
    ensures grp == Ungrouped <==> !("SLA101" <= name) && !("SLA191" <= name)
  {
    if "SLA101" <= name then
      assert name[4] == '0';
      SLA101
    else if "SLA191" <= name then SLA191
    else Ungrouped
  }

  /** The sections of group grp, in schedule order. */
  function Sections(s: seq<Assignment>, grp: LectureGroup): (sec: seq<Assignment>)
    ensures |sec| <= |s|
  {
    if s == [] then []
    else
      var n := |s| - 1;
      Sections(s[..n], grp) + if GroupOf(s[n].activity.name) == grp then [s[n]] else []
  }

  function Distance(a: int, b: int): nat {
    if a < b then b - a else a - b
  }

  /** The spacing term of one lecture group. It applies only when the group
      has exactly two sections; the same slot costs 0.5, and more than four
      slots apart, which with six slots means the first and the last slot,
      earns 0.5. */
  function SpacingTerm(sec: seq<Assignment>): (r: real)
    ensures |sec| != 2 ==> r == 0.0
    ensures |sec| == 2 ==> (r == -0.5 <==> sec[0].slot == sec[1].slot)
    ensures |sec| == 2 ==> (r == 0.5 <==> {sec[0].slot, sec[1].slot} == {0, 5})
    ensures |sec| == 2 ==> (r == 0.0 <==> sec[0].slot != sec[1].slot && {sec[0].slot, sec[1].slot} != {0, 5})
  {
    if |sec| == 2 then
      if sec[0].slot == sec[1].slot then -0.5
      else if Distance(sec[0].slot, sec[1].slot) > 4 then
        assert {sec[0].slot, sec[1].slot} == {0, 5};
        0.5
      else
        assert 0 in {sec[0].slot, sec[1].slot} ==> 5 !in {sec[0].slot, sec[1].slot};
        0.0
    else 0.0
  }

  // ---------------------------------------------------------------------
  // Proximity of SLA101 and SLA191 sections
  // ---------------------------------------------------------------------

  /** A value the program compares in `x in [...]`: a room name, or a whole
      assignment record. */
  datatype Value = Name(name: string) | Record(assignment: Assignment)

  /** The specific room names as the list the proximity rule searches. */
  const SPECIFIC_ROOM_NAMES: seq<Value> :=
    [Name("Roman 216"), Name("Roman 201"), Name("Beach 201"), Name("Beach 301")]

  /** The proximity term of one (SLA101 section a, SLA191 section b) pair.
      The room test has two disjuncts: the first asks whether a's room is a
      specific room and b's is not; the second looks for the whole record b
      (and a) among the room names, which never holds, so the 0.4 penalty
      is charged only in the first direction. */
  function ProximityTerm(a: Assignment, b: Assignment): (r: real)
    ensures Distance(a.slot, b.slot) == 1 ==>
      r == if InSpecific(a.room) && !InSpecific(b.room) then 0.1 else 0.5
    ensures Distance(a.slot, b.slot) == 2 ==> r == 0.25
    ensures a.slot == b.slot ==> r == -0.25
    ensures Distance(a.slot, b.slot) > 2 ==> r == 0.0
  {
    if Distance(a.slot, b.slot) == 1 then
      0.5 + if (InSpecific(a.room) && !InSpecific(b.room))
               || (Record(b) in SPECIFIC_ROOM_NAMES && Record(a) !in SPECIFIC_ROOM_NAMES)
            then -0.4 else 0.0
    else if Distance(a.slot, b.slot) == 2 then 0.25
    else if a.slot == b.slot then -0.25
    else 0.0
  }

  function ProximityFrom(a: Assignment): Assignment -> real {
    b => ProximityTerm(a, b)
  }

  function ProximityRow(bs: seq<Assignment>): Assignment -> real {
    a => Sum(bs, ProximityFrom(a))
  }

  /** The proximity terms of every (SLA101, SLA191) pair. */
  function CrossScore(sla101: seq<Assignment>, sla191: seq<Assignment>): real {
    Sum(sla101, ProximityRow(sla191))
  }

  // ---------------------------------------------------------------------
  // Consecutive slots of one facilitator
  // ---------------------------------------------------------------------

  /** The slot of each of f's assignments, in schedule order. */
  function SlotsOf(s: seq<Assignment>, f: Facilitator): seq<int> {
    if s == [] then []
    else
      var n := |s| - 1;
      SlotsOf(s[..n], f) + if s[n].facilitator == f then [s[n].slot] else []
  }

  /** f's assignments whose slot is lo or hi, in schedule order. */
  function InSlotPair(s: seq<Assignment>, f: Facilitator, lo: int, hi: int): (acts: seq<Assignment>)
    ensures forall x :: x in acts ==> x.facilitator == f && x.slot in [lo, hi]
    ensures forall x :: x in s && x.facilitator == f && x.slot in [lo, hi] ==> x in acts
  {
    if s == [] then []
    else
      var x := s[|s| - 1];
      InSlotPair(s[..|s| - 1], f, lo, hi) + if x.facilitator == f && x.slot in [lo, hi] then [x] else []
  }

  /** The term of one adjacent pair (lo, hi) of f's sorted slot list: 0.5
      when the slots are consecutive, less 0.4 when exactly two of f's
      assignments fall in those slots and exactly one of their two rooms is
      a specific room. */
  function AdjacentTerm(s: seq<Assignment>, f: Facilitator, lo: int, hi: int): (r: real)
    ensures hi - lo != 1 ==> r == 0.0
    ensures hi - lo == 1 ==> r == 0.1 || r == 0.5
    ensures r == 0.1 <==>
      (hi - lo == 1 && |InSlotPair(s, f, lo, hi)| == 2
       && InSpecific(InSlotPair(s, f, lo, hi)[0].room) != InSpecific(InSlotPair(s, f, lo, hi)[1].room))
  {
    if hi - lo == 1 then
      var acts := InSlotPair(s, f, lo, hi);
      0.5 + if |acts| == 2 && ((InSpecific(acts[0].room) && !InSpecific(acts[1].room))
                               || (InSpecific(acts[1].room) && !InSpecific(acts[0].room)))
            then -0.4 else 0.0
    else 0.0
  }

  /** The adjacent-pair terms along the list L. */
  function ChainScore(s: seq<Assignment>, f: Facilitator, L: seq<int>): real {
    if |L| < 2 then 0.0
    else ChainScore(s, f, L[..|L| - 1]) + AdjacentTerm(s, f, L[|L| - 2], L[|L| - 1])
  }

  function ConsecutiveTerm(s: seq<Assignment>): Facilitator -> real {
    f => ChainScore(s, f, Sort(SlotsOf(s, f)))
  }

  /** The consecutive-slot terms of every facilitator. */
  function ConsecutiveScore(s: seq<Assignment>): real {
    Sum(FACILITATORS, ConsecutiveTerm(s))
  }

  // ---------------------------------------------------------------------
  // The whole score
  // ---------------------------------------------------------------------

  /** The fitness of the schedule s. */
  function Fitness(s: seq<Assignment>): real {
    ActivityScore(s) + SlotScore(s) + LoadScore(s)
    + SpacingTerm(Sections(s, SLA101)) + SpacingTerm(Sections(s, SLA191))
    + CrossScore(Sections(s, SLA101), Sections(s, SLA191))
    + ConsecutiveScore(s)
  }
}
