/** The loop-based evaluation of Schedule.fitness, pass by pass as the
    program makes them: one pass over the assignments, one over the slot
    groups, one over the facilitator loads, the two spacing checks, the
    nested loops over the two lecture groups, and the pass over every
    facilitator's slots. A dictionary is a duplicate-free key list plus a
    map, in an order the model leaves open; each pass is proved to add exactly
    the matching part of Scoring.Fitness. */
module Evaluation {
  import opened Sums
  import opened Catalog
  import opened Sorting
  import opened Scoring

  /** The value of key k in a dictionary of lists, the empty list when k is absent. */
  function Get<K, V>(m: map<K, seq<V>>, k: K): seq<V> {
    if k in m then m[k] else []
  }

  /** The keys of a dictionary listed once each; iterating the dictionary
      visits this list. */
  ghost predicate KeyOrder<K(!new), V>(order: seq<K>, m: map<K, V>) {
    NoDup(order) && forall k :: k in order <==> k in m
  }

  /** `if k not in m: m[k] = []` followed by `m[k].append(v)`, with the
      key list kept alongside. */
  lemma {:induction false} AppendStep<K(!new), V>(order: seq<K>, m: map<K, seq<V>>, k: K, v: V, order': seq<K>, m': map<K, seq<V>>)
    requires KeyOrder(order, m)
    requires order' == if k in m then order else order + [k]
    requires m' == (if k in m then m else m[k := []])[k := (if k in m then m else m[k := []])[k] + [v]]
    ensures KeyOrder(order', m')
    ensures forall k' :: Get(m', k') == Get(m, k') + if k' == k then [v] else []
  {
    if k !in m {
      assert forall j :: 0 <= j < |order| ==> order[j] != k;
    }
  }

  // ---------------------------------------------------------------------
  // Pass 1: per-assignment terms, slot groups, loads and lecture sections
  // ---------------------------------------------------------------------

  /** A dictionary from slot to the assignments held in it, with its key
      list: each slot maps to the assignments of s it holds,
      in schedule order, and a slot holding none is not a key. */
  ghost predicate GroupedBySlot(s: seq<Assignment>, order: seq<Slot>, bySlot: map<Slot, seq<Assignment>>) {
    KeyOrder(order, bySlot) && forall t: Slot :: Get(bySlot, t) == InSlot(s, t)
  }

  /** How the filters of the model grow when one more assignment is read. */
  lemma {:induction false} ActivityStep(s: seq<Assignment>, i: nat)
    requires i < |s|
    ensures ActivityScore(s[..i + 1]) == ActivityScore(s[..i]) + AssignmentTerm(s[i])
  {
    assert s[..i + 1][..i] == s[..i];
  }

  lemma {:induction false} InSlotStepAt(s: seq<Assignment>, i: nat, t: int)
    requires i < |s|
    ensures InSlot(s[..i + 1], t) == InSlot(s[..i], t) + if s[i].slot == t then [s[i]] else []
  {
    assert s[..i + 1][..i] == s[..i];
  }

  lemma {:induction false} LoadStep(s: seq<Assignment>, i: nat)
    requires i < |s|
    ensures forall f :: Load(s[..i + 1], f) == Load(s[..i], f) + if s[i].facilitator == f then 1 else 0
  {
    assert s[..i + 1][..i] == s[..i];
    assert FacilitatorsOf(s[..i + 1]) == FacilitatorsOf(s[..i]) + [s[i].facilitator];
  }

  /** Counting s[i] for its facilitator keeps the load dictionary exact. */
  lemma {:induction false} LoadMapStep(s: seq<Assignment>, i: nat, load: map<Facilitator, nat>, load': map<Facilitator, nat>)
    requires i < |s| && forall f :: f in load && load[f] == Load(s[..i], f)
    requires load' == load[s[i].facilitator := load[s[i].facilitator] + 1]
    ensures forall f :: f in load' && load'[f] == Load(s[..i + 1], f)
  {
    LoadStep(s, i);
  }

  lemma {:induction false} SectionsStep(s: seq<Assignment>, i: nat, grp: LectureGroup)
    requires i < |s|
    ensures GroupOf(s[i].activity.name) == grp ==> Sections(s[..i + 1], grp) == Sections(s[..i], grp) + [s[i]]
    ensures GroupOf(s[i].activity.name) != grp ==> Sections(s[..i + 1], grp) == Sections(s[..i], grp)
  {
    assert s[..i + 1][..i] == s[..i];
  }

  /** The fitness of one assignment on its own: the room-size test and the
      facilitator-preference test, each a chain of exclusive cases. */
  method AssignmentFitness(x: Assignment) returns (activityFitness: real)
    ensures activityFitness == RoomSizeTerm(Capacity(x.room), x.activity.enrollment)
                             + PreferenceTerm(x.activity, x.facilitator)
  {
    activityFitness := 0.0;
    var capacity := Capacity(x.room);
    if capacity < x.activity.enrollment {
      activityFitness := activityFitness - 0.5;
    } else if capacity > 6 * x.activity.enrollment {
      activityFitness := activityFitness - 0.4;
    } else if capacity > 3 * x.activity.enrollment {
      activityFitness := activityFitness - 0.2;
    } else {
      activityFitness := activityFitness + 0.3;
    }
    assert activityFitness == RoomSizeTerm(capacity, x.activity.enrollment);

    if x.facilitator in x.activity.preferred {
      activityFitness := activityFitness + 0.5;
    } else if x.facilitator in x.activity.other {
      activityFitness := activityFitness + 0.2;
    } else {
      activityFitness := activityFitness - 0.1;
    }
  }

  /** Filing assignment s[i] under its slot keeps the slot dictionary exact. */
  lemma {:induction false} GroupedStep(s: seq<Assignment>, i: nat, order: seq<Slot>, bySlot: map<Slot, seq<Assignment>>,
                    order': seq<Slot>, bySlot': map<Slot, seq<Assignment>>)
    requires i < |s| && GroupedBySlot(s[..i], order, bySlot)
    requires order' == if s[i].slot in bySlot then order else order + [s[i].slot]
    requires bySlot' == (if s[i].slot in bySlot then bySlot else bySlot[s[i].slot := []])
                        [s[i].slot := (if s[i].slot in bySlot then bySlot else bySlot[s[i].slot := []])[s[i].slot] + [s[i]]]
    ensures GroupedBySlot(s[..i + 1], order', bySlot')
  {
    AppendStep(order, bySlot, s[i].slot, s[i], order', bySlot');
    forall t: Slot ensures Get(bySlot', t) == InSlot(s[..i + 1], t) {
      InSlotStepAt(s, i, t);
    }
  }

  /** The first loop of the evaluation: it adds each assignment's room-size
      and preference terms to the score, groups the assignments by slot,
      counts each facilitator's load and collects the SLA101 and SLA191
      sections. */
  method ScanAssignments(s: seq<Assignment>)
    returns (score: real, slotOrder: seq<Slot>, bySlot: map<Slot, seq<Assignment>>,
             load: map<Facilitator, nat>, sla101: seq<Assignment>, sla191: seq<Assignment>)
    ensures score == ActivityScore(s)
    ensures GroupedBySlot(s, slotOrder, bySlot)
    ensures forall f :: f in load && load[f] == Load(s, f)
    ensures sla101 == Sections(s, SLA101) && sla191 == Sections(s, SLA191)
  {
    score := 0.0;
    slotOrder, bySlot := [], map[];
    load := map f | f in FACILITATORS :: 0;
    assert forall f :: f in load by { CatalogsComplete(); }
    sla101, sla191 := [], [];
    assert s[..0] == [];
    for i := 0 to |s|
      invariant score == ActivityScore(s[..i])
      invariant GroupedBySlot(s[..i], slotOrder, bySlot)
      invariant forall f :: f in load && load[f] == Load(s[..i], f)
      invariant sla101 == Sections(s[..i], SLA101) && sla191 == Sections(s[..i], SLA191)
    {
      var x := s[i];
      ghost var order0, bySlot0 := slotOrder, bySlot;
      if x.slot !in bySlot {
        slotOrder := slotOrder + [x.slot];
        bySlot := bySlot[x.slot := []];
      }
      bySlot := bySlot[x.slot := bySlot[x.slot] + [x]];
      GroupedStep(s, i, order0, bySlot0, slotOrder, bySlot);

      var activityFitness := AssignmentFitness(x);

      ghost var load0 := load;
      load := load[x.facilitator := load[x.facilitator] + 1];
      LoadMapStep(s, i, load0, load);

      if "SLA101" <= x.activity.name {
        sla101 := sla101 + [x];
      } else if "SLA191" <= x.activity.name {
        sla191 := sla191 + [x];
      }
      SectionsStep(s, i, SLA101);
      SectionsStep(s, i, SLA191);

      score := score + activityFitness;
      ActivityStep(s, i);
    }
    assert s[..|s|] == s;
  }

  // ---------------------------------------------------------------------
  // Pass 2: room and facilitator double-booking within each slot
  // ---------------------------------------------------------------------

  /** A dictionary from room to the assignments of g held in it, with its
      key list. */
  ghost predicate GroupedByRoom(g: seq<Assignment>, order: seq<Room>, byRoom: map<Room, seq<Assignment>>) {
    KeyOrder(order, byRoom) && forall r :: Get(byRoom, r) == InRoom(g, r)
  }

  lemma {:induction false} InRoomStepAt(g: seq<Assignment>, j: nat, r: Room)
    requires j < |g|
    ensures InRoom(g[..j + 1], r) == InRoom(g[..j], r) + if g[j].room == r then [g[j]] else []
  {
    assert g[..j + 1][..j] == g[..j];
  }

  /** Filing g[j] under its room keeps the room dictionary exact. */
  lemma {:induction false} RoomStep(g: seq<Assignment>, j: nat, order: seq<Room>, byRoom: map<Room, seq<Assignment>>,
                 order': seq<Room>, byRoom': map<Room, seq<Assignment>>)
    requires j < |g| && GroupedByRoom(g[..j], order, byRoom)
    requires order' == if g[j].room in byRoom then order else order + [g[j].room]
    requires byRoom' == (if g[j].room in byRoom then byRoom else byRoom[g[j].room := []])
                        [g[j].room := (if g[j].room in byRoom then byRoom else byRoom[g[j].room := []])[g[j].room] + [g[j]]]
    ensures GroupedByRoom(g[..j + 1], order', byRoom')
  {
    AppendStep(order, byRoom, g[j].room, g[j], order', byRoom');
    forall r ensures Get(byRoom', r) == InRoom(g[..j + 1], r) {
      InRoomStepAt(g, j, r);
    }
  }

  /** Recording slot t for the facilitator of g[j] extends that
      facilitator's slot list by exactly the slot of g[j]. */
  lemma {:induction false} FacilitatorStep(g: seq<Assignment>, j: nat, t: Slot, base: map<Facilitator, seq<int>>,
                        order: seq<Facilitator>, fts: map<Facilitator, seq<int>>,
                        order': seq<Facilitator>, fts': map<Facilitator, seq<int>>)
    requires j < |g| && g[j].slot == t
    requires KeyOrder(order, fts) && forall f :: Get(fts, f) == Get(base, f) + SlotsOf(g[..j], f)
    requires order' == if g[j].facilitator in fts then order else order + [g[j].facilitator]
    requires fts' == (if g[j].facilitator in fts then fts else fts[g[j].facilitator := []])
                     [g[j].facilitator := (if g[j].facilitator in fts then fts else fts[g[j].facilitator := []])[g[j].facilitator] + [t]]
    ensures KeyOrder(order', fts') && forall f :: Get(fts', f) == Get(base, f) + SlotsOf(g[..j + 1], f)
  {
    AppendStep(order, fts, g[j].facilitator, t, order', fts');
    SlotListStep(g, j, t, base, fts, fts');
  }

  lemma {:induction false} SlotListStep(g: seq<Assignment>, j: nat, t: Slot, base: map<Facilitator, seq<int>>,
                     fts: map<Facilitator, seq<int>>, fts': map<Facilitator, seq<int>>)
    requires j < |g| && g[j].slot == t
    requires forall f :: Get(fts, f) == Get(base, f) + SlotsOf(g[..j], f)
    requires forall f :: Get(fts', f) == Get(fts, f) + if f == g[j].facilitator then [t] else []
    ensures forall f :: Get(fts', f) == Get(base, f) + SlotsOf(g[..j + 1], f)
  {
    forall f ensures Get(fts', f) == Get(base, f) + SlotsOf(g[..j + 1], f) {
      SlotsOfStepAt(g, j, f);
      if f == g[j].facilitator {
        AppendAssoc(Get(base, f), SlotsOf(g[..j], f), [t]);
      }
    }
  }

  lemma {:induction false} AppendAssoc<T>(a: seq<T>, b: seq<T>, c: seq<T>)
    ensures (a + b) + c == a + (b + c)
  {
  }

  lemma {:induction false} SlotsOfStepAt(g: seq<Assignment>, j: nat, f: Facilitator)
    requires j < |g|
    ensures SlotsOf(g[..j + 1], f) == SlotsOf(g[..j], f) + if g[j].facilitator == f then [g[j].slot] else []
  {
    assert g[..j + 1][..j] == g[..j];
  }

  /** The inner loop over the assignments g of slot t: each is filed under
      its room, and t is recorded once more for its facilitator. */
  method GroupSlot(g: seq<Assignment>, t: Slot, facOrder: seq<Facilitator>, fts: map<Facilitator, seq<int>>)
    returns (roomOrder: seq<Room>, byRoom: map<Room, seq<Assignment>>,
             facOrder': seq<Facilitator>, fts': map<Facilitator, seq<int>>)
    requires KeyOrder(facOrder, fts)
    requires forall x :: x in g ==> x.slot == t
    ensures GroupedByRoom(g, roomOrder, byRoom)
    ensures KeyOrder(facOrder', fts')
    ensures forall f :: Get(fts', f) == Get(fts, f) + SlotsOf(g, f)
  {
    roomOrder, byRoom := [], map[];
    facOrder', fts' := facOrder, fts;
    assert g[..0] == [];
    for j := 0 to |g|
      invariant GroupedByRoom(g[..j], roomOrder, byRoom)
      invariant KeyOrder(facOrder', fts') && forall f :: Get(fts', f) == Get(fts, f) + SlotsOf(g[..j], f)
    {
      var x := g[j];
      assert x in g;
      ghost var facOrder0, fts0 := facOrder', fts';
      if x.facilitator !in fts' {
        facOrder' := facOrder' + [x.facilitator];
        fts' := fts'[x.facilitator := []];
      }
      fts' := fts'[x.facilitator := fts'[x.facilitator] + [t]];
      FacilitatorStep(g, j, t, fts, facOrder0, fts0, facOrder', fts');

      ghost var roomOrder0, byRoom0 := roomOrder, byRoom;
      if x.room !in byRoom {
        roomOrder := roomOrder + [x.room];
        byRoom := byRoom[x.room := []];
      }
      byRoom := byRoom[x.room := byRoom[x.room] + [x]];
      RoomStep(g, j, roomOrder0, byRoom0, roomOrder, byRoom);
    }
    assert g[..|g|] == g;
  }

  /** The loop over the room dictionary of one slot: 0.5 off for every room
      holding two or more assignments. */
  method RoomConflicts(g: seq<Assignment>, roomOrder: seq<Room>, byRoom: map<Room, seq<Assignment>>)
    returns (delta: real)
    requires GroupedByRoom(g, roomOrder, byRoom)
    ensures delta == RoomConflictScore(g)
  {
    delta := 0.0;
    for k := 0 to |roomOrder|
      invariant delta == Sum(roomOrder[..k], RoomPenalty(g))
    {
      var r := roomOrder[k];
      assert Get(byRoom, r) == byRoom[r];
      if |byRoom[r]| > 1 {
        delta := delta - 0.5;
      }
      assert roomOrder[..k + 1][..k] == roomOrder[..k];
    }
    assert roomOrder[..|roomOrder|] == roomOrder;
    CatalogsComplete();
    SumSupport(roomOrder, ROOMS, RoomPenalty(g));
  }

  /** The loop over the distinct facilitators of one slot, taken from a set
      in an order the model does not fix: 0.2 off for a facilitator booked
      more than once, 0.2 more for one booked exactly once. */
  method FacilitatorBookings(g: seq<Assignment>) returns (delta: real)
    ensures delta == FacilitatorSlotScore(g)
  {
    delta := 0.0;
    var facilitatorsInSlot := FacilitatorsOf(g);
    var uniqueFacilitators := set f | f in facilitatorsInSlot;
    var remaining := uniqueFacilitators;
    ghost var visited: seq<Facilitator> := [];
    while remaining != {}
      invariant remaining <= uniqueFacilitators
      invariant NoDup(visited)
      invariant forall f :: f in visited <==> f in uniqueFacilitators && f !in remaining
      invariant delta == Sum(visited, FacilitatorSlotTerm(g))
      decreases |remaining|
    {
      var f :| f in remaining;
      var count := multiset(facilitatorsInSlot)[f];
      if count > 1 {
        delta := delta - 0.2;
      } else if count == 1 {
        delta := delta + 0.2;
      }
      VisitStep(visited, f, FacilitatorSlotTerm(g));
      remaining := remaining - {f};
      visited := visited + [f];
    }
    VisitedAll(g, visited);
  }

  /** Visiting one more key extends a duplicate-free visit and its sum. */
  lemma {:induction false} VisitStep<K>(visited: seq<K>, k: K, f: K -> real)
    requires NoDup(visited) && k !in visited
    ensures NoDup(visited + [k])
    ensures Sum(visited + [k], f) == Sum(visited, f) + f(k)
  {
    SumSnoc(visited, k, f);
  }

  /** Visiting each facilitator of a slot once sums the same bookings term as
      the whole catalog does. */
  lemma {:induction false} VisitedAll(g: seq<Assignment>, visited: seq<Facilitator>)
    requires NoDup(visited)
    requires forall f :: f in visited <==> f in FacilitatorsOf(g)
    ensures Sum(visited, FacilitatorSlotTerm(g)) == FacilitatorSlotScore(g)
  {
    CatalogsComplete();
    forall f | f !in visited ensures FacilitatorSlotTerm(g)(f) == 0.0 {
      assert f !in FacilitatorsOf(g);
    }
    SumSupport(visited, FACILITATORS, FacilitatorSlotTerm(g));
  }

  /** One slot's share of the evaluation: the assignments g of slot t are
      grouped by room while each one's slot is recorded for its facilitator;
      then come the room conflicts and the facilitator bookings of the slot. */
  method ScoreSlot(g: seq<Assignment>, t: Slot, facOrder: seq<Facilitator>, fts: map<Facilitator, seq<int>>)
    returns (delta: real, facOrder': seq<Facilitator>, fts': map<Facilitator, seq<int>>)
    requires KeyOrder(facOrder, fts)
    requires forall x :: x in g ==> x.slot == t
    ensures delta == RoomConflictScore(g) + FacilitatorSlotScore(g)
    ensures KeyOrder(facOrder', fts')
    ensures forall f :: Get(fts', f) == Get(fts, f) + SlotsOf(g, f)
  {
    var roomOrder, byRoom;
    roomOrder, byRoom, facOrder', fts' := GroupSlot(g, t, facOrder, fts);
    var roomDelta := RoomConflicts(g, roomOrder, byRoom);
    var facilitatorDelta := FacilitatorBookings(g);
    delta := roomDelta + facilitatorDelta;
  }

  /** The assignments of a list that all sit in slot t are exactly its
      slot-t assignments. */
  lemma {:induction false} InSlotOfOneSlot(g: seq<Assignment>, t: Slot, u: int)
    requires forall x :: x in g ==> x.slot == t
    ensures InSlot(g, u) == if u == t then g else []
  {
    if g != [] {
      var n := |g| - 1;
      assert forall x :: x in g[..n] ==> x in g;
      assert g[n] in g;
      InSlotOfOneSlot(g[..n], t, u);
      assert g == g[..n] + [g[n]];
    }
  }

  /** How often slot u occurs among f's slots is how many of f's
      assignments sit in slot u. */
  lemma {:induction false} SlotCount(s: seq<Assignment>, f: Facilitator, u: int)
    ensures multiset(SlotsOf(s, f))[u] == Load(InSlot(s, u), f)
  {
    if s != [] {
      SlotCount(s[..|s| - 1], f, u);
      SlotsOfLast(s, f, u);
      InSlotLast(s, f, u);
    }
  }

  /** The last assignment adds one occurrence of slot u to f's slots when
      it is f's and held in u. */
  lemma {:induction false} SlotsOfLast(s: seq<Assignment>, f: Facilitator, u: int)
    requires s != []
    ensures var x := s[|s| - 1];
      multiset(SlotsOf(s, f))[u]
      == multiset(SlotsOf(s[..|s| - 1], f))[u] + if x.slot == u && x.facilitator == f then 1 else 0
  {
    var x := s[|s| - 1];
    var added := if x.facilitator == f then [x.slot] else [];
    assert multiset(SlotsOf(s, f)) == multiset(SlotsOf(s[..|s| - 1], f)) + multiset(added);
  }

  /** The last assignment adds one to f's load in slot u when it is f's
      and held in u. */
  lemma {:induction false} InSlotLast(s: seq<Assignment>, f: Facilitator, u: int)
    requires s != []
    ensures var x := s[|s| - 1];
      Load(InSlot(s, u), f)
      == Load(InSlot(s[..|s| - 1], u), f) + if x.slot == u && x.facilitator == f then 1 else 0
  {
    var x := s[|s| - 1];
    if x.slot == u {
      assert InSlot(s, u) == InSlot(s[..|s| - 1], u) + [x];
      LoadSnoc(InSlot(s[..|s| - 1], u), x, f);
    } else {
      assert InSlot(s, u) == InSlot(s[..|s| - 1], u);
    }
  }

  lemma {:induction false} LoadSnoc(a: seq<Assignment>, x: Assignment, f: Facilitator)
    ensures Load(a + [x], f) == Load(a, f) + if x.facilitator == f then 1 else 0
  {
    assert (a + [x])[..|a|] == a;
    assert FacilitatorsOf(a + [x]) == FacilitatorsOf(a) + [x.facilitator];
  }

  /** A slot with no assignments adds nothing. */
  lemma EmptySlot()
    ensures RoomConflictScore([]) == 0.0 && FacilitatorSlotScore([]) == 0.0
  {
    SumZero(ROOMS, RoomPenalty([]));
    SumZero(FACILITATORS, FacilitatorSlotTerm([]));
  }

  /** After slot t is processed, every facilitator's recorded slots count
      slot t as often as the facilitator is booked in it. */
  lemma {:induction false} CountStep(s: seq<Assignment>, slotOrder: seq<Slot>, k: nat,
                  fts: map<Facilitator, seq<int>>, fts': map<Facilitator, seq<int>>)
    requires k < |slotOrder| && slotOrder[k] !in slotOrder[..k]
    requires forall f, u :: multiset(Get(fts, f))[u] == Recorded(s, slotOrder[..k], f, u)
    requires forall f :: Get(fts', f) == Get(fts, f) + SlotsOf(InSlot(s, slotOrder[k]), f)
    ensures forall f, u :: multiset(Get(fts', f))[u] == Recorded(s, slotOrder[..k + 1], f, u)
  {
    var done, t := slotOrder[..k], slotOrder[k];
    assert slotOrder[..k + 1] == done + [t];
    forall f, u ensures multiset(Get(fts', f))[u] == Recorded(s, done + [t], f, u) {
      var g := InSlot(s, t);
      var a, b := Get(fts, f), SlotsOf(g, f);
      assert Get(fts', f) == a + b;
      assert multiset(a + b)[u] == multiset(a)[u] + multiset(b)[u];
      SlotCount(g, f, u);
      InSlotOfOneSlot(g, t, u);
      assert u in done + [t] <==> u in done || u == t;
    }
  }

  /** How often slot u should occur among f's recorded slots once the
      slots in done are processed. */
  ghost function Recorded(s: seq<Assignment>, done: seq<Slot>, f: Facilitator, u: int): nat {
    if u in done then Load(InSlot(s, u), f) else 0
  }

  /** The loop over the slot dictionary: each slot's room conflicts and
      facilitator bookings, and each facilitator's slots recorded in the
      dictionary `facilitator_time_slots` and its key list. */
  method ScoreSlots(s: seq<Assignment>, slotOrder: seq<Slot>, bySlot: map<Slot, seq<Assignment>>)
    returns (delta: real, facOrder: seq<Facilitator>, fts: map<Facilitator, seq<int>>)
    requires GroupedBySlot(s, slotOrder, bySlot)
    ensures delta == SlotScore(s)
    ensures KeyOrder(facOrder, fts)
    ensures forall f :: multiset(Get(fts, f)) == multiset(SlotsOf(s, f))
  {
    delta := 0.0;
    facOrder, fts := [], map[];
    for k := 0 to |slotOrder|
      invariant delta == Sum(slotOrder[..k], SlotTerm(s))
      invariant KeyOrder(facOrder, fts)
      invariant forall f, u :: multiset(Get(fts, f))[u] == Recorded(s, slotOrder[..k], f, u)
    {
      var t := slotOrder[k];
      NextSlot(s, slotOrder, bySlot, k);
      ghost var fts0 := fts;
      var d;
      d, facOrder, fts := ScoreSlot(bySlot[t], t, facOrder, fts);
      delta := delta + d;
      SumStep(slotOrder, k, SlotTerm(s));
      CountStep(s, slotOrder, k, fts0, fts);
    }
    assert slotOrder[..|slotOrder|] == slotOrder;
    SlotsCovered(s, slotOrder, bySlot);
    AllRecorded(s, slotOrder, bySlot, fts);
  }

  /** The k-th key of the slot dictionary is new and maps to that slot's assignments. */
  lemma {:induction false} NextSlot(s: seq<Assignment>, slotOrder: seq<Slot>, bySlot: map<Slot, seq<Assignment>>, k: nat)
    requires GroupedBySlot(s, slotOrder, bySlot) && k < |slotOrder|
    ensures slotOrder[k] in bySlot && bySlot[slotOrder[k]] == InSlot(s, slotOrder[k])
    ensures slotOrder[k] !in slotOrder[..k]
    ensures forall x :: x in bySlot[slotOrder[k]] ==> x.slot == slotOrder[k]
  {
    assert Get(bySlot, slotOrder[k]) == InSlot(s, slotOrder[k]);
    assert forall j :: 0 <= j < k ==> slotOrder[j] != slotOrder[k];
  }

  /** Summing the slot terms over the slot dictionary's keys is summing
      them over all slots. */
  lemma {:induction false} SlotsCovered(s: seq<Assignment>, slotOrder: seq<Slot>, bySlot: map<Slot, seq<Assignment>>)
    requires GroupedBySlot(s, slotOrder, bySlot)
    ensures Sum(slotOrder, SlotTerm(s)) == SlotScore(s)
  {
    CatalogsComplete();
    EmptySlot();
    forall t: Slot | t !in slotOrder ensures SlotTerm(s)(t) == 0.0 {
      assert InSlot(s, t) == Get(bySlot, t) == [];
    }
    SumSupport(slotOrder, SLOTS, SlotTerm(s));
  }

  /** Once every key of the slot dictionary is processed, each
      facilitator's recorded slots are a rearrangement of the slots of the
      facilitator's assignments. */
  lemma {:induction false} AllRecorded(s: seq<Assignment>, slotOrder: seq<Slot>, bySlot: map<Slot, seq<Assignment>>,
                    fts: map<Facilitator, seq<int>>)
    requires GroupedBySlot(s, slotOrder, bySlot)
    requires forall f, u :: multiset(Get(fts, f))[u] == Recorded(s, slotOrder, f, u)
    ensures forall f :: multiset(Get(fts, f)) == multiset(SlotsOf(s, f))
  {
    forall f ensures multiset(Get(fts, f)) == multiset(SlotsOf(s, f)) {
      forall u ensures multiset(Get(fts, f))[u] == multiset(SlotsOf(s, f))[u] {
        SlotCount(s, f, u);
        if u !in slotOrder {
          var g := InSlot(s, u);
          if g != [] {
            assert g[0] in g;
            assert Get(bySlot, g[0].slot) == g;
          }
        }
      }
    }
  }

  // ---------------------------------------------------------------------
  // Pass 3: facilitator load
  // ---------------------------------------------------------------------

  /** The loop over the load dictionary, whose keys are the catalog's
      facilitators in catalog order: 0.5 off for more than four
      assignments, 0.4 off for one or two unless the facilitator is the
      exempt one. */
  method LoadPenalties(s: seq<Assignment>, load: map<Facilitator, nat>) returns (delta: real)
    requires forall f :: f in load && load[f] == Load(s, f)
    ensures delta == LoadScore(s)
  {
    delta := 0.0;
    for k := 0 to |FACILITATORS|
      invariant delta == Sum(FACILITATORS[..k], LoadPenalty(s))
    {
      var f := FACILITATORS[k];
      var n := load[f];
      ghost var before := delta;
      if n > 4 {
        delta := delta - 0.5;
      } else if n == 1 || n == 2 {
        if f != LOAD_EXEMPT {
          delta := delta - 0.4;
        }
      }
      assert delta == before + LoadTerm(f, n);
      assert LoadPenalty(s)(f) == LoadTerm(f, n);
      SumStep(FACILITATORS, k, LoadPenalty(s));
    }
    assert FACILITATORS[..|FACILITATORS|] == FACILITATORS;
  }

  // ---------------------------------------------------------------------
  // Pass 4: spacing of the sections of one lecture group
  // ---------------------------------------------------------------------

  /** The spacing check of one lecture group's section list. */
  method SpacingAdjustment(sections: seq<Assignment>) returns (delta: real)
    ensures delta == SpacingTerm(sections)
  {
    delta := 0.0;
    if |sections| == 2 {
      if sections[0].slot == sections[1].slot {
        delta := delta - 0.5;
      } else if Distance(sections[0].slot, sections[1].slot) > 4 {
        delta := delta + 0.5;
      }
    }
  }

  // ---------------------------------------------------------------------
  // Pass 5: proximity of SLA101 and SLA191 sections
  // ---------------------------------------------------------------------

  /** The proximity check of one (SLA101, SLA191) pair, with the room test's
      second disjunct comparing the whole records to the room names. */
  method PairProximity(a: Assignment, b: Assignment) returns (delta: real)
    ensures delta == ProximityTerm(a, b)
  {
    delta := 0.0;
    if Distance(a.slot, b.slot) == 1 {
      delta := delta + 0.5;
      if (InSpecific(a.room) && !InSpecific(b.room))
         || (Record(b) in SPECIFIC_ROOM_NAMES && Record(a) !in SPECIFIC_ROOM_NAMES)
      {
        delta := delta - 0.4;
      }
    } else if Distance(a.slot, b.slot) == 2 {
      delta := delta + 0.25;
    } else if a.slot == b.slot {
      delta := delta - 0.25;
    }
  }

  /** The nested loops over both section lists, entered only when neither
      list is empty. */
  method ProximityAdjustment(sla101: seq<Assignment>, sla191: seq<Assignment>) returns (delta: real)
    ensures delta == CrossScore(sla101, sla191)
  {
    delta := 0.0;
    if |sla101| > 0 && |sla191| > 0 {
      for i := 0 to |sla101|
        invariant delta == Sum(sla101[..i], ProximityRow(sla191))
      {
        var a := sla101[i];
        ghost var before := delta;
        for j := 0 to |sla191|
          invariant delta == before + Sum(sla191[..j], ProximityFrom(a))
        {
          var d := PairProximity(a, sla191[j]);
          delta := delta + d;
          assert sla191[..j + 1][..j] == sla191[..j];
        }
        assert sla191[..|sla191|] == sla191;
        assert sla101[..i + 1][..i] == sla101[..i];
      }
      assert sla101[..|sla101|] == sla101;
    } else if sla191 == [] {
      SumZero(sla101, ProximityRow(sla191));
    }
  }

  // ---------------------------------------------------------------------
  // Pass 6: consecutive slots of each facilitator
  // ---------------------------------------------------------------------

  /** The check of one adjacent pair (lo, hi) of a facilitator's sorted
      slot list, filtering the whole schedule for the facilitator's
      assignments in those two slots. */
  method AdjacentAdjustment(s: seq<Assignment>, f: Facilitator, lo: int, hi: int) returns (delta: real)
    ensures delta == AdjacentTerm(s, f, lo, hi)
  {
    delta := 0.0;
    if hi - lo == 1 {
      delta := delta + 0.5;
      var acts := InSlotPair(s, f, lo, hi);
      if |acts| == 2 {
        var room1, room2 := acts[0].room, acts[1].room;
        if (InSpecific(room1) && !InSpecific(room2)) || (InSpecific(room2) && !InSpecific(room1)) {
          delta := delta - 0.4;
        }
      }
    }
  }

  /** The loop over the adjacent pairs of the sorted slot list L. */
  method ChainBonus(s: seq<Assignment>, f: Facilitator, L: seq<int>) returns (delta: real)
    ensures delta == ChainScore(s, f, L)
  {
    delta := 0.0;
    var i := 0;
    while i < |L| - 1
      invariant 0 <= i && (L == [] || i < |L|)
      invariant L == [] ==> delta == 0.0
      invariant L != [] ==> delta == ChainScore(s, f, L[..i + 1])
    {
      var d := AdjacentAdjustment(s, f, L[i], L[i + 1]);
      delta := delta + d;
      assert L[..i + 2][..i + 1] == L[..i + 1];
      i := i + 1;
    }
    if L != [] {
      assert L[..i + 1] == L;
    }
  }

  /** The loop over the facilitator-to-slots dictionary: each
      facilitator's recorded slots are sorted and scanned for adjacent
      pairs. */
  method ConsecutiveBonus(s: seq<Assignment>, facOrder: seq<Facilitator>, fts: map<Facilitator, seq<int>>)
    returns (delta: real)
    requires KeyOrder(facOrder, fts)
    requires forall f :: multiset(Get(fts, f)) == multiset(SlotsOf(s, f))
    ensures delta == ConsecutiveScore(s)
  {
    delta := 0.0;
    for k := 0 to |facOrder|
      invariant delta == Sum(facOrder[..k], ConsecutiveTerm(s))
    {
      var f := facOrder[k];
      RecordedSlots(s, facOrder, fts, k);
      var d := FacilitatorChain(s, f, fts[f]);
      delta := AddTerm(s, facOrder, k, delta, d);
    }
    assert facOrder[..|facOrder|] == facOrder;
    FacilitatorsCovered(s, facOrder, fts);
  }

  lemma {:induction false} SumStep<K>(keys: seq<K>, k: nat, f: K -> real)
    requires k < |keys|
    ensures Sum(keys[..k + 1], f) == Sum(keys[..k], f) + f(keys[k])
  {
    assert keys[..k + 1][..k] == keys[..k];
  }

  /** The k-th key of the facilitator dictionary holds the facilitator's
      slots in some order. */
  lemma {:induction false} RecordedSlots(s: seq<Assignment>, facOrder: seq<Facilitator>, fts: map<Facilitator, seq<int>>, k: nat)
    requires KeyOrder(facOrder, fts) && k < |facOrder|
    requires forall f :: multiset(Get(fts, f)) == multiset(SlotsOf(s, f))
    ensures facOrder[k] in fts && multiset(fts[facOrder[k]]) == multiset(SlotsOf(s, facOrder[k]))
  {
    assert Get(fts, facOrder[k]) == fts[facOrder[k]];
  }

  /** One facilitator's share: the recorded slots are sorted, then their
      adjacent pairs are scanned. Sorting depends only on which slots were
      recorded, not on the order the slot dictionary recorded them in. */
  method FacilitatorChain(s: seq<Assignment>, f: Facilitator, recorded: seq<int>) returns (delta: real)
    requires multiset(recorded) == multiset(SlotsOf(s, f))
    ensures delta == ConsecutiveTerm(s)(f)
  {
    var timeSlots := Sort(recorded);
    SortPermutation(recorded, SlotsOf(s, f));
    delta := ChainBonus(s, f, timeSlots);
  }

  /** Adding the k-th facilitator's term to the running total. */
  function AddTerm(s: seq<Assignment>, facOrder: seq<Facilitator>, k: nat, before: real, d: real): (after: real)
    requires k < |facOrder|
    requires before == Sum(facOrder[..k], ConsecutiveTerm(s))
    requires d == ConsecutiveTerm(s)(facOrder[k])
    ensures after == Sum(facOrder[..k + 1], ConsecutiveTerm(s))
  {
    SumStep(facOrder, k, ConsecutiveTerm(s));
    before + d
  }

  /** A facilitator with no recorded slots teaches nothing and adds no
      consecutive-slot term, so summing over the dictionary's keys is
      summing over the catalog. */
  lemma {:induction false} FacilitatorsCovered(s: seq<Assignment>, facOrder: seq<Facilitator>, fts: map<Facilitator, seq<int>>)
    requires KeyOrder(facOrder, fts)
    requires forall f :: multiset(Get(fts, f)) == multiset(SlotsOf(s, f))
    ensures Sum(facOrder, ConsecutiveTerm(s)) == ConsecutiveScore(s)
  {
    CatalogsComplete();
    forall f | f !in facOrder ensures ConsecutiveTerm(s)(f) == 0.0 {
      assert multiset(SlotsOf(s, f)) == multiset{};
      assert SlotsOf(s, f) == [];
    }
    SumSupport(facOrder, FACILITATORS, ConsecutiveTerm(s));
  }
}
