/** What the fitness rules promise, proved about the functions of module
    Scoring: how room and facilitator double-booking are charged, that every
    assignment is counted in exactly one facilitator's load, that the
    consecutive-slot rule over a slot list with repeats agrees with the rule
    over the sorted set of distinct slots and how large it can be, which
    sections the catalog puts in the two lecture groups, and how the whole
    score of a catalog schedule breaks down. */
module FitnessProperties {
  import opened Sums
  import opened Catalog
  import opened Sorting
  import opened Scoring

  // ---------------------------------------------------------------------
  // Room double-booking
  // ---------------------------------------------------------------------

  /** Within one slot, the score drops by 0.5 once for every room holding
      two or more assignments, however many share it. */
  lemma {:induction false} RoomConflictPerRoom(g: seq<Assignment>)
    ensures RoomConflictScore(g) == -0.5 * (|ConflictRooms(g)| as real)
  {
    CatalogsComplete();
    var P := (r: Room) => |InRoom(g, r)| > 1;
    SumOfIndicator(ROOMS, RoomPenalty(g), P, -0.5);
    CountIs(ROOMS, P, ConflictRooms(g));
  }

  /** Any number (two or more) of assignments sharing one room in one slot
      cost 0.5 together, not 0.5 per extra booking. */
  lemma {:induction false} OneChargePerSharedRoom(g: seq<Assignment>, r: Room)
    requires |g| >= 2
    requires forall x :: x in g ==> x.room == r
    ensures RoomConflictScore(g) == -0.5
  {
    AllInOneRoom(g, r);
    CatalogsComplete();
    assert ConflictRooms(g) == {r};
    RoomConflictPerRoom(g);
  }

  lemma {:induction false} AllInOneRoom(g: seq<Assignment>, r: Room)
    requires forall x :: x in g ==> x.room == r
    ensures |InRoom(g, r)| == |g|
    ensures forall r' :: r' != r ==> InRoom(g, r') == []
  {
    if g != [] {
      var n := |g| - 1;
      assert forall x :: x in g[..n] ==> x in g;
      AllInOneRoom(g[..n], r);
      assert g[n] in g;
      forall r' | r' != r ensures InRoom(g, r') == [] {
      }
    }
  }

  // ---------------------------------------------------------------------
  // Facilitator double-booking within a slot
  // ---------------------------------------------------------------------

  /** Within one slot, each facilitator booked exactly once adds 0.2 and
      each facilitator booked more than once takes 0.2 away; facilitators
      not booked in the slot add nothing. */
  lemma {:induction false} FacilitatorSlotCounts(g: seq<Assignment>)
    ensures FacilitatorSlotScore(g)
         == 0.2 * (|SinglyBooked(g)| as real) - 0.2 * (|DoublyBooked(g)| as real)
  {
    SumAdd(FACILITATORS, BookedOnce(g), BookedMore(g), FacilitatorSlotTerm(g));
    BookedOnceSum(g);
    BookedMoreSum(g);
  }

  function BookedOnce(g: seq<Assignment>): Facilitator -> real {
    f => if Load(g, f) == 1 then 0.2 else 0.0
  }

  function BookedMore(g: seq<Assignment>): Facilitator -> real {
    f => if Load(g, f) > 1 then -0.2 else 0.0
  }

  lemma {:induction false} BookedOnceSum(g: seq<Assignment>)
    ensures Sum(FACILITATORS, BookedOnce(g)) == 0.2 * (|SinglyBooked(g)| as real)
  {
    CatalogsComplete();
    IndicatorSum(FACILITATORS, BookedOnce(g), (f: Facilitator) => Load(g, f) == 1, 0.2, SinglyBooked(g));
  }

  lemma {:induction false} BookedMoreSum(g: seq<Assignment>)
    ensures Sum(FACILITATORS, BookedMore(g)) == -0.2 * (|DoublyBooked(g)| as real)
  {
    CatalogsComplete();
    IndicatorSum(FACILITATORS, BookedMore(g), (f: Facilitator) => Load(g, f) > 1, -0.2, DoublyBooked(g));
  }

  // ---------------------------------------------------------------------
  // Facilitator load
  // ---------------------------------------------------------------------

  function LoadAsReal(s: seq<Assignment>): Facilitator -> real {
    f => Load(s, f) as real
  }

  /** Every assignment is counted in exactly one facilitator's load, so the
      loads of the catalog's facilitators add up to the schedule's length. */
  lemma {:induction false} LoadsCoverSchedule(s: seq<Assignment>)
    ensures Sum(FACILITATORS, LoadAsReal(s)) == |s| as real
  {
    if s == [] {
      SumZero(FACILITATORS, LoadAsReal(s));
    } else {
      var n := |s| - 1;
      LoadsCoverSchedule(s[..n]);
      LoadSumStep(s);
    }
  }

  /** Booking one more assignment adds exactly one to the facilitators' total load. */
  lemma {:induction false} LoadSumStep(s: seq<Assignment>)
    requires s != []
    ensures Sum(FACILITATORS, LoadAsReal(s)) == Sum(FACILITATORS, LoadAsReal(s[..|s| - 1])) + 1.0
  {
    var y := s[|s| - 1].facilitator;
    var one := (f: Facilitator) => if f == y then 1.0 else 0.0;
    OneHotSum(y, one);
    LoadSplit(FACILITATORS, s, one);
  }

  lemma {:induction false} LoadSplit(keys: seq<Facilitator>, s: seq<Assignment>, one: Facilitator -> real)
    requires s != []
    requires forall f :: one(f) == if f == s[|s| - 1].facilitator then 1.0 else 0.0
    ensures Sum(keys, LoadAsReal(s)) == Sum(keys, LoadAsReal(s[..|s| - 1])) + Sum(keys, one)
  {
    LoadStep(s);
    SumAdd(keys, LoadAsReal(s[..|s| - 1]), one, LoadAsReal(s));
  }

  /** A term that is 1 on one facilitator and 0 on the others sums to 1. */
  lemma {:induction false} OneHotSum(y: Facilitator, one: Facilitator -> real)
    requires forall f :: one(f) == if f == y then 1.0 else 0.0
    ensures Sum(FACILITATORS, one) == 1.0
  {
    CatalogsComplete();
    var P := (f: Facilitator) => f == y;
    SumOfIndicator(FACILITATORS, one, P, 1.0);
    CountIs(FACILITATORS, P, {y});
  }

  lemma {:induction false} LoadStep(s: seq<Assignment>)
    requires s != []
    ensures forall f :: Load(s, f) == Load(s[..|s| - 1], f) + if f == s[|s| - 1].facilitator then 1 else 0
  {
    assert FacilitatorsOf(s) == FacilitatorsOf(s[..|s| - 1]) + [s[|s| - 1].facilitator];
  }

  // ---------------------------------------------------------------------
  // Consecutive slots of one facilitator
  // ---------------------------------------------------------------------

  /** Repeated slots in a facilitator's list score nothing: collapsing every
      run of equal neighbours leaves the consecutive-slot score unchanged. */
  lemma {:induction false} ChainIgnoresRepeats(s: seq<Assignment>, f: Facilitator, L: seq<int>)
    ensures ChainScore(s, f, Collapse(L)) == ChainScore(s, f, L)
    decreases |L|
  {
    if |L| >= 2 {
      var n := |L| - 1;
      ChainIgnoresRepeats(s, f, L[..n]);
      assert L[..n][..n - 1] == L[..n - 1];
      var c := Collapse(L[..n]);
      if L[n] != L[n - 1] {
        ChainSnoc(s, f, c, L[n]);
      }
    }
  }

  /** Appending one slot to a non-empty list adds the term of its last pair. */
  lemma {:induction false} ChainSnoc(s: seq<Assignment>, f: Facilitator, c: seq<int>, x: int)
    requires |c| >= 1
    ensures ChainScore(s, f, c + [x]) == ChainScore(s, f, c) + AdjacentTerm(s, f, c[|c| - 1], x)
  {
    var d := c + [x];
    assert d[..|d| - 1] == c;
  }

  /** The consecutive-slot rule, applied by the program to the sorted list
      of a facilitator's slots with repeats kept, gives the same score as
      the rule applied to the sorted set of the distinct slots the
      facilitator teaches in. */
  lemma {:induction false} ConsecutiveOverDistinctSlots(s: seq<Assignment>, f: Facilitator)
    ensures var distinct := Collapse(Sort(SlotsOf(s, f)));
      && StrictlyAscending(distinct)
      && (forall t :: t in distinct <==> t in SlotsOf(s, f))
      && ConsecutiveTerm(s)(f) == ChainScore(s, f, distinct)
  {
    var sorted := Sort(SlotsOf(s, f));
    ChainIgnoresRepeats(s, f, sorted);
    CollapseStrict(sorted);
    CollapseMembers(sorted);
    forall t ensures t in sorted <==> t in SlotsOf(s, f) {
      assert t in sorted <==> t in multiset(sorted);
      assert t in SlotsOf(s, f) <==> t in multiset(SlotsOf(s, f));
    }
  }

  /** The activities the rule inspects for a slot pair are taken from the
      schedule, each no more often than the schedule holds it. */
  lemma {:induction false} SlotPairFromSchedule(s: seq<Assignment>, f: Facilitator, lo: int, hi: int)
    ensures multiset(InSlotPair(s, f, lo, hi)) <= multiset(s)
  {
    if s != [] {
      var n := |s| - 1;
      assert s == s[..n] + [s[n]];
      SlotPairFromSchedule(s[..n], f, lo, hi);
    }
  }

  /** The activities the rule inspects for the pair (lo, hi) are all of the
      facilitator's assignments in those two slots, so the 0.4 penalty can
      apply only when the facilitator holds exactly two assignments there. */
  lemma {:induction false} SlotPairCount(s: seq<Assignment>, f: Facilitator, lo: int, hi: int)
    requires lo != hi
    ensures |InSlotPair(s, f, lo, hi)| == multiset(SlotsOf(s, f))[lo] + multiset(SlotsOf(s, f))[hi]
  {
    if s != [] {
      var n := |s| - 1;
      SlotPairCount(s[..n], f, lo, hi);
    }
  }

  // ---------------------------------------------------------------------
  // Lecture groups of the catalog
  // ---------------------------------------------------------------------

  /** The sections of a group are exactly the assignments of the schedule
      in that group, each taken from the schedule. */
  lemma {:induction false} SectionsMembers(s: seq<Assignment>, grp: LectureGroup)
    ensures forall x :: x in Sections(s, grp) ==> x in s && GroupOf(x.activity.name) == grp
    ensures forall x :: x in s && GroupOf(x.activity.name) == grp ==> x in Sections(s, grp)
    ensures multiset(Sections(s, grp)) <= multiset(s)
  {
    if s != [] {
      var n := |s| - 1;
      assert s == s[..n] + [s[n]];
      SectionsMembers(s[..n], grp);
    }
  }

  /** The group of each activity of the catalog: the two SLA101 sections,
      then the two SLA191 sections, then seven ungrouped activities. */
  lemma CatalogGroups()
    ensures forall i :: 0 <= i < 2 ==> GroupOf(ACTIVITIES[i].name) == SLA101
    ensures forall i :: 2 <= i < 4 ==> GroupOf(ACTIVITIES[i].name) == SLA191
    ensures forall i :: 4 <= i < |ACTIVITIES| ==> GroupOf(ACTIVITIES[i].name) == Ungrouped
  {
    assert "SLA101"[3] == '1' && "SLA191"[3] == '1';
    assert "SLA101"[4] == '0' && "SLA191A"[4] == '9' && "SLA191B"[4] == '9';
    forall i | 4 <= i < |ACTIVITIES| ensures GroupOf(ACTIVITIES[i].name) == Ungrouped {
      var name := ACTIVITIES[i].name;
      assert |name| >= 4 && name[3] != '1';
    }
  }

  /** In a schedule of the catalog's activities the SLA101 group is the
      first two assignments and the SLA191 group the next two, so both
      spacing rules always apply. */
  lemma {:induction false} CatalogSections(s: seq<Assignment>)
    requires Aligned(s)
    ensures Sections(s, SLA101) == [s[0], s[1]]
    ensures Sections(s, SLA191) == [s[2], s[3]]
  {
    CatalogGroups();
    SectionsPair(s, SLA101, 0, 1);
    SectionsPair(s, SLA191, 2, 3);
  }

  /** A schedule with no assignment of the group has no sections of it. */
  lemma {:induction false} SectionsNone(s: seq<Assignment>, grp: LectureGroup)
    requires forall k :: 0 <= k < |s| ==> GroupOf(s[k].activity.name) != grp
    ensures Sections(s, grp) == []
  {
    if s != [] {
      SectionsNone(s[..|s| - 1], grp);
    }
  }

  /** A schedule with exactly one assignment of the group, at position i. */
  lemma {:induction false} SectionsSingle(s: seq<Assignment>, grp: LectureGroup, i: nat)
    requires i < |s| && GroupOf(s[i].activity.name) == grp
    requires forall k :: 0 <= k < |s| && k != i ==> GroupOf(s[k].activity.name) != grp
    ensures Sections(s, grp) == [s[i]]
  {
    var n := |s| - 1;
    if n == i {
      SectionsNone(s[..n], grp);
    } else {
      SectionsSingle(s[..n], grp, i);
    }
  }

  /** A schedule with exactly two assignments of the group, at i and then j. */
  lemma {:induction false} SectionsPair(s: seq<Assignment>, grp: LectureGroup, i: nat, j: nat)
    requires i < j < |s|
    requires GroupOf(s[i].activity.name) == grp && GroupOf(s[j].activity.name) == grp
    requires forall k :: 0 <= k < |s| && k != i && k != j ==> GroupOf(s[k].activity.name) != grp
    ensures Sections(s, grp) == [s[i], s[j]]
  {
    var n := |s| - 1;
    if n == j {
      SectionsSingle(s[..n], grp, i);
    } else {
      SectionsPair(s[..n], grp, i, j);
    }
  }

  // ---------------------------------------------------------------------
  // Proximity of the two lecture groups
  // ---------------------------------------------------------------------

  /** Without a section in either group the proximity rule adds nothing,
      so the program's test that both groups are non-empty changes no
      score. */
  lemma {:induction false} CrossScoreWithoutSections(sla101: seq<Assignment>, sla191: seq<Assignment>)
    requires sla101 == [] || sla191 == []
    ensures CrossScore(sla101, sla191) == 0.0
  {
    if sla101 != [] {
      RowsOfNothing(sla101);
    }
  }

  /** Every row of the proximity sum over no SLA191 sections is 0. */
  lemma {:induction false} RowsOfNothing(sla101: seq<Assignment>)
    ensures Sum(sla101, ProximityRow([])) == 0.0
  {
    if sla101 != [] {
      RowsOfNothing(sla101[..|sla101| - 1]);
    }
  }

  // ---------------------------------------------------------------------
  // Size of the consecutive-slot term
  // ---------------------------------------------------------------------

  /** The number of adjacent pairs of L whose slots are consecutive. */
  function ConsecutivePairs(L: seq<int>): (k: nat)
    ensures k <= if |L| < 2 then 0 else |L| - 1
  {
    if |L| < 2 then 0
    else ConsecutivePairs(L[..|L| - 1]) + if L[|L| - 1] - L[|L| - 2] == 1 then 1 else 0
  }

  /** Along a sorted slot list only consecutive pairs score, each between
      0.1 and 0.5, so the consecutive-slot term of a facilitator lies
      between 0.1 and 0.5 times the number of such pairs. */
  lemma {:induction false} ChainScoreBounds(s: seq<Assignment>, f: Facilitator, L: seq<int>)
    ensures 0.1 * ConsecutivePairs(L) as real <= ChainScore(s, f, L) <= 0.5 * ConsecutivePairs(L) as real
    ensures ConsecutivePairs(L) == 0 ==> ChainScore(s, f, L) == 0.0
  {
    if |L| >= 2 {
      ChainScoreBounds(s, f, L[..|L| - 1]);
    }
  }

  // ---------------------------------------------------------------------
  // The whole score
  // ---------------------------------------------------------------------

  /** The fitness of a schedule of the catalog: the activity terms, the
      per-slot terms and the load terms, both spacing rules on the fixed
      section pairs, the proximity rule on the four (SLA101, SLA191) pairs,
      and the consecutive-slot terms. */
  lemma {:induction false} CatalogFitness(s: seq<Assignment>)
    requires Aligned(s)
    ensures Fitness(s) == ActivityScore(s) + SlotScore(s) + LoadScore(s)
      + SpacingTerm([s[0], s[1]]) + SpacingTerm([s[2], s[3]])
      + ProximityTerm(s[0], s[2]) + ProximityTerm(s[0], s[3])
      + ProximityTerm(s[1], s[2]) + ProximityTerm(s[1], s[3])
      + ConsecutiveScore(s)
  {
    CatalogSections(s);
    SumOfTwo(s[0], s[1], ProximityRow([s[2], s[3]]));
    SumOfTwo(s[2], s[3], ProximityFrom(s[0]));
    SumOfTwo(s[2], s[3], ProximityFrom(s[1]));
  }

  lemma {:induction false} SumOfTwo<K>(x: K, y: K, f: K -> real)
    ensures Sum([x, y], f) == f(x) + f(y)
  {
    assert [x, y][..1] == [x];
    assert [x][..0] == [];
    assert Sum([x], f) == f(x);
  }
}
