/** The static catalogs of the course scheduler: rooms and their capacities,
    the ordered time slots, the facilitators, the activities, and the shape
    of one assignment of an activity to a room, a slot and a facilitator. */
module Catalog {
  import opened Sums

  /** The rooms of ROOMS, in catalog order. */
  datatype Room =
    | Slater003 | Roman216 | Loft206 | Roman201 | Loft310
    | Beach201 | Beach301 | Logos325 | Frank119

  const ROOMS: seq<Room> :=
    [Slater003, Roman216, Loft206, Roman201, Loft310, Beach201, Beach301, Logos325, Frank119]

  /** The seating capacity ROOMS gives each room. */
  function Capacity(r: Room): nat {
    match r
    case Slater003 => 45
    case Roman216 => 30
    case Loft206 => 75
    case Roman201 => 50
    case Loft310 => 108
    case Beach201 => 60
    case Beach301 => 75
    case Logos325 => 450
    case Frank119 => 60
  }

  /** The rooms named in the proximity rules ("Roman 216", "Roman 201",
      "Beach 201", "Beach 301"). */
  const SPECIFIC_ROOMS: seq<Room> := [Roman216, Roman201, Beach201, Beach301]

  predicate InSpecific(r: Room) {
    r in SPECIFIC_ROOMS
  }

  /** The labels of TIME_SLOTS. A slot is represented by its index in this
      list, so the program's TIME_SLOTS.index(label) is the slot itself. */
  const TIME_SLOTS: seq<string> := ["10 AM", "11 AM", "12 PM", "1 PM", "2 PM", "3 PM"]

  type Slot = i: int | 0 <= i < 6

  const SLOTS: seq<Slot> := [0, 1, 2, 3, 4, 5]

  /** The facilitators of FACILITATORS, in catalog order. */
  datatype Facilitator =
    | Lock | Glen | Banks | Richards | Shaw | Singer | Uther | Tyler | Numen | Zeldin

  const FACILITATORS: seq<Facilitator> :=
    [Lock, Glen, Banks, Richards, Shaw, Singer, Uther, Tyler, Numen, Zeldin]

  /** The one facilitator the light-load penalty does not apply to. */
  const LOAD_EXEMPT: Facilitator := Tyler

  /** An activity: its name, its expected enrollment and its two tiers of
      acceptable facilitators. */
  datatype Activity = Activity(
    name: string,
    enrollment: nat,
    preferred: seq<Facilitator>,
    other: seq<Facilitator>)

  const ACTIVITIES: seq<Activity> := [
    Activity("SLA101A", 50, [Glen, Lock, Banks, Zeldin], [Numen, Richards]),
    Activity("SLA101B", 50, [Glen, Lock, Banks, Zeldin], [Numen, Richards]),
    Activity("SLA191A", 50, [Glen, Lock, Banks, Zeldin], [Numen, Richards]),
    Activity("SLA191B", 50, [Glen, Lock, Banks, Zeldin], [Numen, Richards]),
    Activity("SLA201", 50, [Glen, Banks, Zeldin, Shaw], [Numen, Richards, Singer]),
    Activity("SLA291", 50, [Lock, Banks, Zeldin, Singer], [Numen, Richards, Shaw, Tyler]),
    Activity("SLA303", 60, [Glen, Zeldin, Banks], [Numen, Singer, Shaw]),
    Activity("SLA304", 25, [Glen, Banks, Tyler], [Numen, Singer, Shaw, Richards, Uther, Zeldin]),
    Activity("SLA394", 20, [Tyler, Singer], [Richards, Zeldin]),
    Activity("SLA449", 50, [Tyler, Singer, Shaw], [Zeldin, Uther]),
    Activity("SLA451", 100, [Tyler, Singer, Shaw], [Zeldin, Uther, Richards, Banks])
  ]

  /** One gene of a schedule: an activity with its room, slot and facilitator. */
  datatype Assignment = Assignment(
    activity: Activity,
    room: Room,
    slot: Slot,
    facilitator: Facilitator)

  /** The shape every schedule keeps: one assignment per activity, the i-th
      assignment for the i-th activity. */
  predicate Aligned(s: seq<Assignment>) {
    |s| == |ACTIVITIES| && forall i :: 0 <= i < |s| ==> s[i].activity == ACTIVITIES[i]
  }

  /** Every room, slot and facilitator is in its catalog exactly once. */
  lemma CatalogsComplete()
    ensures forall r: Room :: r in ROOMS
    ensures forall t: Slot :: t in SLOTS
    ensures forall f: Facilitator :: f in FACILITATORS
    ensures NoDup(ROOMS) && NoDup(SLOTS) && NoDup(FACILITATORS)
  {
    forall r: Room ensures r in ROOMS {
      match r
      case Slater003 => assert ROOMS[0] == r;
      case Roman216 => assert ROOMS[1] == r;
      case Loft206 => assert ROOMS[2] == r;
      case Roman201 => assert ROOMS[3] == r;
      case Loft310 => assert ROOMS[4] == r;
      case Beach201 => assert ROOMS[5] == r;
      case Beach301 => assert ROOMS[6] == r;
      case Logos325 => assert ROOMS[7] == r;
      case Frank119 => assert ROOMS[8] == r;
    }
    forall t: Slot ensures t in SLOTS {
      assert SLOTS[t] == t;
    }
    forall f: Facilitator ensures f in FACILITATORS {
      match f
      case Lock => assert FACILITATORS[0] == f;
      case Glen => assert FACILITATORS[1] == f;
      case Banks => assert FACILITATORS[2] == f;
      case Richards => assert FACILITATORS[3] == f;
      case Shaw => assert FACILITATORS[4] == f;
      case Singer => assert FACILITATORS[5] == f;
      case Uther => assert FACILITATORS[6] == f;
      case Tyler => assert FACILITATORS[7] == f;
      case Numen => assert FACILITATORS[8] == f;
      case Zeldin => assert FACILITATORS[9] == f;
    }
  }
}
