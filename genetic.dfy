/** A schedule object of the genetic algorithm: its list of assignments,
    its fitness, and the in-place crossover and mutation loops that turn a
    freshly made schedule into a child of two parents. */
module Genetic {
  import opened Catalog
  import opened Scoring
  import opened Evaluation
  import opened Reproduction

  /** The choices Schedule() draws for one activity. */
  datatype Gene = Gene(room: Room, slot: Slot, facilitator: Facilitator)

  class Schedule {
    var assignments: seq<Assignment>

    /** A new schedule: one assignment per activity of the catalog, in
        catalog order, with the room, slot and facilitator of genes[i]. */
    constructor (genes: seq<Gene>)
      requires |genes| == |ACTIVITIES|
      ensures Aligned(assignments)
      ensures forall i :: 0 <= i < |genes| ==>
        assignments[i].room == genes[i].room && assignments[i].slot == genes[i].slot
        && assignments[i].facilitator == genes[i].facilitator
    {
      var built: seq<Assignment> := [];
      for i := 0 to |ACTIVITIES|
        invariant |built| == i
        invariant forall j :: 0 <= j < i ==> built[j].activity == ACTIVITIES[j]
        invariant forall j :: 0 <= j < i ==>
          built[j].room == genes[j].room && built[j].slot == genes[j].slot
          && built[j].facilitator == genes[j].facilitator
      {
        var g := genes[i];
        built := built + [Assignment(ACTIVITIES[i], g.room, g.slot, g.facilitator)];
      }
      assignments := built;
    }

    /** Schedule.fitness: the passes of the evaluation, one after the other,
        add up to the fitness of the assignments. */
    method Fitness() returns (score: real)
      ensures score == Scoring.Fitness(assignments)
    {
      var s := assignments;
      var slotOrder, bySlot, load, sla101, sla191;
      score, slotOrder, bySlot, load, sla101, sla191 := ScanAssignments(s);
      var slotDelta, facOrder, fts := ScoreSlots(s, slotOrder, bySlot);
      var loadDelta := LoadPenalties(s, load);
      var spacing101 := SpacingAdjustment(sla101);
      var spacing191 := SpacingAdjustment(sla191);
      var cross := ProximityAdjustment(sla101, sla191);
      var consecutive := ConsecutiveBonus(s, facOrder, fts);
      score := score + slotDelta + loadDelta + spacing101 + spacing191 + cross + consecutive;
    }

    /** The crossover loop for one child: position by position, the child's
        assignment is overwritten by a copy of parent1's when the coin is
        below 0.5 and of parent2's otherwise. */
    method InheritFrom(parent1: Schedule, parent2: Schedule, coins: seq<real>)
      requires this != parent1 && this != parent2
      requires |assignments| == |parent1.assignments| == |parent2.assignments| == |coins|
      modifies this
      ensures assignments == Crossed(parent1.assignments, parent2.assignments, coins)
    {
      var n := |assignments|;
      for i := 0 to n
        invariant |assignments| == n
        invariant forall j :: 0 <= j < i ==>
          assignments[j] == Crossed(parent1.assignments, parent2.assignments, coins)[j]
      {
        if coins[i] < 0.5 {
          assignments := assignments[i := parent1.assignments[i]];
        } else {
          assignments := assignments[i := parent2.assignments[i]];
        }
      }
    }

    /** The mutation loop for one child: each assignment whose roll is below
        the rate gets its chosen field redrawn from the catalog. */
    method Mutate(rate: real, draws: seq<MutationDraw>)
      requires |draws| == |assignments|
      modifies this
      ensures assignments == Mutated(old(assignments), rate, draws)
    {
      var n := |assignments|;
      for i := 0 to n
        invariant |assignments| == n
        invariant forall j :: 0 <= j < i ==> assignments[j] == Mutated(old(assignments), rate, draws)[j]
        invariant forall j :: i <= j < n ==> assignments[j] == old(assignments)[j]
      {
        var x := assignments[i];
        var d := draws[i];
        if d.roll < rate {
          if d.field == RoomField {
            x := x.(room := d.room);
          } else if d.field == SlotField {
            x := x.(slot := d.slot);
          } else if d.field == FacilitatorField {
            x := x.(facilitator := d.facilitator);
          }
        }
        assignments := assignments[i := x];
      }
    }
  }

  /** Two children of parent1 and parent2, as one round of the breeding
      loop makes them: two fresh schedules, crossed over with their own
      coins, then mutated with their own draws. */
  method Offspring(parent1: Schedule, parent2: Schedule,
                   genes1: seq<Gene>, genes2: seq<Gene>,
                   coins1: seq<real>, coins2: seq<real>,
                   rate: real, draws1: seq<MutationDraw>, draws2: seq<MutationDraw>)
    returns (child1: Schedule, child2: Schedule)
    requires Aligned(parent1.assignments) && Aligned(parent2.assignments)
    requires |genes1| == |genes2| == |coins1| == |coins2| == |draws1| == |draws2| == |ACTIVITIES|
    ensures fresh(child1) && fresh(child2) && child1 != child2
    ensures child1.assignments == Mutated(Crossed(parent1.assignments, parent2.assignments, coins1), rate, draws1)
    ensures child2.assignments == Mutated(Crossed(parent1.assignments, parent2.assignments, coins2), rate, draws2)
    ensures Aligned(child1.assignments) && Aligned(child2.assignments)
  {
    child1 := new Schedule(genes1);
    child2 := new Schedule(genes2);
    child1.InheritFrom(parent1, parent2, coins1);
    child2.InheritFrom(parent1, parent2, coins2);
    child1.Mutate(rate, draws1);
    child2.Mutate(rate, draws2);
    CrossoverKeepsAlignment(parent1.assignments, parent2.assignments, coins1);
    CrossoverKeepsAlignment(parent1.assignments, parent2.assignments, coins2);
    MutationKeepsAlignment(Crossed(parent1.assignments, parent2.assignments, coins1), rate, draws1);
    MutationKeepsAlignment(Crossed(parent1.assignments, parent2.assignments, coins2), rate, draws2);
  }
}
