/**
 * Model of games/routine.py, the routine builder: the four steps of a daily
 * scenario are dragged, one by one and in order, onto four numbered slots;
 * a wrong drop clears the slots and reshuffles the tasks, a full row moves on
 * to the next scenario.
 *
 * A task is known by its index in the task list and a slot by its index in
 * the row. Which slots a dropped task overlaps is an input (one flag per
 * slot), as is each shuffle of the steps. Colours and positions are drawing
 * data and are not modelled.
 */
module Routine {
  import opened Seqs

  datatype Scenario = Scenario(title: string, steps: seq<string>)

  /** The scenario table, in play order. */
  const Scenarios: seq<Scenario> := [
    Scenario("Getting Ready for School", ["Brush Teeth", "Wear Uniform", "Eat Breakfast", "Pack Bag"]),
    Scenario("Going to the Shop", ["Carry Bag", "Take Money", "Buy Product", "Collect Balance"]),
    Scenario("Preparing for Bed", ["Change Clothes", "Brush Teeth", "Read Book", "Sleep"]),
    Scenario("Going to Playground", ["Wear Shoes", "Take Water Bottle", "Go Outside", "Play"]),
    Scenario("Doing Homework", ["Take Books", "Sit at Desk", "Complete Work", "Pack Books"])
  ]

  /** Number of drop slots, which is also the step count that completes a scenario. */
  const SlotCount: nat := 4

  /** The tick appended to a placed step, as the characters appear in the source text. */
  const Tick: string := " ‚úî"

  /** Every scenario has one step per slot, no step twice. */
  lemma ScenariosWellFormed()
    ensures |Scenarios| == 5
    ensures forall k :: 0 <= k < |Scenarios| ==>
      |Scenarios[k].steps| == SlotCount && Distinct(Scenarios[k].steps)
  {
  }

  /** The text of an empty slot: `Step 1` for slot 0, and so on. */
  function StepLabel(i: nat): string
  {
    "Step " + Decimal(i + 1)
  }

  /** The text of a slot holding a correctly placed step. */
  function Placed(name: string): string
  {
    name + Tick
  }

  /** The row of slots after `step` correct drops of `order`. */
  function SlotTexts(order: seq<string>, step: nat): (s: seq<string>)
    requires step <= |order| && step <= SlotCount
    ensures |s| == SlotCount
  {
    seq(SlotCount, i requires 0 <= i < SlotCount => if i < step then Placed(order[i]) else StepLabel(i))
  }

  /** The row as `reset_slots` leaves it: every slot shows its number. */
  function NumberedRow(): seq<string>
  {
    seq(SlotCount, i requires 0 <= i < SlotCount => StepLabel(i))
  }

  /** The row after the last scenario: every slot text cleared. */
  function BlankRow(): seq<string>
  {
    seq(SlotCount, i => "")
  }

  /** Before any drop the row of a scenario is the numbered row. */
  lemma SlotTextsStart(order: seq<string>)
    ensures SlotTexts(order, 0) == NumberedRow()
  {
  }

  /** One more correct drop writes the next step, ticked, into the next slot and nothing else. */
  lemma SlotTextsAdvance(order: seq<string>, step: nat)
    requires step < |order| && step < SlotCount
    ensures SlotTexts(order, step + 1) == SlotTexts(order, step)[step := Placed(order[step])]
    ensures forall i :: 0 <= i < step ==> SlotTexts(order, step + 1)[i] == Placed(order[i])
  {
  }

  /** Numbered labels for `n` slots, as `reset_slots` writes them. */
  method StepLabels(n: nat) returns (labels: seq<string>)
    ensures |labels| == n
    ensures forall i :: 0 <= i < n ==> labels[i] == StepLabel(i)
  {
    labels := [];
    var i := 0;
    while i < n
      invariant 0 <= i <= n && |labels| == i
      invariant forall j :: 0 <= j < i ==> labels[j] == StepLabel(j)
    {
      labels := labels + [StepLabel(i)];
      i := i + 1;
    }
  }

  /** The first slot, in row order, that the dropped task overlaps; none if it overlaps no slot. */
  function FirstHit(collides: seq<bool>): (hit: Option<nat>)
    ensures hit.Some? ==> hit.value < |collides| && collides[hit.value]
    ensures hit.Some? ==> forall j :: 0 <= j < hit.value ==> !collides[j]
    ensures hit.None? <==> forall j :: 0 <= j < |collides| ==> !collides[j]
  {
    if collides == [] then None
    else if collides[0] then Some(0)
    else match FirstHit(collides[1..])
      case None => None
      case Some(j) => Some(j + 1)
  }

  /** The collision loop of `handle_drop`: stop at the first overlapped slot. */
  method FirstColliding(collides: seq<bool>) returns (hit: Option<nat>)
    ensures hit == FirstHit(collides)
  {
    var i := 0;
    while i < |collides|
      invariant 0 <= i <= |collides|
      invariant forall j :: 0 <= j < i ==> !collides[j]
    {
      if collides[i] {
        return Some(i);
      }
      i := i + 1;
    }
    return None;
  }

  /** The task widgets built from a shuffled step list, in list order, all in the tray. */
  method MakeTasks(steps: seq<string>) returns (tasks: seq<string>, inTray: seq<bool>)
    ensures tasks == steps && |inTray| == |steps|
    ensures forall k :: 0 <= k < |inTray| ==> inTray[k]
  {
    tasks, inTray := [], [];
    var i := 0;
    while i < |steps|
      invariant 0 <= i <= |steps|
      invariant tasks == steps[..i] && |inTray| == i
      invariant forall k :: 0 <= k < i ==> inTray[k]
    {
      tasks := tasks + [steps[i]];
      inTray := inTray + [true];
      i := i + 1;
    }
  }

  /** The task list of a scenario: a shuffle of its steps, those already placed out of the tray. */
  predicate Dealt(order: seq<string>, step: nat, tasks: seq<string>, inTray: seq<bool>)
    requires step <= |order|
  {
    |inTray| == |tasks| && multiset(tasks) == multiset(order) &&
    forall k :: 0 <= k < |tasks| ==> (inTray[k] <==> tasks[k] !in order[..step])
  }

  /** While a scenario is in play, the step it waits for is on a task still in the tray. */
  lemma NextStepInTray(order: seq<string>, step: nat, tasks: seq<string>, inTray: seq<bool>) returns (k: nat)
    requires Distinct(order) && step < |order| && Dealt(order, step, tasks, inTray)
    ensures k < |tasks| && inTray[k] && tasks[k] == order[step]
  {
    assert order[step] in multiset(tasks);
    k :| 0 <= k < |tasks| && tasks[k] == order[step];
    assert order[step] !in order[..step];
  }

  /** Placing the awaited step takes exactly its task out of the tray. */
  lemma DealtAdvance(order: seq<string>, step: nat, tasks: seq<string>, inTray: seq<bool>, t: nat)
    requires Distinct(order) && step < |order| && Dealt(order, step, tasks, inTray)
    requires t < |tasks| && tasks[t] == order[step]
    ensures Dealt(order, step + 1, tasks, inTray[t := false])
  {
    assert order[..step + 1] == order[..step] + [order[step]];
    forall k | 0 <= k < |tasks| && k != t && tasks[k] == order[step]
      ensures false
    {
      assert multiset(tasks)[order[step]] >= 2 by {
        assert tasks == tasks[..k] + [tasks[k]] + tasks[k + 1..];
        if k < t {
          assert tasks[k + 1..] == tasks[k + 1..t] + [tasks[t]] + tasks[t + 1..];
        } else {
          assert tasks[..k] == tasks[..t] + [tasks[t]] + tasks[t + 1..k];
        }
      }
      DistinctCountOne(order, order[step]);
      CountMultiset(order, order[step]);
    }
  }

  /** A fresh deal of a scenario puts every task in the tray. */
  lemma DealtFresh(order: seq<string>, tasks: seq<string>, inTray: seq<bool>)
    requires multiset(tasks) == multiset(order) && |inTray| == |tasks|
    requires forall k :: 0 <= k < |inTray| ==> inTray[k]
    ensures Dealt(order, 0, tasks, inTray)
  {
  }

  /** The steps of scenario `k`, in their correct order. */
  function StepsOf(k: nat): seq<string>
    requires k < |Scenarios|
  {
    Scenarios[k].steps
  }

  /** Each scenario's steps fill the slot row exactly, no step twice. */
  lemma StepsOfWellFormed(k: nat)
    requires k < |Scenarios|
    ensures |StepsOf(k)| == SlotCount && Distinct(StepsOf(k))
  {
    ScenariosWellFormed();
  }

  function TitleOf(k: nat): string
    requires k < |Scenarios|
  {
    Scenarios[k].title
  }

  /** `shuffled` is a shuffle of the steps of scenario `k`, when there is one. */
  predicate Shuffles(k: nat, shuffled: seq<string>)
  {
    k < |Scenarios| ==> multiset(shuffled) == multiset(Scenarios[k].steps)
  }

  /** Step `step` of scenario `k` is `name`. */
  predicate Awaits(k: nat, step: nat, name: string)
  {
    k < |Scenarios| && step < |Scenarios[k].steps| && Scenarios[k].steps[step] == name
  }

  /**
   * The slot row after `step` drops in scenario `k`: the placed steps of the
   * scenario in play, ticked, then the numbered labels; once a row is
   * complete `k` has moved on, and after the last scenario the row is blank.
   */
  predicate RowOk(slots: seq<string>, step: nat, k: nat)
  {
    step <= SlotCount && k <= |Scenarios| &&
    (step < SlotCount ==> k < |Scenarios| && slots == SlotTexts(StepsOf(k), step)) &&
    (step == SlotCount ==>
      1 <= k && (slots == SlotTexts(StepsOf(k - 1), SlotCount) || (k == |Scenarios| && slots == BlankRow())))
  }

  /**
   * The tasks: before the first load none; while a scenario is in play a
   * shuffle of its steps with the placed ones out of the tray; once a row is
   * complete, none in the tray.
   */
  predicate TrayOk(tasks: seq<string>, inTray: seq<bool>, step: nat, k: nat)
  {
    |inTray| == |tasks| && step <= SlotCount &&
    (tasks == [] ==> step == 0) &&
    (step < SlotCount && tasks != [] && k < |Scenarios| ==> Dealt(StepsOf(k), step, tasks, inTray)) &&
    (step == SlotCount ==> forall j :: 0 <= j < |inTray| ==> !inTray[j])
  }

  /**
   * A correct drop keeps both invariants: the awaited step is ticked into its
   * slot, its task leaves the tray, and the fourth step moves to the next
   * scenario.
   */
  lemma PlaceStep(slots: seq<string>, tasks: seq<string>, inTray: seq<bool>, step: nat, k: nat, t: nat)
    requires RowOk(slots, step, k) && TrayOk(tasks, inTray, step, k) && step < SlotCount
    requires t < |tasks| && inTray[t] && Awaits(k, step, tasks[t])
    ensures var k' := if step + 1 == SlotCount then k + 1 else k;
      RowOk(slots[step := Placed(tasks[t])], step + 1, k') &&
      TrayOk(tasks, inTray[t := false], step + 1, k')
  {
    var order := StepsOf(k);
    StepsOfWellFormed(k);
    SlotTextsAdvance(order, step);
    DealtAdvance(order, step, tasks, inTray, t);
    if step + 1 == SlotCount {
      AllPlaced(order, tasks, inTray[t := false]);
      assert StepsOf(k + 1 - 1) == order;
    }
  }

  class RoutineGame {
    /** `current_scenario_idx` */
    var scenarioIdx: nat
    /** `current_step_idx`: how many steps of the scenario are placed. */
    var stepIdx: nat
    /** The text of each drop slot. */
    var slots: seq<string>
    /** `self.tasks`, by task name. */
    var tasks: seq<string>
    /** The task is still in the tray (not placed, not cleared away). */
    var inTray: seq<bool>
    /** Text of `scenario_lbl`. */
    var scenarioLabel: string
    /** Text of `feedback_section`. */
    var feedback: string

    ghost predicate SlotsOk()
      reads this`slots, this`stepIdx, this`scenarioIdx
    {
      RowOk(slots, stepIdx, scenarioIdx)
    }

    ghost predicate TasksOk()
      reads this`tasks, this`inTray, this`stepIdx, this`scenarioIdx
    {
      TrayOk(tasks, inTray, stepIdx, scenarioIdx)
    }

    ghost predicate Valid()
      reads this
    {
      SlotsOk() && TasksOk()
    }

    /** `__init__`: the numbered slots, no tasks, the first scenario queued for loading. */
    constructor ()
      ensures Valid() && scenarioIdx == 0 && stepIdx == 0 && tasks == []
      ensures slots == NumberedRow()
    {
      scenarioIdx, stepIdx := 0, 0;
      tasks, inTray := [], [];
      scenarioLabel, feedback := "", "";
      slots := NumberedRow();
    }

    /**
     * `load_current_scenario`: past the last scenario, the completion
     * message and a blank row; otherwise the scenario's title, step 0,
     * numbered slots and a fresh shuffle of its steps.
     */
    method LoadCurrentScenario(shuffled: seq<string>)
      requires Valid()
      requires Shuffles(scenarioIdx, shuffled)
      modifies this`stepIdx, this`slots, this`tasks, this`inTray, this`scenarioLabel, this`feedback
      ensures Valid() && feedback == ""
      ensures scenarioIdx >= |Scenarios| ==>
        scenarioLabel == "All Scenarios Complete üéâ" && slots == BlankRow() &&
        stepIdx == old(stepIdx) && tasks == old(tasks) && forall k :: 0 <= k < |inTray| ==> !inTray[k]
      ensures scenarioIdx < |Scenarios| ==>
        scenarioLabel == "Scenario: " + TitleOf(scenarioIdx) && stepIdx == 0 &&
        slots == NumberedRow() && tasks == shuffled && forall k :: 0 <= k < |inTray| ==> inTray[k]
    {
      if scenarioIdx >= |Scenarios| {
        ShowCompletion();
      } else {
        StartScenario(shuffled);
      }
    }

    /** The completion branch of `load_current_scenario`: the tray and the slot texts are cleared. */
    method ShowCompletion()
      requires Valid() && scenarioIdx >= |Scenarios|
      modifies this`slots, this`inTray, this`scenarioLabel, this`feedback
      ensures Valid() && feedback == "" && scenarioLabel == "All Scenarios Complete üéâ"
      ensures slots == BlankRow() && |inTray| == |tasks| && forall k :: 0 <= k < |inTray| ==> !inTray[k]
    {
      scenarioLabel := "All Scenarios Complete üéâ";
      inTray := seq(|tasks|, k => false);
      slots := BlankRow();
      feedback := "";
    }

    /** The scenario branch of `load_current_scenario`. */
    method StartScenario(shuffled: seq<string>)
      requires Valid() && scenarioIdx < |Scenarios| && Shuffles(scenarioIdx, shuffled)
      modifies this`stepIdx, this`slots, this`tasks, this`inTray, this`scenarioLabel, this`feedback
      ensures Valid() && feedback == "" && scenarioLabel == "Scenario: " + TitleOf(scenarioIdx)
      ensures stepIdx == 0 && slots == NumberedRow() && tasks == shuffled
      ensures forall k :: 0 <= k < |inTray| ==> inTray[k]
    {
      scenarioLabel := "Scenario: " + TitleOf(scenarioIdx);
      stepIdx := 0;
      feedback := "";
      ResetSlots();
      CreateAndShuffleTasks(shuffled);
      SlotTextsStart(StepsOf(scenarioIdx));
      DealtFresh(StepsOf(scenarioIdx), tasks, inTray);
    }

    /** `reset_slots`: every slot shows its number again. */
    method ResetSlots()
      modifies this`slots
      ensures slots == NumberedRow()
    {
      var labels := StepLabels(SlotCount);
      slots := labels;
    }

    /**
     * `create_and_shuffle_tasks`: the tray is emptied and refilled with the
     * scenario's steps in shuffled order; past the last scenario the lookup
     * fails and the tray stays empty.
     */
    method CreateAndShuffleTasks(shuffled: seq<string>)
      requires Shuffles(scenarioIdx, shuffled)
      modifies this`tasks, this`inTray
      ensures scenarioIdx < |Scenarios| ==> tasks == shuffled
      ensures scenarioIdx >= |Scenarios| ==> tasks == []
      ensures |inTray| == |tasks| && forall k :: 0 <= k < |inTray| ==> inTray[k]
    {
      tasks, inTray := [], [];
      if scenarioIdx < |Scenarios| {
        tasks, inTray := MakeTasks(shuffled);
      }
    }

    /**
     * `handle_drop`: a task overlapping no slot goes home; a drop on any
     * slot but the awaited one, or of the wrong step, is a wrong drop; the
     * awaited step on the awaited slot is a correct drop.
     */
    method HandleDrop(t: nat, collides: seq<bool>, shuffled: seq<string>)
      requires Valid() && t < |tasks| && inTray[t] && |collides| == SlotCount
      requires Shuffles(scenarioIdx, shuffled)
      modifies this`stepIdx, this`scenarioIdx, this`slots, this`tasks, this`inTray, this`feedback
      ensures Valid()
      ensures FirstHit(collides).None? ==>
        stepIdx == old(stepIdx) && scenarioIdx == old(scenarioIdx) && slots == old(slots) &&
        tasks == old(tasks) && inTray == old(inTray) && feedback == old(feedback)
      ensures FirstHit(collides).Some? && FirstHit(collides).value == old(stepIdx) &&
              Awaits(old(scenarioIdx), old(stepIdx), old(tasks)[t]) ==>
        stepIdx == old(stepIdx) + 1 && slots == old(slots)[old(stepIdx) := Placed(old(tasks)[t])] &&
        tasks == old(tasks) && inTray == old(inTray)[t := false] &&
        (stepIdx < SlotCount ==> scenarioIdx == old(scenarioIdx) && feedback == "‚úî Correct!") &&
        (stepIdx == SlotCount ==> scenarioIdx == old(scenarioIdx) + 1 && feedback == "üéâ Scenario Complete")
      ensures FirstHit(collides).Some? && !(FirstHit(collides).value == old(stepIdx) &&
              Awaits(old(scenarioIdx), old(stepIdx), old(tasks)[t])) ==>
        stepIdx == 0 && scenarioIdx == old(scenarioIdx) && slots == NumberedRow() &&
        tasks == shuffled && (forall k :: 0 <= k < |inTray| ==> inTray[k]) && feedback == "‚ùå Try Again"
    {
      var hit := FirstColliding(collides);
      if hit.Some? {
        // a drop on another slot and a wrong step on the awaited slot both go to `wrong_drop`
        if hit.value == stepIdx && Awaits(scenarioIdx, stepIdx, tasks[t]) {
          CorrectDrop(t);
        } else {
          WrongDrop(shuffled);
        }
      }
    }

    /**
     * `correct_drop`: the slot shows the step with a tick, the task leaves
     * the tray, and the step count grows; the fourth step completes the
     * scenario and moves to the next one, whose loading is scheduled.
     */
    method CorrectDrop(t: nat)
      requires Valid() && stepIdx < SlotCount && t < |tasks| && inTray[t]
      requires Awaits(scenarioIdx, stepIdx, tasks[t])
      modifies this`stepIdx, this`scenarioIdx, this`slots, this`inTray, this`feedback
      ensures Valid()
      ensures stepIdx == old(stepIdx) + 1 && slots == old(slots)[old(stepIdx) := Placed(tasks[t])]
      ensures inTray == old(inTray)[t := false]
      ensures stepIdx < SlotCount ==> scenarioIdx == old(scenarioIdx) && feedback == "‚úî Correct!"
      ensures stepIdx == SlotCount ==> scenarioIdx == old(scenarioIdx) + 1 && feedback == "üéâ Scenario Complete"
    {
      PlaceStep(slots, tasks, inTray, stepIdx, scenarioIdx, t);
      slots := slots[stepIdx := Placed(tasks[t])];
      inTray := inTray[t := false];
      feedback := "‚úî Correct!";
      stepIdx := stepIdx + 1;
      if stepIdx == SlotCount {
        feedback := "üéâ Scenario Complete";
        scenarioIdx := scenarioIdx + 1;
      }
    }

    /** `wrong_drop`: start the scenario over with a fresh shuffle. */
    method WrongDrop(shuffled: seq<string>)
      requires Valid() && scenarioIdx < |Scenarios|
      requires Shuffles(scenarioIdx, shuffled)
      modifies this`stepIdx, this`slots, this`tasks, this`inTray, this`feedback
      ensures Valid()
      ensures stepIdx == 0 && slots == NumberedRow() && tasks == shuffled
      ensures forall k :: 0 <= k < |inTray| ==> inTray[k]
      ensures feedback == "‚ùå Try Again"
    {
      feedback := "‚ùå Try Again";
      stepIdx := 0;
      ResetSlots();
      CreateAndShuffleTasks(shuffled);
      DealtFresh(StepsOf(scenarioIdx), tasks, inTray);
    }
  }

  /** Once every step is placed, no task is left in the tray. */
  lemma AllPlaced(order: seq<string>, tasks: seq<string>, inTray: seq<bool>)
    requires |order| == SlotCount && Dealt(order, SlotCount, tasks, inTray)
    ensures forall k :: 0 <= k < |inTray| ==> !inTray[k]
  {
    forall k | 0 <= k < |inTray|
      ensures !inTray[k]
    {
      assert tasks[k] in multiset(order);
      assert order[..SlotCount] == order;
    }
  }
}
