/** The goal-update editor: the goal-eligible options of the taxonomy grouped by
    flow in a fixed order, the set of selected option ids, and the goal records
    rebuilt from the selected ids when the changes are saved. A JavaScript `Set`
    of ids is the sequence of its members in insertion order. */
module UpdateGoals {
  import opened Common
  import opened Taxonomy
  import FinalSelections

  /** An option as listed in the editor. */
  datatype GoalOption = GoalOption(id: string, name: Option<string>, text: Option<string>)

  /** One flow's section of the editor: its title and its goal-eligible options. */
  datatype FlowGroup = FlowGroup(title: Option<string>, options: seq<GoalOption>)

  /** A goal record as handed to `onUpdateGoals`. */
  datatype Goal = Goal(
    id: string,
    name: Option<string>,
    text: Option<string>,
    smartWatch: bool,             // `smart_watch`
    goalDescription: string,      // `goal_description`
    shortDescription: Option<string>  // `short_description`
  )

  /** The flows the editor shows, in the order it shows them. */
  const FlowOrder: seq<string> :=
    ["physical_health", "mental_health", "medication", "lifestyle", "wellbeing"]

  const FlowTitles: Object<string> := [
    ("physical_health", "Physical Health"),
    ("mental_health", "Mental Health"),
    ("medication", "Medication Management"),
    ("lifestyle", "Lifestyle"),
    ("wellbeing", "Well-being")
  ]

  // ---------------------------------------------------------------------------
  // Options per flow

  function Brief(o: OptionData): GoalOption
  {
    GoalOption(o.id, o.name, o.text)
  }

  /** The goal-eligible options of one step, in option order. */
  function StepGoalOptions(options: seq<OptionData>): seq<GoalOption>
  {
    if options == [] then []
    else
      var o := options[|options| - 1];
      var r := StepGoalOptions(options[..|options| - 1]);
      if o.goalSetting then r + [Brief(o)] else r
  }

  /** A step lists exactly its goal-eligible options. */
  lemma {:induction false} StepGoalOptionsMembers(options: seq<OptionData>)
    ensures forall o :: o in options && o.goalSetting ==> Brief(o) in StepGoalOptions(options)
    ensures forall g :: g in StepGoalOptions(options) ==> exists o :: o in options && o.goalSetting && g == Brief(o)
  {
    if options != [] {
      var o := options[|options| - 1];
      StepGoalOptionsMembers(options[..|options| - 1]);
      assert forall x :: x in options <==> x in options[..|options| - 1] || x == o;
    }
  }

  ghost predicate Offered(steps: seq<Step>, o: OptionData)
  {
    exists s :: s in steps && o in s.options
  }

  /** The goal-eligible options of a flow, step by step and within a step in
      option order. */
  function FlowGoalOptions(steps: seq<Step>): seq<GoalOption>
  {
    if steps == [] then []
    else FlowGoalOptions(steps[..|steps| - 1]) + StepGoalOptions(steps[|steps| - 1].options)
  }

  /** A flow lists exactly the goal-eligible options of its steps. */
  lemma {:induction false} FlowGoalOptionsMembers(steps: seq<Step>)
    ensures forall o :: Offered(steps, o) && o.goalSetting ==> Brief(o) in FlowGoalOptions(steps)
    ensures forall g :: g in FlowGoalOptions(steps) ==> exists o :: Offered(steps, o) && o.goalSetting && g == Brief(o)
  {
    if steps != [] {
      var s := steps[|steps| - 1];
      FlowGoalOptionsMembers(steps[..|steps| - 1]);
      StepGoalOptionsMembers(s.options);
      assert forall t :: t in steps <==> t in steps[..|steps| - 1] || t == s;
    }
  }

  /** The editor's section for the flow with key `key`: none when the taxonomy
      has no such flow or the flow has no goal-eligible option. */
  function Group(flows: seq<Flow>, key: string): (r: Option<FlowGroup>)
    ensures r.Some? <==> key in FlowIds(flows) && FlowGoalOptions(LookupFlow(flows, key).value.steps) != []
    ensures r.Some? ==> r.value.options == FlowGoalOptions(LookupFlow(flows, key).value.steps)
  {
    match LookupFlow(flows, key)
    case None => None
    case Some(flow) =>
      var options := FlowGoalOptions(flow.steps);
      if |options| > 0 then Some(FlowGroup(Get(FlowTitles, key), options)) else None
  }

  /** The `flowOptions` object built by visiting the keys of `order` in turn. */
  function FlowOptionsOf(flows: seq<Flow>, order: seq<string>): Object<FlowGroup>
  {
    if order == [] then []
    else
      var r := FlowOptionsOf(flows, order[..|order| - 1]);
      var key := order[|order| - 1];
      match Group(flows, key)
      case None => r
      case Some(g) => Put(r, key, g)
  }

  /** The keys of `order` that get a section, in order. */
  function ListedKeys(flows: seq<Flow>, order: seq<string>): seq<string>
  {
    if order == [] then []
    else
      var r := ListedKeys(flows, order[..|order| - 1]);
      var key := order[|order| - 1];
      if Group(flows, key).Some? then r + [key] else r
  }

  function Keys<V>(m: Object<V>): (r: seq<string>)
    ensures |r| == |m| && forall i :: 0 <= i < |m| ==> r[i] == m[i].0
  {
    seq(|m|, i requires 0 <= i < |m| => m[i].0)
  }

  /** A section exists exactly for the keys of `order` whose flow exists and
      offers a goal-eligible option, and it holds that flow's options. */
  lemma {:induction false} FlowOptionsContents(flows: seq<Flow>, order: seq<string>)
    ensures forall key :: Get(FlowOptionsOf(flows, order), key) == if key in order then Group(flows, key) else None
  {
    if order != [] {
      var prefix := order[..|order| - 1];
      FlowOptionsContents(flows, prefix);
      assert forall key :: key in order <==> key in prefix || key == order[|order| - 1];
    }
  }

  lemma KeysPutNew<V>(m: Object<V>, k: string, v: V)
    requires Get(m, k).None?
    ensures Keys(Put(m, k, v)) == Keys(m) + [k]
  {
    PutAppends(m, k, v);
    assert Keys(m + [(k, v)]) == Keys(m) + [k];
  }

  /** With the keys of `order` distinct, the sections come in the order of
      `order`. */
  lemma {:induction false} FlowOptionsOrder(flows: seq<Flow>, order: seq<string>)
    requires NoDuplicates(order)
    ensures Keys(FlowOptionsOf(flows, order)) == ListedKeys(flows, order)
  {
    if order != [] {
      var prefix := order[..|order| - 1];
      var key := order[|order| - 1];
      assert NoDuplicates(prefix);
      FlowOptionsOrder(flows, prefix);
      match Group(flows, key)
      case None =>
      case Some(g) =>
        FlowOptionsContents(flows, prefix);
        assert key !in prefix;
        KeysPutNew(FlowOptionsOf(flows, prefix), key, g);
    }
  }

  /** The editor shows at most the five fixed flows, in the fixed order, each with
      at least one option and only goal-eligible ones. */
  lemma EditorSections(flows: seq<Flow>)
    ensures Keys(FlowOptionsOf(flows, FlowOrder)) == ListedKeys(flows, FlowOrder)
    ensures forall key :: Get(FlowOptionsOf(flows, FlowOrder), key) == if key in FlowOrder then Group(flows, key) else None
  {
    FlowOptionsContents(flows, FlowOrder);
    FlowOptionsOrder(flows, FlowOrder);
  }

  // ---------------------------------------------------------------------------
  // The selected ids

  function GoalIds(goals: seq<Goal>): (r: seq<string>)
    ensures forall id :: id in r <==> exists g :: g in goals && g.id == id
  {
    if goals == [] then []
    else
      assert forall g :: g in goals <==> g == goals[0] || g in goals[1..];
      [goals[0].id] + GoalIds(goals[1..])
  }

  /** The selection after `handleToggleOption(id)`: `id` removed when present,
      appended when absent. */
  function Toggled(selected: seq<string>, id: string): (r: seq<string>)
    ensures NoDuplicates(selected) ==> NoDuplicates(r)
    ensures id in r <==> id !in selected
    ensures forall x :: x != id ==> (x in r <==> x in selected)
  {
    if id in selected then Remove(selected, id) else selected + [id]
  }

  lemma {:induction false} RemoveAbsent(xs: seq<string>, x: string)
    requires x !in xs
    ensures Remove(xs, x) == xs
  {
    if xs != [] {
      RemoveAbsent(xs[1..], x);
    }
  }

  lemma {:induction false} RemoveLast(xs: seq<string>, x: string)
    requires x !in xs
    ensures Remove(xs + [x], x) == xs
  {
    if xs == [] {
      assert Remove([x][1..], x) == [];
    } else {
      RemoveLast(xs[1..], x);
      assert (xs + [x])[1..] == xs[1..] + [x];
    }
  }

  /** Toggling the same id twice selects the same ids again; when the id was not
      selected, the selection comes back exactly, order included (a selected id
      toggled off and on moves to the end). */
  lemma ToggleTwice(selected: seq<string>, id: string)
    ensures forall x :: x in Toggled(Toggled(selected, id), id) <==> x in selected
    ensures id !in selected ==> Toggled(Toggled(selected, id), id) == selected
  {
    if id !in selected {
      RemoveLast(selected, id);
    }
  }

  // ---------------------------------------------------------------------------
  // Saving

  /** The goal record for a goal-eligible option: `smart_watch` defaults to
      false, the description falls back to the definition and then to a fixed
      text, the short description falls back to the text. */
  function GoalOf(o: OptionData): (r: Goal)
    ensures r.id == o.id && r.name == o.name && r.text == o.text
    ensures r.smartWatch <==> o.smartWatch == Some(true)
    ensures r.goalDescription != ""
    ensures Truthy(o.goalDescription) ==> r.goalDescription == o.goalDescription.value
    ensures !Truthy(o.goalDescription) && Truthy(o.definition) ==> r.goalDescription == o.definition.value
    ensures !Truthy(o.goalDescription) && !Truthy(o.definition) ==> r.goalDescription == FinalSelections.NoDescription
    ensures r.shortDescription == if Truthy(o.shortDescription) then o.shortDescription else o.text
  {
    Goal(o.id, o.name, o.text, o.smartWatch == Some(true),
         OrElse(o.goalDescription, OrElse(o.definition, FinalSelections.NoDescription)),
         if Truthy(o.shortDescription) then o.shortDescription else o.text)
  }

  /** What one step contributes for `id`: `find` takes the first option with that
      id, and only a goal-eligible one yields a goal. */
  function StepGoal(step: Step, id: string): (r: Option<Goal>)
    ensures r.Some? ==> exists o :: o in step.options && o.id == id && o.goalSetting && r.value == GoalOf(o)
    ensures (forall o :: o in step.options ==> o.id != id) ==> r.None?
    ensures forall k :: 0 <= k < |step.options| && step.options[k].id == id
                        && (forall j :: 0 <= j < k ==> step.options[j].id != id) ==>
      r == if step.options[k].goalSetting then Some(GoalOf(step.options[k])) else None
  {
    var i := OptionIndex(step.options, id);
    if i >= 0 && step.options[i].goalSetting then Some(GoalOf(step.options[i])) else None
  }

  /** What one flow contributes for `id`: the goal of the first step that yields
      one (the `break`), or nothing. */
  function FlowGoal(steps: seq<Step>, id: string): Option<Goal>
  {
    if steps == [] then None
    else
      var g := StepGoal(steps[0], id);
      if g.Some? then g else FlowGoal(steps[1..], id)
  }

  /** A flow yields nothing exactly when none of its steps yields a goal. */
  lemma {:induction false} FlowGoalNone(steps: seq<Step>, id: string)
    ensures FlowGoal(steps, id).None? <==> forall k :: 0 <= k < |steps| ==> StepGoal(steps[k], id).None?
  {
    if steps != [] {
      FlowGoalNone(steps[1..], id);
      assert forall k :: 1 <= k < |steps| ==> steps[k] == steps[1..][k - 1];
    }
  }

  /** A flow yields the goal of its first step that yields one. */
  lemma {:induction false} FlowGoalFirst(steps: seq<Step>, id: string)
    ensures FlowGoal(steps, id).Some? ==>
      exists k :: (0 <= k < |steps| && StepGoal(steps[k], id) == FlowGoal(steps, id)
                   && forall k' :: 0 <= k' < k ==> StepGoal(steps[k'], id).None?)
  {
    if steps != [] && FlowGoal(steps, id).Some? {
      if StepGoal(steps[0], id).Some? {
        assert StepGoal(steps[0], id) == FlowGoal(steps, id);
      } else {
        var rest := steps[1..];
        FlowGoalFirst(rest, id);
        var k :| 0 <= k < |rest| && StepGoal(rest[k], id) == FlowGoal(rest, id)
          && forall k' :: 0 <= k' < k ==> StepGoal(rest[k'], id).None?;
        assert steps[k + 1] == rest[k];
        forall k' | 0 <= k' < k + 1
          ensures StepGoal(steps[k'], id).None?
        {
          if k' > 0 {
            assert steps[k'] == rest[k' - 1];
          }
        }
      }
    }
  }

  /** The goals pushed for `id`: one per flow, in flow order, for each flow
      that yields one. */
  function GoalsForId(flows: seq<Flow>, id: string): (r: seq<Goal>)
    ensures |r| <= |flows|
  {
    if flows == [] then []
    else
      var r := GoalsForId(flows[..|flows| - 1], id);
      match FlowGoal(flows[|flows| - 1].steps, id)
      case None => r
      case Some(g) => r + [g]
  }

  lemma {:induction false} GoalsForIdMembers(flows: seq<Flow>, id: string)
    ensures forall g :: g in GoalsForId(flows, id) <==> exists f :: f in flows && FlowGoal(f.steps, id) == Some(g)
  {
    if flows != [] {
      var f := flows[|flows| - 1];
      GoalsForIdMembers(flows[..|flows| - 1], id);
      assert forall x :: x in flows <==> x in flows[..|flows| - 1] || x == f;
    }
  }

  /** `updatedGoals`: the goals for each selected id, in selection order. */
  function SavedGoals(flows: seq<Flow>, ids: seq<string>): seq<Goal>
  {
    if ids == [] then []
    else SavedGoals(flows, ids[..|ids| - 1]) + GoalsForId(flows, ids[|ids| - 1])
  }

  lemma {:induction false} FlowGoalId(steps: seq<Step>, id: string)
    ensures FlowGoal(steps, id).Some? ==> FlowGoal(steps, id).value.id == id
  {
    FlowGoalFirst(steps, id);
    if FlowGoal(steps, id).Some? {
      var k :| 0 <= k < |steps| && StepGoal(steps[k], id) == FlowGoal(steps, id);
    }
  }

  /** Every goal pushed for `id` is built from a goal-eligible option with that
      id in some step of some flow. */
  lemma GoalsForIdSound(flows: seq<Flow>, id: string)
    ensures forall g :: g in GoalsForId(flows, id) ==>
      g.id == id && exists f, st, o :: f in flows && st in f.steps && o in st.options
                                       && o.goalSetting && o.id == id && g == GoalOf(o)
  {
    GoalsForIdMembers(flows, id);
    forall g | g in GoalsForId(flows, id)
      ensures g.id == id && exists f, st, o :: f in flows && st in f.steps && o in st.options
                                               && o.goalSetting && o.id == id && g == GoalOf(o)
    {
      var f :| f in flows && FlowGoal(f.steps, id) == Some(g);
      FlowGoalFirst(f.steps, id);
      var k :| 0 <= k < |f.steps| && StepGoal(f.steps[k], id) == Some(g);
      var st := f.steps[k];
      var o :| o in st.options && o.id == id && o.goalSetting && g == GoalOf(o);
    }
  }

  /** Every saved goal is what some flow yields for some selected id, and every
      flow that yields a goal for a selected id contributes it. */
  lemma {:induction false} SavedGoalsExactly(flows: seq<Flow>, ids: seq<string>)
    ensures forall g :: g in SavedGoals(flows, ids) <==>
      exists f, id :: f in flows && id in ids && FlowGoal(f.steps, id) == Some(g)
  {
    if ids != [] {
      var prefix, id := ids[..|ids| - 1], ids[|ids| - 1];
      SavedGoalsExactly(flows, prefix);
      GoalsForIdMembers(flows, id);
      forall g | g in SavedGoals(flows, ids)
        ensures exists f, id' :: f in flows && id' in ids && FlowGoal(f.steps, id') == Some(g)
      {
        assert SavedGoals(flows, ids) == SavedGoals(flows, prefix) + GoalsForId(flows, id);
        if g in SavedGoals(flows, prefix) {
          var f, id' :| f in flows && id' in prefix && FlowGoal(f.steps, id') == Some(g);
          assert id' in ids;
          assert f in flows && id' in ids && FlowGoal(f.steps, id') == Some(g);
        } else {
          var f :| f in flows && FlowGoal(f.steps, id) == Some(g);
          assert f in flows && id in ids && FlowGoal(f.steps, id) == Some(g);
        }
      }
      forall g, f, id' | f in flows && id' in ids && FlowGoal(f.steps, id') == Some(g)
        ensures g in SavedGoals(flows, ids)
      {
        if id' != id {
          assert id' in prefix;
        }
      }
    }
  }

  /** Every saved goal belongs to a selected id and is built from a
      goal-eligible option with that id. */
  lemma {:induction false} SavedGoalsSound(flows: seq<Flow>, ids: seq<string>)
    ensures forall g :: g in SavedGoals(flows, ids) ==>
      g.id in ids && exists f, st, o :: f in flows && st in f.steps && o in st.options
                                        && o.goalSetting && o.id == g.id && g == GoalOf(o)
  {
    if ids != [] {
      var prefix, id := ids[..|ids| - 1], ids[|ids| - 1];
      SavedGoalsSound(flows, prefix);
      GoalsForIdSound(flows, id);
      assert forall x :: x in prefix ==> x in ids;
    }
  }

  /** A selected id that is not in the taxonomy, or only as options without
      `goal_setting`, is dropped. */
  lemma DroppedIds(flows: seq<Flow>, ids: seq<string>, id: string)
    requires forall f, st, o :: f in flows && st in f.steps && o in st.options && o.id == id ==> !o.goalSetting
    ensures forall g :: g in SavedGoals(flows, ids) ==> g.id != id
  {
    SavedGoalsSound(flows, ids);
  }

  /** A selected id is saved as soon as some step of some flow lists it first as
      a goal-eligible option. */
  lemma EligibleIdSaved(flows: seq<Flow>, ids: seq<string>, id: string, f: Flow, i: int, k: int)
    requires id in ids && f in flows && 0 <= i < |f.steps|
    requires 0 <= k < |f.steps[i].options| && f.steps[i].options[k].id == id
    requires f.steps[i].options[k].goalSetting
    requires forall j :: 0 <= j < k ==> f.steps[i].options[j].id != id
    ensures exists g :: g in SavedGoals(flows, ids) && g.id == id
  {
    assert StepGoal(f.steps[i], id).Some?;
    FlowGoalNone(f.steps, id);
    var g := FlowGoal(f.steps, id).value;
    FlowGoalId(f.steps, id);
    SavedGoalsExactly(flows, ids);
    assert g in SavedGoals(flows, ids);
  }

  /** Each selected id yields at most one goal per flow. */
  lemma {:induction false} SavedGoalsBound(flows: seq<Flow>, ids: seq<string>)
    ensures |SavedGoals(flows, ids)| <= |ids| * |flows|
  {
    if ids != [] {
      SavedGoalsBound(flows, ids[..|ids| - 1]);
      assert |ids| * |flows| == (|ids| - 1) * |flows| + |flows|;
    }
  }

  /** An id offered as a goal in two flows is saved twice. */
  lemma SameIdInTwoFlows()
    ensures
      var o := OptionData("walk", Some("Walk"), None, None, None, None, None, None, true, None);
      var flows := [Flow("physical_health", None, [Step(None, None, None, [o])]),
                    Flow("lifestyle", None, [Step(None, None, None, [o])])];
      SavedGoals(flows, ["walk"]) == [GoalOf(o), GoalOf(o)]
  {
    var o := OptionData("walk", Some("Walk"), None, None, None, None, None, None, true, None);
    var step := Step(None, None, None, [o]);
    assert OptionIndex([o], "walk") == 0;
    assert StepGoal(step, "walk") == Some(GoalOf(o));
    assert FlowGoal([step], "walk") == Some(GoalOf(o));
    var flows := [Flow("physical_health", None, [step]), Flow("lifestyle", None, [step])];
    assert flows[..1][..0] == [];
    assert GoalsForId(flows[..1], "walk") == [GoalOf(o)];
    assert GoalsForId(flows, "walk") == [GoalOf(o), GoalOf(o)];
    assert ["walk"][..0] == [];
  }

  // ---------------------------------------------------------------------------
  // The page

  class UpdateGoalsPage {
    const tax: Taxonomy
    var selectedOptions: seq<string>

    ghost predicate Valid()
      reads this
    {
      NoDuplicates(selectedOptions)
    }

    /** The page on mount, after its effect has selected the current goals. */
    constructor(tax: Taxonomy, currentGoals: seq<Goal>)
      ensures this.tax == tax && Valid()
      ensures selectedOptions == Distinct(GoalIds(currentGoals))
    {
      this.tax := tax;
      selectedOptions := Distinct(GoalIds(currentGoals));
    }

    /** The effect run when `currentGoals` changes: exactly the ids of the
        current goals are selected, each once, in first-occurrence order. */
    method SelectCurrentGoals(currentGoals: seq<Goal>)
      modifies this
      ensures Valid()
      ensures selectedOptions == Distinct(GoalIds(currentGoals))
      ensures forall id :: id in selectedOptions <==> exists g :: g in currentGoals && g.id == id
    {
      selectedOptions := Distinct(GoalIds(currentGoals));
    }

    /** `handleToggleOption(optionId)`. */
    method HandleToggleOption(optionId: string)
      requires Valid()
      modifies this
      ensures Valid() && selectedOptions == Toggled(old(selectedOptions), optionId)
    {
      var newSelected := selectedOptions;
      if optionId in newSelected {
        newSelected := Remove(newSelected, optionId);
      } else {
        newSelected := newSelected + [optionId];
      }
      selectedOptions := newSelected;
    }

    /** `getFlowOptions()`. */
    method GetFlowOptions() returns (flowOptions: Object<FlowGroup>)
      ensures flowOptions == FlowOptionsOf(tax.flows, FlowOrder)
    {
      flowOptions := [];
      for i := 0 to |FlowOrder|
        invariant flowOptions == FlowOptionsOf(tax.flows, FlowOrder[..i])
      {
        var flowKey := FlowOrder[i];
        assert FlowOrder[..i + 1][..i] == FlowOrder[..i];
        var found := LookupFlow(tax.flows, flowKey);
        if found.Some? {
          var options := CollectGoalOptions(found.value.steps);
          if |options| > 0 {
            flowOptions := Put(flowOptions, flowKey, FlowGroup(Get(FlowTitles, flowKey), options));
          }
        }
      }
      assert FlowOrder[..|FlowOrder|] == FlowOrder;
    }

    /** `handleSaveChanges`: the goal records passed to `onUpdateGoals`. */
    method HandleSaveChanges() returns (updatedGoals: seq<Goal>)
      ensures updatedGoals == SavedGoals(tax.flows, selectedOptions)
    {
      var flows := tax.flows;
      updatedGoals := [];
      for i := 0 to |selectedOptions|
        invariant updatedGoals == SavedGoals(flows, selectedOptions[..i])
      {
        var optionId := selectedOptions[i];
        assert selectedOptions[..i + 1][..i] == selectedOptions[..i];
        ghost var before := updatedGoals;
        for f := 0 to |flows|
          invariant updatedGoals == before + GoalsForId(flows[..f], optionId)
        {
          assert flows[..f + 1][..f] == flows[..f];
          var goal := FindFlowGoal(flows[f].steps, optionId);
          if goal.Some? {
            updatedGoals := updatedGoals + [goal.value];
          }
        }
        assert flows[..|flows|] == flows;
      }
      assert selectedOptions[..|selectedOptions|] == selectedOptions;
    }
  }

  /** The inner loops of `getFlowOptions` for one flow: the goal-eligible options
      of its steps, pushed in step and option order. */
  method CollectGoalOptions(steps: seq<Step>) returns (options: seq<GoalOption>)
    ensures options == FlowGoalOptions(steps)
  {
    options := [];
    for j := 0 to |steps|
      invariant options == FlowGoalOptions(steps[..j])
    {
      var step := steps[j];
      assert steps[..j + 1][..j] == steps[..j];
      for k := 0 to |step.options|
        invariant options == FlowGoalOptions(steps[..j]) + StepGoalOptions(step.options[..k])
      {
        var option := step.options[k];
        assert step.options[..k + 1][..k] == step.options[..k];
        if option.goalSetting {
          options := options + [Brief(option)];
        }
      }
      assert step.options[..|step.options|] == step.options;
    }
    assert steps[..|steps|] == steps;
  }

  /** The step loop of `handleSaveChanges` for one flow: the goal it pushes for
      `optionId` before its `break`, if any. */
  method FindFlowGoal(steps: seq<Step>, optionId: string) returns (goal: Option<Goal>)
    ensures goal == FlowGoal(steps, optionId)
  {
    var j := 0;
    while j < |steps|
      invariant 0 <= j <= |steps|
      invariant FlowGoal(steps[j..], optionId) == FlowGoal(steps, optionId)
    {
      var step := steps[j];
      var index := OptionIndex(step.options, optionId);
      if index >= 0 && step.options[index].goalSetting {
        return Some(GoalOf(step.options[index]));
      }
      assert steps[j..][1..] == steps[j + 1..];
      j := j + 1;
    }
    return None;
  }
}
