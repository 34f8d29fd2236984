/** The guided goal-selection state machine: a phase, a position (flow and step
    index), the after-selection confirmation flag, the set of completed flows and
    the selections recorded per step key. Each handler is specified by a function
    from one `NavState` to the next; the class `GoalSettingFlow` holds the state
    cells and its methods are proved to perform exactly those transitions. */
module GoalFlow {
  import opened Common
  import opened Taxonomy
  import opened StepKeys
  import opened FinalSelections

  datatype Phase = Initial | InFlow | Summary | Complete

  datatype NavState = NavState(
    phase: Phase,                  // `currentStep`
    currentFlow: Option<string>,   // `currentFlow`, `null` as `None`
    stepIndex: int,                // `currentStepIndex`
    selections: Selections,        // `selectedOptions`
    completedFlows: set<string>,   // `completedFlows`
    showingAfterSelection: bool,   // `showingAfterSelection`
    finalSelections: seq<Selection>
  )

  /** The state on mount. */
  const Start: NavState := NavState(Initial, None, 0, [], {}, false, [])

  // ---------------------------------------------------------------------------
  // Selections

  /** `selectedOptions[key]?.[id]` is true. */
  predicate IsSelected(sel: Selections, key: string, id: string)
  {
    match Get(sel, key)
    case None => false
    case Some(m) => Get(m, id) == Some(true)
  }

  /** `hasSelections`: some option is selected under `key`. */
  predicate HasSelections(sel: Selections, key: string)
  {
    match Get(sel, key)
    case None => false
    case Some(m) => exists i :: 0 <= i < |m| && m[i].1
  }

  /** Both levels of `selectedOptions` are objects: their keys are distinct. */
  ghost predicate WellFormed(sel: Selections)
  {
    DistinctKeys(sel) && forall i :: 0 <= i < |sel| ==> DistinctKeys(sel[i].1)
  }

  /** The state update of `handleOptionSelect(id, multiple)` at `key`: a
      multi-choice step flips the option, keeping the others; a single-choice step
      replaces what was recorded there by that one option. */
  function SelectAt(sel: Selections, key: string, id: string, multiple: bool): Selections
  {
    if multiple then
      var prev := match Get(sel, key) case None => [] case Some(m) => m;
      Put(sel, key, Put(prev, id, !(Get(prev, id) == Some(true))))
    else
      Put(sel, key, [(id, true)])
  }

  /** A single-choice click leaves exactly the clicked option selected at that key. */
  lemma SelectSingle(sel: Selections, key: string, id: string)
    ensures forall x :: IsSelected(SelectAt(sel, key, id, false), key, x) <==> x == id
  {
  }

  /** A multi-choice click flips the clicked option and keeps every other option
      of that key. */
  lemma SelectMultiple(sel: Selections, key: string, id: string)
    ensures IsSelected(SelectAt(sel, key, id, true), key, id) <==> !IsSelected(sel, key, id)
    ensures forall x :: x != id ==>
      (IsSelected(SelectAt(sel, key, id, true), key, x) <==> IsSelected(sel, key, x))
  {
  }

  /** Two multi-choice clicks on the same option restore the selected set. */
  lemma SelectTwice(sel: Selections, key: string, id: string)
    ensures var twice := SelectAt(SelectAt(sel, key, id, true), key, id, true);
      forall k, x :: IsSelected(twice, k, x) <==> IsSelected(sel, k, x)
  {
    var once := SelectAt(sel, key, id, true);
    var twice := SelectAt(once, key, id, true);
    forall k, x
      ensures IsSelected(twice, k, x) <==> IsSelected(sel, k, x)
    {
      if k != key {
        SelectOtherKeys(sel, key, id, true);
        SelectOtherKeys(once, key, id, true);
      } else {
        SelectMultiple(sel, key, id);
        SelectMultiple(once, key, id);
      }
    }
  }

  /** Selections recorded under every other key are untouched, and both levels
      stay well formed. */
  lemma SelectOtherKeys(sel: Selections, key: string, id: string, multiple: bool)
    ensures forall k :: k != key ==> Get(SelectAt(sel, key, id, multiple), k) == Get(sel, k)
    ensures WellFormed(sel) ==> WellFormed(SelectAt(sel, key, id, multiple))
  {
    var r := SelectAt(sel, key, id, multiple);
    if WellFormed(sel) {
      var prev := match Get(sel, key) case None => [] case Some(m) => m;
      var inner := if multiple then Put(prev, id, !(Get(prev, id) == Some(true))) else [(id, true)];
      assert DistinctKeys(prev) by {
        if Get(sel, key).Some? {
          var i :| 0 <= i < |sel| && sel[i] == (key, prev);
        }
      }
      if multiple {
        PutDistinct(prev, id, !(Get(prev, id) == Some(true)));
      }
      PutDistinct(sel, key, inner);
      PutEntries(sel, key, inner);
      forall i | 0 <= i < |r|
        ensures DistinctKeys(r[i].1)
      {
        assert r[i] in r;
        if r[i] != (key, inner) {
          var j :| 0 <= j < |sel| && sel[j] == r[i];
        }
      }
    }
  }

  // ---------------------------------------------------------------------------
  // Searches over options and steps, as `find`, `filter().pop()`, `filter` and
  // `findIndex` do them

  /** `options.findIndex(p)`. */
  function FindOption(options: seq<OptionData>, p: OptionData -> bool): (r: int)
    ensures -1 <= r < |options|
    ensures r == -1 <==> forall k :: 0 <= k < |options| ==> !p(options[k])
    ensures r >= 0 ==> p(options[r]) && forall k :: 0 <= k < r ==> !p(options[k])
  {
    if options == [] then -1
    else if p(options[0]) then 0
    else
      var r := FindOption(options[1..], p);
      assert forall k :: 1 <= k < |options| ==> options[k] == options[1..][k - 1];
      if r == -1 then -1 else r + 1
  }

  /** The index of `options.filter(p).pop()`. */
  function FindLastOption(options: seq<OptionData>, p: OptionData -> bool): (r: int)
    ensures -1 <= r < |options|
    ensures r == -1 <==> forall k :: 0 <= k < |options| ==> !p(options[k])
    ensures r >= 0 ==> p(options[r]) && forall k :: r < k < |options| ==> !p(options[k])
  {
    if options == [] then -1
    else if p(options[|options| - 1]) then |options| - 1
    else FindLastOption(options[..|options| - 1], p)
  }

  /** `options.filter(p)`. */
  function Filter(options: seq<OptionData>, p: OptionData -> bool): (r: seq<OptionData>)
    ensures forall o :: o in r <==> o in options && p(o)
  {
    if options == [] then []
    else if p(options[0]) then [options[0]] + Filter(options[1..], p)
    else Filter(options[1..], p)
  }

  /** `steps.findIndex(step => step.id === id)`. */
  function StepIndexOf(steps: seq<Step>, id: string): (r: int)
    ensures -1 <= r < |steps|
    ensures r == -1 <==> forall k :: 0 <= k < |steps| ==> steps[k].id != Some(id)
    ensures r >= 0 ==> steps[r].id == Some(id) && forall k :: 0 <= k < r ==> steps[k].id != Some(id)
  {
    if steps == [] then -1
    else if steps[0].id == Some(id) then 0
    else
      var r := StepIndexOf(steps[1..], id);
      assert forall k :: 1 <= k < |steps| ==> steps[k] == steps[1..][k - 1];
      if r == -1 then -1 else r + 1
  }

  /** The option is selected under `key`. */
  function Chosen(sel: Selections, key: string): OptionData -> bool
  {
    (o: OptionData) => IsSelected(sel, key, o.id)
  }

  /** The option is selected under `key` and names a step to branch to. */
  function ChosenBranch(sel: Selections, key: string): OptionData -> bool
  {
    (o: OptionData) => IsSelected(sel, key, o.id) && Truthy(o.nextStep)
  }

  /** The branch option leads to the step with this id. */
  function LeadsTo(stepId: Option<string>): OptionData -> bool
  {
    (o: OptionData) => o.nextStep == stepId
  }

  /** The top-level option is selected and its flow is neither completed nor the
      current one (an option without `next_flow` passes both tests). */
  function Pending(sel: Selections, done: set<string>, current: string): OptionData -> bool
  {
    (o: OptionData) => IsSelected(sel, InitialKey, o.id)
         && !(o.nextFlow.Some? && o.nextFlow.value in done)
         && o.nextFlow != Some(current)
  }

  // ---------------------------------------------------------------------------
  // Where the handlers may be invoked

  /** The flow data of the current flow and the step at the current index exist:
      only then does the flow phase render its option boxes and buttons. */
  predicate StepExists(tax: Taxonomy, s: NavState)
  {
    s.currentFlow.Some? && LookupFlow(tax.flows, s.currentFlow.value).Some?
    && 0 <= s.stepIndex < |LookupFlow(tax.flows, s.currentFlow.value).value.steps|
  }

  function CurrentFlowData(tax: Taxonomy, s: NavState): (f: Flow)
    requires StepExists(tax, s)
    ensures f.id == s.currentFlow.value && 0 <= s.stepIndex < |f.steps|
  {
    LookupFlow(tax.flows, s.currentFlow.value).value
  }

  /** Option boxes are clickable in the initial dialogue and on a rendered step. */
  predicate SelectEnabled(tax: Taxonomy, s: NavState)
  {
    s.phase == Initial || (s.phase == InFlow && StepExists(tax, s))
  }

  /** Next reads the current flow and step in the flow phase. */
  predicate NextEnabled(tax: Taxonomy, s: NavState)
  {
    s.phase == InFlow ==> StepExists(tax, s)
  }

  /** The Next button can be pressed: the handler can run, and in the initial
      dialogue and on a rendered step (not its confirmation) the button is
      disabled until some option is selected there. */
  predicate NextClickable(tax: Taxonomy, s: NavState)
  {
    NextEnabled(tax, s)
    && (s.phase == Initial ==> HasSelections(s.selections, InitialKey))
    && (s.phase == InFlow
        && !(s.showingAfterSelection && Truthy(CurrentFlowData(tax, s).steps[s.stepIndex].afterSelection))
        ==> HasSelections(s.selections, StepKey(s.currentFlow.value, s.stepIndex)))
  }

  /** Back from the summary reads the flow named by the last selected top-level
      option, when that option names one. */
  predicate BackEnabled(tax: Taxonomy, s: NavState)
  {
    s.phase == Summary ==>
      var k := FindLastOption(tax.initialOptions, Chosen(s.selections, InitialKey));
      k >= 0 && Truthy(tax.initialOptions[k].nextFlow) ==>
        LookupFlow(tax.flows, tax.initialOptions[k].nextFlow.value).Some?
  }

  /** The key under which a click is recorded. */
  function CurrentKey(tax: Taxonomy, s: NavState): string
    requires SelectEnabled(tax, s)
  {
    if s.phase == Initial then InitialKey else StepKey(s.currentFlow.value, s.stepIndex)
  }

  /** The `isMultiple` a rendered option box passes: always true in the initial
      dialogue; in a step, true unless `allow_multiple` is exactly `false`. */
  function ClickIsMultiple(tax: Taxonomy, s: NavState): bool
    requires SelectEnabled(tax, s)
  {
    s.phase == Initial || CurrentFlowData(tax, s).steps[s.stepIndex].allowMultiple != Some(false)
  }

  // ---------------------------------------------------------------------------
  // Transitions

  /** `handleOptionSelect(id, multiple)`. */
  function AfterSelect(tax: Taxonomy, s: NavState, id: string, multiple: bool): NavState
    requires SelectEnabled(tax, s)
  {
    s.(selections := SelectAt(s.selections, CurrentKey(tax, s), id, multiple))
  }

  /** `navigateToNextFlow` followed by the collection it schedules: the current
      flow joins the completed set, then either the next pending top-level option
      leads into its flow at step 0, or the phase becomes the summary with the
      collected selections. */
  function AfterFlowDone(tax: Taxonomy, s: NavState): NavState
    requires s.currentFlow.Some?
  {
    var current := s.currentFlow.value;
    var done := s.completedFlows + {current};
    var k := FindOption(tax.initialOptions, Pending(s.selections, done, current));
    if k >= 0 && Truthy(tax.initialOptions[k].nextFlow) then
      s.(completedFlows := done, currentFlow := tax.initialOptions[k].nextFlow,
         stepIndex := 0, showingAfterSelection := false)
    else
      s.(completedFlows := done, phase := Summary,
         finalSelections := Dedup(Candidates(tax, s.selections)))
  }

  /** Leaving the after-selection confirmation: jump to the step named by the
      first selected branch option, else to the following step, else on to the
      next flow. */
  function AfterConfirmation(tax: Taxonomy, s: NavState): NavState
    requires s.phase == InFlow && StepExists(tax, s)
  {
    var f := CurrentFlowData(tax, s);
    var step := f.steps[s.stepIndex];
    var s1 := s.(showingAfterSelection := false);
    var k := FindOption(step.options, ChosenBranch(s.selections, StepKey(s.currentFlow.value, s.stepIndex)));
    var j := if k >= 0 then StepIndexOf(f.steps, step.options[k].nextStep.value) else -1;
    if j >= 0 then s1.(stepIndex := j)
    else if s.stepIndex < |f.steps| - 1 then s1.(stepIndex := s.stepIndex + 1)
    else AfterFlowDone(tax, s1)
  }

  /** The branch options selected on step 0 of the current flow, in option order. */
  function SelectedBranches(tax: Taxonomy, s: NavState): (r: seq<OptionData>)
    requires StepExists(tax, s)
    ensures forall o :: o in r ==> o.nextStep.Some?
  {
    var f := CurrentFlowData(tax, s);
    Filter(f.steps[0].options, ChosenBranch(s.selections, StepKey(s.currentFlow.value, 0)))
  }

  /** Next on a detail step: go to the step of the selected branch that follows
      the one leading to this step, else on to the next flow. */
  function AfterDetail(tax: Taxonomy, s: NavState): NavState
    requires s.phase == InFlow && StepExists(tax, s)
  {
    var f := CurrentFlowData(tax, s);
    var branches := SelectedBranches(tax, s);
    var c := FindOption(branches, LeadsTo(f.steps[s.stepIndex].id));
    var j := if 0 <= c < |branches| - 1 then StepIndexOf(f.steps, branches[c + 1].nextStep.value) else -1;
    if j >= 0 then s.(stepIndex := j) else AfterFlowDone(tax, s)
  }

  /** `handleNext`. */
  function AfterNext(tax: Taxonomy, s: NavState): NavState
    requires NextEnabled(tax, s)
  {
    match s.phase
    case Initial =>
      var k := FindOption(tax.initialOptions, Chosen(s.selections, InitialKey));
      if k >= 0 && Truthy(tax.initialOptions[k].nextFlow) then
        s.(currentFlow := tax.initialOptions[k].nextFlow, stepIndex := 0,
           showingAfterSelection := false, phase := InFlow)
      else s
    case InFlow =>
      var f := CurrentFlowData(tax, s);
      if s.showingAfterSelection then AfterConfirmation(tax, s)
      else if Truthy(f.steps[s.stepIndex].afterSelection) && s.stepIndex == 0 then
        s.(showingAfterSelection := true)
      else if s.stepIndex > 0 then AfterDetail(tax, s)
      else if s.stepIndex < |f.steps| - 1 then s.(stepIndex := s.stepIndex + 1)
      else AfterFlowDone(tax, s)
    case Summary => s.(phase := Complete)
    case Complete => s
  }

  /** `handleBack`. */
  function AfterBack(tax: Taxonomy, s: NavState): NavState
    requires BackEnabled(tax, s)
  {
    match s.phase
    case InFlow =>
      if s.showingAfterSelection then s.(showingAfterSelection := false)
      else if s.stepIndex > 0 then s.(stepIndex := s.stepIndex - 1)
      else s.(phase := Initial, currentFlow := None)
    case Summary =>
      var k := FindLastOption(tax.initialOptions, Chosen(s.selections, InitialKey));
      if k >= 0 && Truthy(tax.initialOptions[k].nextFlow) then
        var last := tax.initialOptions[k].nextFlow.value;
        s.(currentFlow := Some(last), stepIndex := |LookupFlow(tax.flows, last).value.steps| - 1,
           showingAfterSelection := false, phase := InFlow)
      else s
    case _ => s
  }

  // ---------------------------------------------------------------------------
  // Invariant

  /** What every reachable state satisfies: a flow is current exactly outside the
      initial dialogue and is a non-empty id, the confirmation flag is only up on
      step 0, only existing flows are completed, the selections are well-formed
      objects, and the collected list has no duplicate ids. */
  ghost predicate ValidState(tax: Taxonomy, s: NavState)
  {
    (s.phase == Initial <==> s.currentFlow.None?)
    && (s.showingAfterSelection ==> s.stepIndex == 0)
    && (s.currentFlow.Some? ==> s.currentFlow.value != "")
    && s.completedFlows <= FlowIds(tax.flows)
    && WellFormed(s.selections)
    && UniqueIds(s.finalSelections)
  }

  lemma StartValid(tax: Taxonomy)
    ensures ValidState(tax, Start)
  {
  }

  lemma SelectPreservesValid(tax: Taxonomy, s: NavState, id: string, multiple: bool)
    requires ValidState(tax, s) && SelectEnabled(tax, s)
    ensures ValidState(tax, AfterSelect(tax, s, id, multiple))
  {
    SelectOtherKeys(s.selections, CurrentKey(tax, s), id, multiple);
  }

  lemma FlowDonePreservesValid(tax: Taxonomy, s: NavState)
    requires ValidState(tax, s) && s.phase == InFlow && StepExists(tax, s)
    ensures ValidState(tax, AfterFlowDone(tax, s))
    ensures AfterFlowDone(tax, s).phase in {InFlow, Summary}
  {
    DedupUnique(Candidates(tax, s.selections));
  }

  lemma NextPreservesValid(tax: Taxonomy, s: NavState)
    requires ValidState(tax, s) && NextEnabled(tax, s)
    ensures ValidState(tax, AfterNext(tax, s))
  {
    if s.phase == InFlow {
      var f := CurrentFlowData(tax, s);
      if s.showingAfterSelection {
        FlowDonePreservesValid(tax, s.(showingAfterSelection := false));
        assert AfterNext(tax, s) == AfterConfirmation(tax, s);
      } else if Truthy(f.steps[s.stepIndex].afterSelection) && s.stepIndex == 0 {
      } else if s.stepIndex > 0 {
        FlowDonePreservesValid(tax, s);
        assert AfterNext(tax, s) == AfterDetail(tax, s);
      } else {
        FlowDonePreservesValid(tax, s);
      }
    }
  }

  lemma BackPreservesValid(tax: Taxonomy, s: NavState)
    requires ValidState(tax, s) && BackEnabled(tax, s)
    ensures ValidState(tax, AfterBack(tax, s))
  {
  }

  // ---------------------------------------------------------------------------
  // Navigation properties

  /** `k` is the first option satisfying `p`. */
  ghost predicate FirstWhere(options: seq<OptionData>, p: OptionData -> bool, k: int)
  {
    0 <= k < |options| && p(options[k]) && forall j :: 0 <= j < k ==> !p(options[j])
  }

  lemma FindOptionFirst(options: seq<OptionData>, p: OptionData -> bool, k: int)
    requires FirstWhere(options, p, k)
    ensures FindOption(options, p) == k
  {
  }

  /** From the initial dialogue, Next with nothing selected changes nothing;
      otherwise it enters the flow of the first selected top-level option, at
      step 0 with the confirmation flag cleared, when that option names a flow. */
  lemma NextFromInitial(tax: Taxonomy, s: NavState)
    requires s.phase == Initial
    ensures (forall k :: 0 <= k < |tax.initialOptions| ==>
               !IsSelected(s.selections, InitialKey, tax.initialOptions[k].id))
            ==> AfterNext(tax, s) == s
    ensures forall k :: FirstWhere(tax.initialOptions, Chosen(s.selections, InitialKey), k) ==>
      AfterNext(tax, s) ==
        if Truthy(tax.initialOptions[k].nextFlow)
        then s.(phase := InFlow, currentFlow := tax.initialOptions[k].nextFlow, stepIndex := 0,
                showingAfterSelection := false)
        else s
  {
    forall k | FirstWhere(tax.initialOptions, Chosen(s.selections, InitialKey), k) {
      FindOptionFirst(tax.initialOptions, Chosen(s.selections, InitialKey), k);
    }
  }

  /** On step 0 of a step with an after-selection message, Next only raises the
      confirmation flag, and Back from the confirmation only lowers it: the two
      undo each other. */
  lemma ConfirmationOnlyFlag(tax: Taxonomy, s: NavState)
    requires s.phase == InFlow && StepExists(tax, s) && !s.showingAfterSelection
    requires s.stepIndex == 0 && Truthy(CurrentFlowData(tax, s).steps[0].afterSelection)
    ensures AfterNext(tax, s) == s.(showingAfterSelection := true)
    ensures AfterBack(tax, AfterNext(tax, s)) == s
  {
  }

  /** Moving one step forward in the default way is undone by Back, and so is
      entering the first selected flow from the initial dialogue. */
  lemma NextThenBack(tax: Taxonomy, s: NavState)
    requires s.phase == InFlow && StepExists(tax, s) && !s.showingAfterSelection && s.stepIndex == 0
    requires !Truthy(CurrentFlowData(tax, s).steps[0].afterSelection)
    requires |CurrentFlowData(tax, s).steps| > 1
    ensures AfterNext(tax, s) == s.(stepIndex := 1)
    ensures AfterBack(tax, AfterNext(tax, s)) == s
  {
  }

  lemma BackThenNext(tax: Taxonomy, s: NavState)
    requires s.phase == InFlow && !s.showingAfterSelection && s.stepIndex == 0
    requires var k := FindOption(tax.initialOptions, Chosen(s.selections, InitialKey));
      k >= 0 && Truthy(tax.initialOptions[k].nextFlow) && s.currentFlow == tax.initialOptions[k].nextFlow
    ensures AfterBack(tax, s).phase == Initial && AfterBack(tax, s).currentFlow == None
    ensures AfterNext(tax, AfterBack(tax, s)) == s
  {
  }

  /** Leaving the confirmation goes to the step named by the first selected
      branch option when that step exists; otherwise (no selected branch, or a
      target no step carries) on to the following step when there is one, and
      on to the next flow from the last step. */
  lemma ConfirmationTargets(tax: Taxonomy, s: NavState)
    requires s.phase == InFlow && StepExists(tax, s) && s.showingAfterSelection
    ensures var f := CurrentFlowData(tax, s);
      var step := f.steps[s.stepIndex];
      var branch := ChosenBranch(s.selections, StepKey(s.currentFlow.value, s.stepIndex));
      forall k, j :: FirstWhere(step.options, branch, k)
                     && 0 <= j < |f.steps| && f.steps[j].id == step.options[k].nextStep
                     && (forall i :: 0 <= i < j ==> f.steps[i].id != step.options[k].nextStep)
        ==> AfterNext(tax, s) == s.(showingAfterSelection := false, stepIndex := j)
    ensures var f := CurrentFlowData(tax, s);
      var step := f.steps[s.stepIndex];
      var branch := ChosenBranch(s.selections, StepKey(s.currentFlow.value, s.stepIndex));
      ((forall k :: 0 <= k < |step.options| ==> !branch(step.options[k]))
       && s.stepIndex < |f.steps| - 1)
      ==> AfterNext(tax, s) == s.(showingAfterSelection := false, stepIndex := s.stepIndex + 1)
    ensures var f := CurrentFlowData(tax, s);
      var step := f.steps[s.stepIndex];
      var branch := ChosenBranch(s.selections, StepKey(s.currentFlow.value, s.stepIndex));
      (forall k :: FirstWhere(step.options, branch, k) ==>
         forall j :: 0 <= j < |f.steps| ==> f.steps[j].id != step.options[k].nextStep)
      ==> AfterNext(tax, s) ==
            if s.stepIndex < |f.steps| - 1
            then s.(showingAfterSelection := false, stepIndex := s.stepIndex + 1)
            else AfterFlowDone(tax, s.(showingAfterSelection := false))
  {
    var f := CurrentFlowData(tax, s);
    var step := f.steps[s.stepIndex];
    var branch := ChosenBranch(s.selections, StepKey(s.currentFlow.value, s.stepIndex));
    forall k, j | FirstWhere(step.options, branch, k)
                  && 0 <= j < |f.steps| && f.steps[j].id == step.options[k].nextStep
                  && (forall i :: 0 <= i < j ==> f.steps[i].id != step.options[k].nextStep)
      ensures AfterNext(tax, s) == s.(showingAfterSelection := false, stepIndex := j)
    {
      FindOptionFirst(step.options, branch, k);
      assert StepIndexOf(f.steps, step.options[k].nextStep.value) == j;
    }
    var k := FindOption(step.options, branch);
    if k >= 0 {
      assert FirstWhere(step.options, branch, k);
    }
  }

  /** On a detail step reached from branch option `c` of step 0, the detail
      transition goes to the step of the next selected branch option, in step-0
      option order, when that step exists. */
  lemma DetailTargets(tax: Taxonomy, s: NavState)
    requires s.phase == InFlow && StepExists(tax, s)
    ensures var f := CurrentFlowData(tax, s);
      var branches := SelectedBranches(tax, s);
      forall c, j :: FirstWhere(branches, LeadsTo(f.steps[s.stepIndex].id), c) && c + 1 < |branches|
                     && 0 <= j < |f.steps| && f.steps[j].id == branches[c + 1].nextStep
                     && (forall i :: 0 <= i < j ==> f.steps[i].id != branches[c + 1].nextStep)
        ==> AfterDetail(tax, s) == s.(stepIndex := j)
  {
    var f := CurrentFlowData(tax, s);
    var branches := SelectedBranches(tax, s);
    var here := LeadsTo(f.steps[s.stepIndex].id);
    forall c, j | FirstWhere(branches, here, c) && c + 1 < |branches|
                  && 0 <= j < |f.steps| && f.steps[j].id == branches[c + 1].nextStep
                  && (forall i :: 0 <= i < j ==> f.steps[i].id != branches[c + 1].nextStep)
      ensures AfterDetail(tax, s) == s.(stepIndex := j)
    {
      FindOptionFirst(branches, here, c);
      assert StepIndexOf(f.steps, branches[c + 1].nextStep.value) == j;
    }
  }

  /** From the step of the last selected branch, the detail transition moves on
      to the next flow. */
  lemma DetailFromLastBranch(tax: Taxonomy, s: NavState)
    requires s.phase == InFlow && StepExists(tax, s)
    ensures var f := CurrentFlowData(tax, s);
      var branches := SelectedBranches(tax, s);
      FirstWhere(branches, LeadsTo(f.steps[s.stepIndex].id), |branches| - 1) ==>
        AfterDetail(tax, s) == AfterFlowDone(tax, s)
  {
    var f := CurrentFlowData(tax, s);
    var branches := SelectedBranches(tax, s);
    var here := LeadsTo(f.steps[s.stepIndex].id);
    if FirstWhere(branches, here, |branches| - 1) {
      FindOptionFirst(branches, here, |branches| - 1);
    }
  }

  /** On a detail step that no selected branch leads to, or whose following
      branch names a step the flow does not have, the detail transition moves
      on to the next flow. */
  lemma DetailFallThrough(tax: Taxonomy, s: NavState)
    requires s.phase == InFlow && StepExists(tax, s)
    ensures var f := CurrentFlowData(tax, s);
      var branches := SelectedBranches(tax, s);
      (forall c :: FirstWhere(branches, LeadsTo(f.steps[s.stepIndex].id), c) ==>
         c == |branches| - 1 || forall j :: 0 <= j < |f.steps| ==> f.steps[j].id != branches[c + 1].nextStep)
      ==> AfterDetail(tax, s) == AfterFlowDone(tax, s)
  {
    var f := CurrentFlowData(tax, s);
    var branches := SelectedBranches(tax, s);
    var c := FindOption(branches, LeadsTo(f.steps[s.stepIndex].id));
    if c >= 0 {
      assert FirstWhere(branches, LeadsTo(f.steps[s.stepIndex].id), c);
    }
  }

  /** Next on a detail step (index above 0, no confirmation showing) is the
      detail transition: the targets of `DetailTargets`, and the next flow from
      the last selected branch or when there is no target. */
  lemma NextOnDetail(tax: Taxonomy, s: NavState)
    requires s.phase == InFlow && StepExists(tax, s) && !s.showingAfterSelection && s.stepIndex > 0
    ensures var f := CurrentFlowData(tax, s);
      var branches := SelectedBranches(tax, s);
      forall c, j :: FirstWhere(branches, LeadsTo(f.steps[s.stepIndex].id), c) && c + 1 < |branches|
                     && 0 <= j < |f.steps| && f.steps[j].id == branches[c + 1].nextStep
                     && (forall i :: 0 <= i < j ==> f.steps[i].id != branches[c + 1].nextStep)
        ==> AfterNext(tax, s) == s.(stepIndex := j)
    ensures var f := CurrentFlowData(tax, s);
      var branches := SelectedBranches(tax, s);
      FirstWhere(branches, LeadsTo(f.steps[s.stepIndex].id), |branches| - 1) ==>
        AfterNext(tax, s) == AfterFlowDone(tax, s)
    ensures var f := CurrentFlowData(tax, s);
      var branches := SelectedBranches(tax, s);
      (forall c :: FirstWhere(branches, LeadsTo(f.steps[s.stepIndex].id), c) ==>
         c == |branches| - 1 || forall j :: 0 <= j < |f.steps| ==> f.steps[j].id != branches[c + 1].nextStep)
      ==> AfterNext(tax, s) == AfterFlowDone(tax, s)
  {
    assert AfterNext(tax, s) == AfterDetail(tax, s);
    DetailTargets(tax, s);
    DetailFromLastBranch(tax, s);
    DetailFallThrough(tax, s);
  }

  /** Within a flow, Next reaches a step at index 2 or later only as the target
      of a branch option selected on step 0: in a flow whose step 0 has no
      selected branch, the steps after index 1 are never shown. */
  lemma LaterStepsOnlyByBranch(tax: Taxonomy, s: NavState)
    requires s.phase == InFlow && StepExists(tax, s)
    requires s.showingAfterSelection ==> s.stepIndex == 0
    ensures var r := AfterNext(tax, s);
      var f := CurrentFlowData(tax, s);
      r.phase == InFlow && r.currentFlow == s.currentFlow && r.stepIndex >= 2 ==>
        r.stepIndex < |f.steps| && exists o :: o in SelectedBranches(tax, s) && f.steps[r.stepIndex].id == o.nextStep
  {
    var f := CurrentFlowData(tax, s);
    var r := AfterNext(tax, s);
    FlowDoneLeaves(tax, s);
    FlowDoneLeaves(tax, s.(showingAfterSelection := false));
    if r.phase == InFlow && r.currentFlow == s.currentFlow && r.stepIndex >= 2 {
      if s.showingAfterSelection {
        var step := f.steps[0];
        var branch := ChosenBranch(s.selections, StepKey(s.currentFlow.value, 0));
        var k := FindOption(step.options, branch);
        assert r == AfterConfirmation(tax, s);
        assert k >= 0;
        var o := step.options[k];
        assert o in SelectedBranches(tax, s);
        assert f.steps[r.stepIndex].id == o.nextStep;
      } else {
        var branches := SelectedBranches(tax, s);
        var c := FindOption(branches, LeadsTo(f.steps[s.stepIndex].id));
        assert r == AfterDetail(tax, s);
        assert 0 <= c < |branches| - 1;
        assert f.steps[r.stepIndex].id == branches[c + 1].nextStep;
      }
    }
  }

  /** Next never leaves the current flow for a step it does not have. */
  lemma NextStaysOnExistingStep(tax: Taxonomy, s: NavState)
    requires s.phase == InFlow && StepExists(tax, s)
    ensures var r := AfterNext(tax, s);
      r.phase == InFlow && r.currentFlow == s.currentFlow ==> StepExists(tax, r)
  {
    FlowDoneLeaves(tax, s);
    FlowDoneLeaves(tax, s.(showingAfterSelection := false));
  }

  /** Finishing a flow either shows the summary or enters another flow. */
  lemma FlowDoneLeaves(tax: Taxonomy, s: NavState)
    requires s.currentFlow.Some?
    ensures var r := AfterFlowDone(tax, s);
      r.phase == Summary || (r.phase == s.phase && r.currentFlow != s.currentFlow)
  {
  }

  /** `navigateToNextFlow` marks the current flow completed and then looks for the
      first selected top-level option whose flow is neither completed nor the
      one just left: when that option names a flow, it enters it at step 0;
      when it names none, or there is no such option, it shows the summary with
      the collected selections, which carry distinct ids and are exactly the
      kept candidates. */
  lemma FlowDone(tax: Taxonomy, s: NavState)
    requires s.currentFlow.Some?
    ensures var done := s.completedFlows + {s.currentFlow.value};
      var summary := s.(completedFlows := done, phase := Summary,
                        finalSelections := Dedup(Candidates(tax, s.selections)));
      forall k :: FirstWhere(tax.initialOptions, Pending(s.selections, done, s.currentFlow.value), k) ==>
        AfterFlowDone(tax, s) ==
          if Truthy(tax.initialOptions[k].nextFlow)
          then s.(completedFlows := done, currentFlow := tax.initialOptions[k].nextFlow, stepIndex := 0,
                  showingAfterSelection := false)
          else summary
    ensures var done := s.completedFlows + {s.currentFlow.value};
      (forall k :: 0 <= k < |tax.initialOptions| ==>
         !Pending(s.selections, done, s.currentFlow.value)(tax.initialOptions[k]))
      ==> AfterFlowDone(tax, s) == s.(completedFlows := done, phase := Summary,
                                      finalSelections := Dedup(Candidates(tax, s.selections)))
    ensures var r := AfterFlowDone(tax, s);
      r.completedFlows == s.completedFlows + {s.currentFlow.value}
      && r.selections == s.selections
      && (r.phase == InFlow <==> s.phase == InFlow && r.currentFlow != s.currentFlow)
      && (r.phase == InFlow ==>
            r.currentFlow.value != "" && r.currentFlow.value !in r.completedFlows
            && r.stepIndex == 0 && !r.showingAfterSelection
            && exists k :: 0 <= k < |tax.initialOptions|
                 && IsSelected(s.selections, InitialKey, tax.initialOptions[k].id)
                 && tax.initialOptions[k].nextFlow == r.currentFlow)
      && (r.phase != InFlow ==> r.phase == Summary || s.phase != InFlow)
    ensures var r := AfterFlowDone(tax, s);
      r.currentFlow == s.currentFlow ==>
        UniqueIds(r.finalSelections)
        && forall id :: HasId(r.finalSelections, id) <==> HasId(Candidates(tax, s.selections), id)
  {
    var done := s.completedFlows + {s.currentFlow.value};
    var pending := Pending(s.selections, done, s.currentFlow.value);
    forall k | FirstWhere(tax.initialOptions, pending, k) {
      FindOptionFirst(tax.initialOptions, pending, k);
    }
    var r := AfterFlowDone(tax, s);
    if r.currentFlow == s.currentFlow {
      DedupUnique(Candidates(tax, s.selections));
      DedupIds(Candidates(tax, s.selections));
    }
  }

  /** When every selected top-level option names a flow, the summary is reached
      only once all of those flows are completed. */
  lemma SummaryOnlyWhenAllDone(tax: Taxonomy, s: NavState)
    requires s.currentFlow.Some?
    requires forall k :: 0 <= k < |tax.initialOptions| ==>
      IsSelected(s.selections, InitialKey, tax.initialOptions[k].id) ==> Truthy(tax.initialOptions[k].nextFlow)
    ensures var r := AfterFlowDone(tax, s);
      r.currentFlow == s.currentFlow ==>
        forall k :: 0 <= k < |tax.initialOptions| ==>
          IsSelected(s.selections, InitialKey, tax.initialOptions[k].id) ==>
          tax.initialOptions[k].nextFlow.value in r.completedFlows
  {
    var current := s.currentFlow.value;
    var done := s.completedFlows + {current};
    var p := Pending(s.selections, done, current);
    var k := FindOption(tax.initialOptions, p);
    if k >= 0 {
      assert Truthy(tax.initialOptions[k].nextFlow);
      assert tax.initialOptions[k].nextFlow != s.currentFlow;
    } else {
      forall i | 0 <= i < |tax.initialOptions| && IsSelected(s.selections, InitialKey, tax.initialOptions[i].id)
        ensures tax.initialOptions[i].nextFlow.value in done
      {
        assert !p(tax.initialOptions[i]);
      }
    }
  }

  /** Next from the summary completes; Back from the summary re-enters the last
      step of the flow of the last selected top-level option. */
  lemma SummaryMoves(tax: Taxonomy, s: NavState)
    requires s.phase == Summary && BackEnabled(tax, s)
    ensures AfterNext(tax, s) == s.(phase := Complete)
    ensures forall k ::
      (0 <= k < |tax.initialOptions| && IsSelected(s.selections, InitialKey, tax.initialOptions[k].id)
       && Truthy(tax.initialOptions[k].nextFlow)
       && (forall j :: k < j < |tax.initialOptions| ==> !IsSelected(s.selections, InitialKey, tax.initialOptions[j].id)))
      ==> var last := tax.initialOptions[k].nextFlow.value;
          LookupFlow(tax.flows, last).Some? &&
          AfterBack(tax, s) == s.(phase := InFlow, currentFlow := Some(last), showingAfterSelection := false,
                                  stepIndex := |LookupFlow(tax.flows, last).value.steps| - 1)
  {
  }

  // ---------------------------------------------------------------------------
  // Progress

  /** A JavaScript number as the progress formula can produce it. */
  datatype Percent = Finite(value: real) | PlusInfinity | NaN

  /** `a` is not above `b`. */
  predicate AtMost(a: Percent, b: Percent)
  {
    b.PlusInfinity? || (a.Finite? && b.Finite? && a.value <= b.value)
  }

  /** `10 + (total / maxFlows) * 70`, where a division by zero gives `Infinity`,
      or `NaN` for `0 / 0`. */
  function FlowPercent(total: nat, maxFlows: nat): Percent
  {
    if maxFlows == 0 then (if total == 0 then NaN else PlusInfinity)
    else Finite(10.0 + (total as real / maxFlows as real) * 70.0)
  }

  /** `calculateProgress` as written: the current flow is counted on top of the
      completed flows, even when it is one of them. */
  function ProgressAsWritten(tax: Taxonomy, s: NavState): Percent
  {
    match s.phase
    case Initial => Finite(10.0)
    case InFlow => FlowPercent(|s.completedFlows| + (if Truthy(s.currentFlow) then 1 else 0), |FlowIds(tax.flows)|)
    case Summary => Finite(90.0)
    case Complete => Finite(100.0)
  }

  /** The flows finished or in progress. */
  function FlowsReached(s: NavState): set<string>
  {
    s.completedFlows + if Truthy(s.currentFlow) then {s.currentFlow.value} else {}
  }

  /** Progress with the current flow counted once. */
  function Progress(tax: Taxonomy, s: NavState): Percent
  {
    match s.phase
    case Initial => Finite(10.0)
    case InFlow => FlowPercent(|FlowsReached(s)|, |FlowIds(tax.flows)|)
    case Summary => Finite(90.0)
    case Complete => Finite(100.0)
  }

  /** One flow whose only step has one option, and one top-level option leading
      into it. */
  const OneFlow: Taxonomy :=
    Taxonomy([Flow("f", None, [Step(None, None, None, [OptionData("p", None, None, None, None, None, None, None, false, None)])])],
             [OptionData("o", None, None, None, None, None, None, Some("f"), false, None)])

  /** The selections after picking the top-level option and the step's option. */
  const BothPicked: Selections := [(InitialKey, [("o", true)]), (StepKey("f", 0), [("p", true)])]

  /** What `BothPicked` records under each key. */
  lemma BothPickedKeys()
    ensures Get(BothPicked, InitialKey) == Some([("o", true)])
    ensures Get(BothPicked, StepKey("f", 0)) == Some([("p", true)])
    ensures HasSelections(BothPicked, InitialKey) && HasSelections(BothPicked, StepKey("f", 0))
  {
    StepKeyDistinct("f", 0, "f", 0);
    assert [("o", true)][0].1 && [("p", true)][0].1;
  }

  /** In `OneFlow`, selecting the top-level option enables Next, which enters
      the flow. */
  lemma OneFlowEnter()
    ensures SelectEnabled(OneFlow, Start)
    ensures AfterSelect(OneFlow, Start, "o", true) == Start.(selections := [(InitialKey, [("o", true)])])
    ensures var s1 := Start.(selections := [(InitialKey, [("o", true)])]);
      NextClickable(OneFlow, s1) && AfterNext(OneFlow, s1) == s1.(phase := InFlow, currentFlow := Some("f"))
    ensures ValidState(OneFlow, Start.(selections := [(InitialKey, [("o", true)])], phase := InFlow, currentFlow := Some("f")))
  {
    var s1 := Start.(selections := [(InitialKey, [("o", true)])]);
    assert IsSelected(s1.selections, InitialKey, "o");
    assert FindOption(OneFlow.initialOptions, Chosen(s1.selections, InitialKey)) == 0;
  }

  /** On the flow's step, a click on its option (a multi-choice step) records it
      under the step's key. */
  lemma OneFlowPick(s2: NavState)
    requires s2 == Start.(selections := [(InitialKey, [("o", true)])], phase := InFlow, currentFlow := Some("f"))
    ensures SelectEnabled(OneFlow, s2) && ClickIsMultiple(OneFlow, s2)
    ensures AfterSelect(OneFlow, s2, "p", true) == s2.(selections := BothPicked)
    ensures ValidState(OneFlow, s2) ==> ValidState(OneFlow, s2.(selections := BothPicked))
  {
    SelectPreservesValid(OneFlow, s2, "p", true);
    StepKeyDistinct("f", 0, "f", 0);
    assert CurrentKey(OneFlow, s2) == StepKey("f", 0);
    PutAppends(s2.selections, StepKey("f", 0), [("p", true)]);
  }

  /** With the top-level option and the step's option picked, Next on the
      flow's last step finishes the flow and, nothing being left, shows the
      summary. */
  lemma OneFlowSummary(s2: NavState)
    requires s2.phase == InFlow && s2.currentFlow == Some("f") && s2.stepIndex == 0
    requires !s2.showingAfterSelection && s2.completedFlows == {}
    requires IsSelected(s2.selections, InitialKey, "o") && HasSelections(s2.selections, StepKey("f", 0))
    ensures NextClickable(OneFlow, s2)
    ensures var s3 := AfterNext(OneFlow, s2);
      s3.phase == Summary && s3.completedFlows == {"f"} && s3.currentFlow == s2.currentFlow
      && s3.stepIndex == 0 && !s3.showingAfterSelection && s3.selections == s2.selections
      && (ValidState(OneFlow, s2) ==> ValidState(OneFlow, s3))
  {
    assert FindOption(OneFlow.initialOptions, Pending(s2.selections, {"f"}, "f")) == -1;
    assert AfterNext(OneFlow, s2) == AfterFlowDone(OneFlow, s2);
    if ValidState(OneFlow, s2) {
      FlowDonePreservesValid(OneFlow, s2);
    }
  }

  /** Back from that summary re-enters the flow on its only step. */
  lemma OneFlowBack(s3: NavState)
    requires s3.phase == Summary && s3.currentFlow == Some("f") && !s3.showingAfterSelection
    requires IsSelected(s3.selections, InitialKey, "o")
    ensures BackEnabled(OneFlow, s3) && AfterBack(OneFlow, s3) == s3.(phase := InFlow, stepIndex := 0)
    ensures ValidState(OneFlow, s3) ==> ValidState(OneFlow, AfterBack(OneFlow, s3))
  {
    assert FindLastOption(OneFlow.initialOptions, Chosen(s3.selections, InitialKey)) == 0;
  }

  /** In `OneFlow`: select the top-level option, enter the flow, select the
      step's option, finish the flow, go Back from the summary. Next is enabled
      at each press, and the flow is re-entered on its only step, completed and
      current at once, in a valid state. */
  lemma OneFlowWalk(tax: Taxonomy)
    requires tax == OneFlow
    ensures SelectEnabled(tax, Start)
    ensures var s1 := AfterSelect(tax, Start, "o", true);
      var s2 := AfterNext(tax, s1);
      NextClickable(tax, s1) && SelectEnabled(tax, s2)
      && NextClickable(tax, AfterSelect(tax, s2, "p", ClickIsMultiple(tax, s2)))
    ensures var s1 := AfterSelect(tax, Start, "o", true);
      var s2 := AfterNext(tax, s1);
      var s3 := AfterNext(tax, AfterSelect(tax, s2, "p", ClickIsMultiple(tax, s2)));
      s3.phase == Summary && BackEnabled(tax, s3)
    ensures var s1 := AfterSelect(tax, Start, "o", true);
      var s2 := AfterNext(tax, s1);
      var s4 := AfterBack(tax, AfterNext(tax, AfterSelect(tax, s2, "p", ClickIsMultiple(tax, s2))));
      s4.phase == InFlow && s4.currentFlow == Some("f") && s4.completedFlows == {"f"}
      && s4.stepIndex == 0 && !s4.showingAfterSelection && s4.selections == BothPicked
      && HasSelections(s4.selections, StepKey("f", 0)) && ValidState(tax, s4)
  {
    OneFlowEnter();
    var s1 := AfterSelect(tax, Start, "o", true);
    var s2 := AfterNext(tax, s1);
    OneFlowPick(s2);
    var s2' := AfterSelect(tax, s2, "p", true);
    BothPickedKeys();
    assert IsSelected(BothPicked, InitialKey, "o");
    OneFlowSummary(s2');
    var s3 := AfterNext(tax, s2');
    OneFlowBack(s3);
  }

  /** In the state `OneFlowWalk` ends in, the flow is counted twice as written:
      the flow phase reports 150 percent, and Next, still enabled, shows the
      summary and lowers the progress to its 90; counted once, the flow reports
      80. */
  lemma ProgressAsWrittenOverflows(s4: NavState)
    requires s4.phase == InFlow && s4.currentFlow == Some("f") && s4.completedFlows == {"f"}
    requires s4.stepIndex == 0 && !s4.showingAfterSelection && HasSelections(s4.selections, StepKey("f", 0))
    ensures ProgressAsWritten(OneFlow, s4) == Finite(150.0)
    ensures Progress(OneFlow, s4) == Finite(80.0)
    ensures NextClickable(OneFlow, s4) && AfterNext(OneFlow, s4).phase == Summary
    ensures ProgressAsWritten(OneFlow, AfterNext(OneFlow, s4)) == Finite(90.0)
  {
    assert FlowIds(OneFlow.flows) == {"f"};
    assert FlowsReached(s4) == {"f"};
    assert FindOption(OneFlow.initialOptions, Pending(s4.selections, {"f"}, "f")) == -1;
  }

  lemma ShareBounds(t: nat, t': nat, n: nat)
    requires 0 < n && t <= t'
    ensures 0.0 <= t as real / n as real <= t' as real / n as real
    ensures t' <= n ==> t' as real / n as real <= 1.0
  {
  }

  /** In every valid state where the handlers can run, progress is a number
      between 10 and 100, and the flow phase stays at or below 80, under the
      summary's 90. */
  lemma ProgressBounds(tax: Taxonomy, s: NavState)
    requires ValidState(tax, s) && NextEnabled(tax, s)
    ensures Progress(tax, s).Finite?
    ensures 10.0 <= Progress(tax, s).value <= 100.0
    ensures s.phase == InFlow ==> Progress(tax, s).value <= 80.0
  {
    if s.phase == InFlow {
      var ids := FlowIds(tax.flows);
      assert FlowsReached(s) <= ids;
      SubsetCard(FlowsReached(s), ids);
      ShareBounds(|FlowsReached(s)|, |FlowsReached(s)|, |ids|);
    }
  }

  lemma SubsetCard(a: set<string>, b: set<string>)
    requires a <= b
    ensures |a| <= |b|
  {
    assert b == a + (b - a);
  }

  /** In the flow phase, Next either stays in the current flow with the same
      completed flows, or runs `navigateToNextFlow`. */
  lemma NextInFlowShape(tax: Taxonomy, s: NavState)
    requires s.phase == InFlow && StepExists(tax, s)
    ensures var r := AfterNext(tax, s);
      (r.phase == InFlow && r.currentFlow == s.currentFlow && r.completedFlows == s.completedFlows)
      || r == AfterFlowDone(tax, s.(showingAfterSelection := false))
  {
    if !s.showingAfterSelection {
      assert s.(showingAfterSelection := false) == s;
    }
  }

  lemma FlowDoneProgress(tax: Taxonomy, s: NavState)
    requires ValidState(tax, s) && s.phase == InFlow && s.currentFlow.value in FlowIds(tax.flows)
    ensures AtMost(Progress(tax, s), Progress(tax, AfterFlowDone(tax, s)))
  {
    var r := AfterFlowDone(tax, s);
    var n := |FlowIds(tax.flows)|;
    assert s.currentFlow.value in FlowIds(tax.flows);
    assert FlowsReached(s) <= FlowIds(tax.flows);
    SubsetCard(FlowsReached(s), FlowIds(tax.flows));
    FlowDone(tax, s);
    if r.phase == InFlow {
      assert FlowsReached(s) <= FlowsReached(r);
      SubsetCard(FlowsReached(s), FlowsReached(r));
      ShareBounds(|FlowsReached(s)|, |FlowsReached(r)|, n);
    } else {
      ShareBounds(|FlowsReached(s)|, |FlowsReached(s)|, n);
    }
  }

  /** Next never lowers the progress (counted once). */
  lemma ProgressMonotone(tax: Taxonomy, s: NavState)
    requires ValidState(tax, s) && NextEnabled(tax, s)
    ensures AtMost(Progress(tax, s), Progress(tax, AfterNext(tax, s)))
  {
    var r := AfterNext(tax, s);
    var n := |FlowIds(tax.flows)|;
    match s.phase {
      case Initial =>
        if r.phase == InFlow && n > 0 {
          ShareBounds(0, |FlowsReached(r)|, n);
        }
      case InFlow =>
        ProgressBounds(tax, s);
        NextInFlowShape(tax, s);
        FlowDoneProgress(tax, s.(showingAfterSelection := false));
      case Summary =>
      case Complete =>
    }
  }

  /** A click on an option box passes the `isMultiple` it was rendered with: a
      step that sets `allow_multiple` to false keeps exactly the clicked option;
      the initial dialogue and every other step flip it and keep the rest. */
  lemma ClickedSelection(tax: Taxonomy, s: NavState, id: string)
    requires SelectEnabled(tax, s)
    ensures var key := CurrentKey(tax, s);
      var after := AfterSelect(tax, s, id, ClickIsMultiple(tax, s)).selections;
      if s.phase == InFlow && CurrentFlowData(tax, s).steps[s.stepIndex].allowMultiple == Some(false)
      then forall x :: IsSelected(after, key, x) <==> x == id
      else (IsSelected(after, key, id) <==> !IsSelected(s.selections, key, id))
           && forall x :: x != id ==> (IsSelected(after, key, x) <==> IsSelected(s.selections, key, x))
  {
    SelectSingle(s.selections, CurrentKey(tax, s), id);
    SelectMultiple(s.selections, CurrentKey(tax, s), id);
  }

  // ---------------------------------------------------------------------------
  // The component

  /** The state cells of the goal-setting component over a fixed taxonomy. */
  class GoalSettingFlow {
    const tax: Taxonomy
    var currentStep: Phase
    var currentFlow: Option<string>
    var currentStepIndex: int
    var selectedOptions: Selections
    var completedFlows: set<string>
    var showingAfterSelection: bool
    var finalSelections: seq<Selection>

    function State(): NavState
      reads this
    {
      NavState(currentStep, currentFlow, currentStepIndex, selectedOptions, completedFlows,
               showingAfterSelection, finalSelections)
    }

    ghost predicate Valid()
      reads this
    {
      ValidState(tax, State())
    }

    constructor(tax: Taxonomy)
      ensures this.tax == tax && State() == Start && Valid()
    {
      this.tax := tax;
      currentStep := Initial;
      currentFlow := None;
      currentStepIndex := 0;
      selectedOptions := [];
      completedFlows := {};
      showingAfterSelection := false;
      finalSelections := [];
    }

    method HandleOptionSelect(optionId: string, isMultiple: bool)
      requires Valid() && SelectEnabled(tax, State())
      modifies this
      ensures State() == AfterSelect(tax, old(State()), optionId, isMultiple)
      ensures Valid()
    {
      SelectPreservesValid(tax, State(), optionId, isMultiple);
      var stepKey := if currentStep == Initial then InitialKey else StepKey(currentFlow.value, currentStepIndex);
      selectedOptions := SelectAt(selectedOptions, stepKey, optionId, isMultiple);
    }

    /** The `onClick` of a rendered option box. */
    method ClickOption(optionId: string)
      requires Valid() && SelectEnabled(tax, State())
      modifies this
      ensures Valid() && State() == AfterSelect(tax, old(State()), optionId, ClickIsMultiple(tax, old(State())))
    {
      var isMultiple := true;
      if currentStep != Initial {
        var stepData := LookupFlow(tax.flows, currentFlow.value).value.steps[currentStepIndex];
        isMultiple := stepData.allowMultiple != Some(false);
      }
      HandleOptionSelect(optionId, isMultiple);
    }

    method NavigateToNextFlow()
      requires Valid() && currentStep == InFlow && StepExists(tax, State())
      modifies this
      ensures State() == AfterFlowDone(tax, old(State()))
      ensures Valid()
    {
      ghost var s0 := State();
      var current := currentFlow.value;
      var newCompletedFlows := completedFlows + {current};
      completedFlows := newCompletedFlows;
      assert State() == s0.(completedFlows := newCompletedFlows);
      var k := FindOption(tax.initialOptions, Pending(selectedOptions, newCompletedFlows, current));
      if k >= 0 && Truthy(tax.initialOptions[k].nextFlow) {
        currentFlow := tax.initialOptions[k].nextFlow;
        currentStepIndex := 0;
        showingAfterSelection := false;
      } else {
        finalSelections := Collect(tax, selectedOptions);
        currentStep := Summary;
      }
      FlowDonePreservesValid(tax, s0);
    }

    method HandleNext()
      requires Valid() && NextEnabled(tax, State())
      modifies this
      ensures State() == AfterNext(tax, old(State()))
      ensures Valid()
    {
      ghost var s0 := State();
      if currentStep == Initial {
        var k := FindOption(tax.initialOptions, Chosen(selectedOptions, InitialKey));
        if k >= 0 && Truthy(tax.initialOptions[k].nextFlow) {
          currentFlow := tax.initialOptions[k].nextFlow;
          currentStepIndex := 0;
          showingAfterSelection := false;
          currentStep := InFlow;
        }
      } else if currentStep == InFlow {
        var flowData := LookupFlow(tax.flows, currentFlow.value).value;
        var stepData := flowData.steps[currentStepIndex];
        if showingAfterSelection {
          LeaveConfirmation();
        } else if Truthy(stepData.afterSelection) && currentStepIndex == 0 {
          showingAfterSelection := true;
        } else if currentStepIndex > 0 {
          NextDetailStep();
        } else if currentStepIndex < |flowData.steps| - 1 {
          currentStepIndex := currentStepIndex + 1;
        } else {
          NavigateToNextFlow();
        }
      } else if currentStep == Summary {
        currentStep := Complete;
      }
      NextPreservesValid(tax, s0);
    }

    /** The part of `handleNext` that leaves the after-selection confirmation. */
    method LeaveConfirmation()
      requires Valid() && currentStep == InFlow && StepExists(tax, State()) && showingAfterSelection
      modifies this
      ensures State() == AfterConfirmation(tax, old(State()))
    {
      ghost var s0 := State();
      var flowData := LookupFlow(tax.flows, currentFlow.value).value;
      var stepData := flowData.steps[currentStepIndex];
      var stepKey := StepKey(currentFlow.value, currentStepIndex);
      assert flowData == CurrentFlowData(tax, s0);
      showingAfterSelection := false;
      ghost var s1 := State();
      assert s1 == s0.(showingAfterSelection := false);
      var k := FindOption(stepData.options, ChosenBranch(selectedOptions, stepKey));
      if k >= 0 {
        var nextStepIndex := StepIndexOf(flowData.steps, stepData.options[k].nextStep.value);
        if nextStepIndex != -1 {
          currentStepIndex := nextStepIndex;
          return;
        }
      }
      if currentStepIndex < |flowData.steps| - 1 {
        currentStepIndex := currentStepIndex + 1;
      } else {
        NavigateToNextFlow();
      }
    }

    /** The part of `handleNext` that leaves a detail step (index above 0): on
        to the step of the next selected branch, else to the next flow. */
    method NextDetailStep()
      requires Valid() && currentStep == InFlow && StepExists(tax, State()) && currentStepIndex > 0
      modifies this
      ensures State() == AfterDetail(tax, old(State()))
    {
      ghost var s0 := State();
      var flowData := LookupFlow(tax.flows, currentFlow.value).value;
      assert flowData == CurrentFlowData(tax, s0);
      var stepData := flowData.steps[currentStepIndex];
      var mainStepKey := StepKey(currentFlow.value, 0);
      var subcategories := Filter(flowData.steps[0].options, ChosenBranch(selectedOptions, mainStepKey));
      var c := FindOption(subcategories, LeadsTo(stepData.id));
      if c != -1 && c < |subcategories| - 1 {
        assert subcategories[c + 1] in subcategories;
        var nextStepIndex := StepIndexOf(flowData.steps, subcategories[c + 1].nextStep.value);
        if nextStepIndex != -1 {
          currentStepIndex := nextStepIndex;
          return;
        }
      }
      NavigateToNextFlow();
    }

    method HandleBack()
      requires Valid() && BackEnabled(tax, State())
      modifies this
      ensures State() == AfterBack(tax, old(State()))
      ensures Valid()
    {
      ghost var s0 := State();
      if currentStep == InFlow {
        if showingAfterSelection {
          showingAfterSelection := false;
        } else if currentStepIndex > 0 {
          currentStepIndex := currentStepIndex - 1;
        } else {
          currentStep := Initial;
          currentFlow := None;
        }
      } else if currentStep == Summary {
        var k := FindLastOption(tax.initialOptions, Chosen(selectedOptions, InitialKey));
        if k >= 0 && Truthy(tax.initialOptions[k].nextFlow) {
          var lastFlow := tax.initialOptions[k].nextFlow.value;
          currentFlow := Some(lastFlow);
          var flowData := LookupFlow(tax.flows, lastFlow).value;
          currentStepIndex := |flowData.steps| - 1;
          showingAfterSelection := false;
          currentStep := InFlow;
        }
      }
      assert State() == AfterBack(tax, s0);
      BackPreservesValid(tax, s0);
    }
  }
}
