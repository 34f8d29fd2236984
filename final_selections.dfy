/** The selection accumulator of the goal-setting flow (`collectFinalSelections`):
    it walks every recorded step key and every option selected there, keeps the
    options of detail steps and the goal-eligible options of main steps, and
    de-duplicates them by id, the first occurrence winning. */
module FinalSelections {
  import opened Common
  import opened Taxonomy
  import opened StepKeys

  /** One record of the final selection list. */
  datatype Selection = Selection(id: string, name: string, shortDescription: string)

  /** `selectedOptions`: step key -> (option id -> selected flag), both objects in
      insertion order. */
  type Selections = Object<Object<bool>>

  const NoDescription: string := "No description available"

  /** The record built for a selected option: name falls back to text, then to the
      id; description falls back to the definition, then to a fixed text. */
  function SelectionOf(id: string, o: OptionData): (r: Selection)
    ensures r.id == id
    ensures r.name == if Truthy(o.name) then o.name.value else if Truthy(o.text) then o.text.value else id
    ensures id != "" ==> r.name != ""
    ensures r.shortDescription != ""
    ensures r.shortDescription ==
      if Truthy(o.shortDescription) then o.shortDescription.value
      else if Truthy(o.definition) then o.definition.value
      else NoDescription
  {
    Selection(id, OrElse(o.name, OrElse(o.text, id)),
              OrElse(o.shortDescription, OrElse(o.definition, NoDescription)))
  }

  /** `flows[flowId]?.steps[index]`. */
  function StepAt(tax: Taxonomy, flowId: string, index: nat): Option<Step>
  {
    match LookupFlow(tax.flows, flowId)
    case None => None
    case Some(f) => if index < |f.steps| then Some(f.steps[index]) else None
  }

  /** What one `(optionId, flag)` property recorded under `key` contributes, before
      de-duplication: nothing, or the record of that option. */
  function EntryCandidate(tax: Taxonomy, key: string, e: (string, bool)): (r: seq<Selection>)
    ensures |r| <= 1 && (r != [] ==> r[0].id == e.0)
  {
    if !e.1 then []
    else
      match ParseStepKey(key)
      case None => []
      case Some((flowId, index)) =>
        match StepAt(tax, flowId, index)
        case None => []
        case Some(step) =>
          var k := OptionIndex(step.options, e.0);
          if k >= 0 && (index > 0 || step.options[k].goalSetting)
          then [SelectionOf(e.0, step.options[k])]
          else []
  }

  function EntriesCandidates(tax: Taxonomy, key: string, entries: Object<bool>): seq<Selection>
  {
    if entries == [] then []
    else EntriesCandidates(tax, key, entries[..|entries| - 1])
         + EntryCandidate(tax, key, entries[|entries| - 1])
  }

  /** The `initial` and `summary` keys contribute nothing. */
  function KeyCandidates(tax: Taxonomy, key: string, entries: Object<bool>): seq<Selection>
  {
    if key == InitialKey || key == SummaryKey then []
    else EntriesCandidates(tax, key, entries)
  }

  /** Every record the accumulator would push, in visiting order, duplicates kept. */
  function Candidates(tax: Taxonomy, sel: Selections): seq<Selection>
  {
    if sel == [] then []
    else Candidates(tax, sel[..|sel| - 1])
         + KeyCandidates(tax, sel[|sel| - 1].0, sel[|sel| - 1].1)
  }

  /** `xs.some(s => s.id === id)`. */
  predicate HasId(xs: seq<Selection>, id: string)
  {
    exists k | 0 <= k < |xs| :: xs[k].id == id
  }

  ghost predicate UniqueIds(xs: seq<Selection>)
  {
    forall i, j :: 0 <= i < j < |xs| ==> xs[i].id != xs[j].id
  }

  /** Push each record unless one with the same id is already there. */
  function Dedup(xs: seq<Selection>): seq<Selection>
  {
    if xs == [] then []
    else
      var d := Dedup(xs[..|xs| - 1]);
      if HasId(d, xs[|xs| - 1].id) then d else d + [xs[|xs| - 1]]
  }

  /** The index of the first record with this id, or -1. */
  function FirstIndexOfId(xs: seq<Selection>, id: string): (r: int)
    ensures -1 <= r < |xs|
    ensures r == -1 <==> !HasId(xs, id)
    ensures r >= 0 ==> xs[r].id == id && forall k :: 0 <= k < r ==> xs[k].id != id
  {
    if xs == [] then -1
    else if xs[0].id == id then 0
    else
      var r := FirstIndexOfId(xs[1..], id);
      assert HasId(xs, id) ==> xs[0].id == id || HasId(xs[1..], id) by {
        if HasId(xs, id) {
          var k :| 0 <= k < |xs| && xs[k].id == id;
          if k > 0 { assert xs[1..][k - 1].id == id; }
        }
      }
      if r == -1 then -1 else r + 1
  }

  lemma HasIdAppend(a: seq<Selection>, x: Selection, id: string)
    ensures HasId(a + [x], id) <==> HasId(a, id) || x.id == id
  {
    if HasId(a, id) {
      var k :| 0 <= k < |a| && a[k].id == id;
      assert (a + [x])[k].id == id;
    }
    if x.id == id {
      assert (a + [x])[|a|].id == id;
    }
    if HasId(a + [x], id) {
      var k :| 0 <= k < |a + [x]| && (a + [x])[k].id == id;
      if k < |a| { assert a[k].id == id; }
    }
  }

  /** De-duplication keeps exactly the ids it was given. */
  lemma {:induction false} DedupIds(xs: seq<Selection>)
    ensures forall id :: HasId(Dedup(xs), id) <==> HasId(xs, id)
  {
    if xs != [] {
      var init, x := xs[..|xs| - 1], xs[|xs| - 1];
      assert xs == init + [x];
      DedupIds(init);
      forall id
        ensures HasId(Dedup(xs), id) <==> HasId(xs, id)
      {
        HasIdAppend(init, x, id);
        HasIdAppend(Dedup(init), x, id);
      }
    }
  }

  /** The result never holds two records with the same id. */
  lemma {:induction false} DedupUnique(xs: seq<Selection>)
    ensures UniqueIds(Dedup(xs))
  {
    if xs != [] {
      var init, x := xs[..|xs| - 1], xs[|xs| - 1];
      DedupUnique(init);
      var d := Dedup(init);
      if !HasId(d, x.id) {
        forall i | 0 <= i < |d|
          ensures d[i].id != x.id
        {
        }
      }
    }
  }

  lemma FirstIndexAppend(init: seq<Selection>, x: Selection, id: string)
    ensures HasId(init, id) ==> FirstIndexOfId(init + [x], id) == FirstIndexOfId(init, id)
    ensures !HasId(init, id) && x.id == id ==> FirstIndexOfId(init + [x], id) == |init|
  {
    var xs := init + [x];
    assert forall k :: 0 <= k < |init| ==> xs[k] == init[k];
    assert xs[|init|] == x;
  }

  /** The first occurrence wins: every kept record is the first record with its id,
      and kept records are in the order of those first occurrences. */
  lemma {:induction false} DedupFirstWins(xs: seq<Selection>)
    ensures forall k :: 0 <= k < |Dedup(xs)| ==>
      FirstIndexOfId(xs, Dedup(xs)[k].id) >= 0 && xs[FirstIndexOfId(xs, Dedup(xs)[k].id)] == Dedup(xs)[k]
    ensures forall k, k' :: 0 <= k < k' < |Dedup(xs)| ==>
      FirstIndexOfId(xs, Dedup(xs)[k].id) < FirstIndexOfId(xs, Dedup(xs)[k'].id)
  {
    if xs != [] {
      var init, x := xs[..|xs| - 1], xs[|xs| - 1];
      assert xs == init + [x];
      DedupFirstWins(init);
      DedupIds(init);
      var d := Dedup(init);
      forall k | 0 <= k < |d|
        ensures FirstIndexOfId(xs, d[k].id) == FirstIndexOfId(init, d[k].id) < |init|
      {
        assert HasId(d, d[k].id);
        FirstIndexAppend(init, x, d[k].id);
      }
      if HasId(d, x.id) {
        assert Dedup(xs) == d;
      } else {
        assert Dedup(xs) == d + [x];
        FirstIndexAppend(init, x, x.id);
        assert FirstIndexOfId(xs, x.id) == |init|;
      }
    }
  }

  /** A record is kept for a selected option exactly when the key names an
      existing step of an existing flow, the option is found in that step, and the
      step is a detail step (index above 0) or the option is goal-eligible. */
  lemma EntryCandidateAtStep(tax: Taxonomy, flow: string, index: nat, id: string, on: bool)
    ensures var key := StepKey(flow, index);
      match StepAt(tax, flow, index)
      case None => EntryCandidate(tax, key, (id, on)) == []
      case Some(step) =>
        var k := OptionIndex(step.options, id);
        EntryCandidate(tax, key, (id, on))
          == if on && k >= 0 && (index > 0 || step.options[k].goalSetting)
             then [SelectionOf(id, step.options[k])] else []
  {
    StepKeyRoundTrip(flow, index);
  }

  ghost predicate Kept(tax: Taxonomy, key: string, e: (string, bool))
  {
    key != InitialKey && key != SummaryKey && EntryCandidate(tax, key, e) != []
  }

  lemma HasIdConcat(a: seq<Selection>, b: seq<Selection>, id: string)
    ensures HasId(a + b, id) <==> HasId(a, id) || HasId(b, id)
  {
    if HasId(a, id) {
      var k :| 0 <= k < |a| && a[k].id == id;
      assert (a + b)[k].id == id;
    }
    if HasId(b, id) {
      var k :| 0 <= k < |b| && b[k].id == id;
      assert (a + b)[|a| + k].id == id;
    }
    if HasId(a + b, id) {
      var k :| 0 <= k < |a + b| && (a + b)[k].id == id;
      if k < |a| { assert a[k].id == id; } else { assert b[k - |a|].id == id; }
    }
  }

  /** Records of several parts, one part after the other. */
  function Concat(parts: seq<seq<Selection>>): seq<Selection>
  {
    if parts == [] then [] else Concat(parts[..|parts| - 1]) + parts[|parts| - 1]
  }

  lemma {:induction false} ConcatIds(parts: seq<seq<Selection>>, id: string)
    ensures HasId(Concat(parts), id) <==> exists i :: 0 <= i < |parts| && HasId(parts[i], id)
  {
    if parts != [] {
      var init, last := parts[..|parts| - 1], parts[|parts| - 1];
      ConcatIds(init, id);
      HasIdConcat(Concat(init), last, id);
      if exists i :: 0 <= i < |parts| && HasId(parts[i], id) {
        var i :| 0 <= i < |parts| && HasId(parts[i], id);
        if i < |init| { assert init[i] == parts[i]; }
      }
      if exists i :: 0 <= i < |init| && HasId(init[i], id) {
        var i :| 0 <= i < |init| && HasId(init[i], id);
        assert parts[i] == init[i];
      }
    }
  }

  function EntryParts(tax: Taxonomy, key: string, entries: Object<bool>): (r: seq<seq<Selection>>)
    ensures |r| == |entries| && forall j :: 0 <= j < |entries| ==> r[j] == EntryCandidate(tax, key, entries[j])
  {
    if entries == [] then []
    else EntryParts(tax, key, entries[..|entries| - 1]) + [EntryCandidate(tax, key, entries[|entries| - 1])]
  }

  lemma {:induction false} EntriesAsConcat(tax: Taxonomy, key: string, entries: Object<bool>)
    ensures EntriesCandidates(tax, key, entries) == Concat(EntryParts(tax, key, entries))
  {
    if entries != [] {
      EntriesAsConcat(tax, key, entries[..|entries| - 1]);
      assert EntryParts(tax, key, entries)[..|entries| - 1] == EntryParts(tax, key, entries[..|entries| - 1]);
    }
  }

  lemma CandidateHasId(c: seq<Selection>, e: (string, bool), id: string)
    requires |c| <= 1 && (c != [] ==> c[0].id == e.0)
    ensures HasId(c, id) <==> c != [] && e.0 == id
  {
    if c != [] && e.0 == id {
      assert c[0].id == id;
    }
  }

  lemma EntriesIds(tax: Taxonomy, key: string, entries: Object<bool>, id: string)
    ensures HasId(EntriesCandidates(tax, key, entries), id) <==>
      exists j :: 0 <= j < |entries| && entries[j].0 == id && EntryCandidate(tax, key, entries[j]) != []
  {
    var parts := EntryParts(tax, key, entries);
    EntriesAsConcat(tax, key, entries);
    ConcatIds(parts, id);
    forall j | 0 <= j < |entries|
      ensures HasId(parts[j], id) <==> entries[j].0 == id && EntryCandidate(tax, key, entries[j]) != []
    {
      CandidateHasId(parts[j], entries[j], id);
    }
  }

  function KeyParts(tax: Taxonomy, sel: Selections): (r: seq<seq<Selection>>)
    ensures |r| == |sel| && forall i :: 0 <= i < |sel| ==> r[i] == KeyCandidates(tax, sel[i].0, sel[i].1)
  {
    if sel == [] then []
    else KeyParts(tax, sel[..|sel| - 1]) + [KeyCandidates(tax, sel[|sel| - 1].0, sel[|sel| - 1].1)]
  }

  lemma {:induction false} CandidatesAsConcat(tax: Taxonomy, sel: Selections)
    ensures Candidates(tax, sel) == Concat(KeyParts(tax, sel))
  {
    if sel != [] {
      CandidatesAsConcat(tax, sel[..|sel| - 1]);
      assert KeyParts(tax, sel)[..|sel| - 1] == KeyParts(tax, sel[..|sel| - 1]);
    }
  }

  lemma KeysIds(tax: Taxonomy, sel: Selections, id: string)
    ensures HasId(Candidates(tax, sel), id) <==>
      exists i :: 0 <= i < |sel| && HasId(KeyCandidates(tax, sel[i].0, sel[i].1), id)
  {
    CandidatesAsConcat(tax, sel);
    ConcatIds(KeyParts(tax, sel), id);
  }

  /** Before de-duplication, an id is collected exactly when some step key (other
      than the two reserved ones) records that option as selected and kept. */
  lemma CandidateIds(tax: Taxonomy, sel: Selections, id: string)
    ensures HasId(Candidates(tax, sel), id) <==>
      exists i, j :: 0 <= i < |sel| && 0 <= j < |sel[i].1| && sel[i].1[j].0 == id && Kept(tax, sel[i].0, sel[i].1[j])
  {
    KeysIds(tax, sel, id);
    forall i | 0 <= i < |sel|
      ensures HasId(KeyCandidates(tax, sel[i].0, sel[i].1), id) <==>
        exists j :: 0 <= j < |sel[i].1| && sel[i].1[j].0 == id && Kept(tax, sel[i].0, sel[i].1[j])
    {
      EntriesIds(tax, sel[i].0, sel[i].1, id);
    }
  }

  lemma DedupAppend(xs: seq<Selection>, c: seq<Selection>)
    requires |c| <= 1
    ensures Dedup(xs + c) == if c == [] || HasId(Dedup(xs), c[0].id) then Dedup(xs) else Dedup(xs) + c
  {
    if c == [] {
      assert xs + c == xs;
    } else {
      assert (xs + c)[..|xs + c| - 1] == xs;
    }
  }

  lemma EntriesPrefix(tax: Taxonomy, pre: seq<Selection>, key: string, entries: Object<bool>, j: nat)
    requires j < |entries|
    ensures pre + EntriesCandidates(tax, key, entries[..j + 1])
         == (pre + EntriesCandidates(tax, key, entries[..j])) + EntryCandidate(tax, key, entries[j])
  {
    assert entries[..j + 1][..j] == entries[..j];
  }

  /** The body of the inner loop: find the option in its step and decide whether
      it is kept. */
  method LookUpEntry(tax: Taxonomy, key: string, parsed: Option<(string, nat)>, flowData: Option<Flow>,
                     e: (string, bool)) returns (found: seq<Selection>)
    requires parsed == ParseStepKey(key)
    requires flowData == if parsed.Some? then LookupFlow(tax.flows, parsed.value.0) else None
    ensures found == EntryCandidate(tax, key, e)
    ensures |found| <= 1
  {
    found := [];
    var optionId, on := e.0, e.1;
    if on && parsed.Some? && flowData.Some? && parsed.value.1 < |flowData.value.steps| {
      var index := parsed.value.1;
      var stepData := flowData.value.steps[index];
      var k := OptionIndex(stepData.options, optionId);
      if k >= 0 && (index > 0 || stepData.options[k].goalSetting) {
        found := [SelectionOf(optionId, stepData.options[k])];
      }
    }
  }

  /** The inner `forEach` over the options recorded under one step key: push
      each kept record whose id is not already in the list. */
  method CollectEntries(tax: Taxonomy, key: string, entries: Object<bool>,
                        r0: seq<Selection>, ghost done: seq<Selection>) returns (r: seq<Selection>)
    requires r0 == Dedup(done)
    ensures r == Dedup(done + EntriesCandidates(tax, key, entries))
  {
    r := r0;
    var parsed := ParseStepKey(key);
    var flowData := if parsed.Some? then LookupFlow(tax.flows, parsed.value.0) else None;
    var j := 0;
    assert done + EntriesCandidates(tax, key, entries[..0]) == done;
    while j < |entries|
      invariant 0 <= j <= |entries|
      invariant r == Dedup(done + EntriesCandidates(tax, key, entries[..j]))
    {
      var found := LookUpEntry(tax, key, parsed, flowData, entries[j]);
      EntriesPrefix(tax, done, key, entries, j);
      DedupAppend(done + EntriesCandidates(tax, key, entries[..j]), found);
      if found != [] && !HasId(r, found[0].id) {
        r := r + found;
      }
      j := j + 1;
    }
    assert entries[..j] == entries;
  }

  lemma CandidatesPrefix(tax: Taxonomy, sel: Selections, i: nat)
    requires i < |sel|
    ensures Candidates(tax, sel[..i + 1]) == Candidates(tax, sel[..i]) + KeyCandidates(tax, sel[i].0, sel[i].1)
    ensures sel[i].0 == InitialKey || sel[i].0 == SummaryKey ==> KeyCandidates(tax, sel[i].0, sel[i].1) == []
  {
    assert sel[..i + 1][..i] == sel[..i] && sel[..i + 1][i] == sel[i];
  }

  /** `collectFinalSelections`, run synchronously on the current selections. */
  method Collect(tax: Taxonomy, sel: Selections) returns (r: seq<Selection>)
    ensures r == Dedup(Candidates(tax, sel))
    ensures UniqueIds(r)
    ensures forall id :: HasId(r, id) <==> HasId(Candidates(tax, sel), id)
  {
    r := [];
    var i := 0;
    while i < |sel|
      invariant 0 <= i <= |sel|
      invariant r == Dedup(Candidates(tax, sel[..i]))
    {
      var key, entries := sel[i].0, sel[i].1;
      ghost var done := Candidates(tax, sel[..i]);
      CandidatesPrefix(tax, sel, i);
      if key != InitialKey && key != SummaryKey {
        r := CollectEntries(tax, key, entries, r, done);
      } else {
        assert done + [] == done;
      }
      i := i + 1;
    }
    assert sel[..i] == sel;
    DedupUnique(Candidates(tax, sel));
    DedupIds(Candidates(tax, sel));
  }
}
