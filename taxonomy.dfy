/** The conversation taxonomy document, read-only at run time: flows made of
    ordered steps, steps made of ordered options, and the top-level dialogue whose
    options each lead into one flow. Optional JSON fields are `Option`s. */
module Taxonomy {
  import opened Common

  datatype OptionData = OptionData(
    id: string,
    text: Option<string>,
    name: Option<string>,
    definition: Option<string>,
    shortDescription: Option<string>,
    goalDescription: Option<string>,
    nextStep: Option<string>,   // `next_step`: a step id within the same flow
    nextFlow: Option<string>,   // `next_flow`: on top-level options, a flow id
    goalSetting: bool,          // `goal_setting`
    smartWatch: Option<bool>    // `smart_watch`
  )

  datatype Step = Step(
    id: Option<string>,
    afterSelection: Option<string>,  // `message_after_selection`
    allowMultiple: Option<bool>,     // `allow_multiple`
    options: seq<OptionData>
  )

  datatype Flow = Flow(id: string, title: Option<string>, steps: seq<Step>)

  /** `cafy_conversation_flow`: the flows object in key order, and the options of
      `initial_dialogue`. */
  datatype Taxonomy = Taxonomy(flows: seq<Flow>, initialOptions: seq<OptionData>)
  {
    /** The flows are the properties of one JSON object, so their keys differ. */
    ghost predicate Valid()
    {
      forall i, j :: 0 <= i < j < |flows| ==> flows[i].id != flows[j].id
    }
  }

  /** The keys of the flows object. */
  function FlowIds(flows: seq<Flow>): (r: set<string>)
    ensures forall id :: id in r <==> exists k :: 0 <= k < |flows| && flows[k].id == id
  {
    if flows == [] then {} else {flows[0].id} + FlowIds(flows[1..])
  }

  /** `flows[id]`. */
  function LookupFlow(flows: seq<Flow>, id: string): (r: Option<Flow>)
    ensures r.Some? <==> id in FlowIds(flows)
    ensures r.Some? ==> r.value in flows && r.value.id == id
  {
    if flows == [] then None
    else if flows[0].id == id then Some(flows[0])
    else LookupFlow(flows[1..], id)
  }

  /** `Object.keys(flows).length`: distinct keys make it the number of flows. */
  lemma {:induction false} FlowIdsCount(flows: seq<Flow>)
    requires forall i, j :: 0 <= i < j < |flows| ==> flows[i].id != flows[j].id
    ensures |FlowIds(flows)| == |flows|
  {
    if flows != [] {
      FlowIdsCount(flows[1..]);
      assert flows[0].id !in FlowIds(flows[1..]);
    }
  }

  /** `options.find(opt => opt.id === id)`, as the index of the match or -1. */
  function OptionIndex(options: seq<OptionData>, id: string): (r: int)
    ensures -1 <= r < |options|
    ensures r == -1 <==> forall k :: 0 <= k < |options| ==> options[k].id != id
    ensures r >= 0 ==> options[r].id == id && forall k :: 0 <= k < r ==> options[k].id != id
  {
    if options == [] then -1
    else if options[0].id == id then 0
    else
      var r := OptionIndex(options[1..], id);
      if r == -1 then -1 else r + 1
  }
}
