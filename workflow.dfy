/** The serialised workflow half of `graphToPrompt`'s result: the pass that
    removes `localized_name` from every input and output slot of every node
    (js/utils.js:29-36), and the whole function as the two passes together. */
module Workflow {
  import opened Wrappers
  import opened Values
  import opened Graphs
  import opened Prompt

  /** A serialised slot: an object with named fields. */
  type SlotObject = map<string, Json>

  const LOCALIZED_NAME: string := "localized_name"

  /** A serialised node: its slot lists (absent when the node has none) and its other fields. */
  datatype SerializedNode = SerializedNode(
    fields: map<string, Json>,
    inputs: Option<seq<SlotObject>>,
    outputs: Option<seq<SlotObject>>)

  /** `b` is `a` without `localized_name`, every other field as it was. */
  predicate StrippedSlot(a: SlotObject, b: SlotObject) {
    && LOCALIZED_NAME !in b
    && (forall f :: f in a && f != LOCALIZED_NAME ==> f in b && b[f] == a[f])
    && (forall f :: f in b ==> f in a)
  }

  predicate StrippedSlots(a: Option<seq<SlotObject>>, b: Option<seq<SlotObject>>) {
    match a
    case None => b.None?
    case Some(s) => b.Some? && |b.value| == |s| && forall j :: 0 <= j < |s| ==> StrippedSlot(s[j], b.value[j])
  }

  predicate StrippedNode(a: SerializedNode, b: SerializedNode) {
    b.fields == a.fields && StrippedSlots(a.inputs, b.inputs) && StrippedSlots(a.outputs, b.outputs)
  }

  /** Stripping leaves exactly one possible slot, and stripping it again changes nothing. */
  lemma StrippedSlotDetermined(a: SlotObject, b: SlotObject, c: SlotObject)
    requires StrippedSlot(a, b) && StrippedSlot(a, c)
    ensures b == c
    ensures StrippedSlot(b, b)
  {
    assert b.Keys == c.Keys;
  }

  /** One `for (const slot of ...) delete slot.localized_name` loop. */
  method StripSlots(slots: seq<SlotObject>) returns (r: seq<SlotObject>)
    ensures |r| == |slots|
    ensures forall j :: 0 <= j < |r| ==> StrippedSlot(slots[j], r[j])
  {
    r := slots;
    var j := 0;
    while j < |r|
      invariant j <= |r| == |slots|
      invariant forall k :: 0 <= k < j ==> StrippedSlot(slots[k], r[k])
      invariant forall k :: j <= k < |r| ==> r[k] == slots[k]
    {
      r := r[j := r[j] - {LOCALIZED_NAME}];
      j := j + 1;
    }
  }

  /** Both slot loops of one node; `node.inputs || []` leaves a node without slots alone. */
  method StripNode(n: SerializedNode) returns (m: SerializedNode)
    ensures StrippedNode(n, m)
  {
    m := n;
    if n.inputs.Some? {
      var ins := StripSlots(n.inputs.value);
      m := m.(inputs := Some(ins));
    }
    if n.outputs.Some? {
      var outs := StripSlots(n.outputs.value);
      m := m.(outputs := Some(outs));
    }
  }

  /** The pass over `workflow.nodes`, in place. */
  method StripLocalizedNames(nodes: array<SerializedNode>)
    modifies nodes
    ensures forall j :: 0 <= j < nodes.Length ==> StrippedNode(old(nodes[j]), nodes[j])
  {
    var j := 0;
    while j < nodes.Length
      invariant j <= nodes.Length
      invariant forall k :: 0 <= k < j ==> StrippedNode(old(nodes[k]), nodes[k])
      invariant forall k :: j <= k < nodes.Length ==> nodes[k] == old(nodes[k])
    {
      var stripped := StripNode(nodes[j]);
      nodes[j] := stripped;
      j := j + 1;
    }
  }

  /** `graphToPrompt(graph, clean)`: `workflow` is what `graph.serialize()`
      returned; it is stripped in place, and the request is built from the graph. */
  method GraphToPrompt(g: Graph, order: seq<Node>, workflow: array<SerializedNode>, clean: bool, fuel: nat)
    returns (output: Result<map<string, NodeData>, Abort>)
    modifies workflow
    ensures forall j :: 0 <= j < workflow.Length ==> StrippedNode(old(workflow[j]), workflow[j])
    ensures BuildFrom(g, Flatten(order), fuel).Failure? ==> output == BuildFrom(g, Flatten(order), fuel)
    ensures BuildFrom(g, Flatten(order), fuel).Success? ==>
              var out := BuildFrom(g, Flatten(order), fuel).value;
              output == Success(if clean then CleanAll(out) else out)
  {
    StripLocalizedNames(workflow);
    output := PromptOutput(g, order, clean, fuel);
  }
}
