/** The part of the node-editor graph that prompt building reads, as plain
    tables: nodes with typed inputs and widgets, links by id, and the two
    lookups `getInputLink` / `getInputNode` a node answers about its inputs. */
module Graphs {
  import opened Wrappers
  import opened Values

  /** Execution modes that keep a node out of the request. */
  const NEVER: int := 2
  const BYPASS: int := 4

  /** An input slot: its name, its declared type and the id of the link plugged into it. */
  datatype Input = Input(name: string, typ: string, link: Option<int>)

  /** A widget; `serializeFalse` is `options.serialize === false`. */
  datatype Widget = Widget(name: string, value: Json, serializeFalse: bool)

  /** A node; `inner` is what `getInnerNodes()` returns, for nodes that have it. */
  datatype Node = Node(
    id: int,
    mode: int,
    isVirtual: bool,
    comfyClass: string,
    title: string,
    inputs: seq<Input>,
    widgets: seq<Widget>,
    inner: Option<seq<Node>>)

  datatype Link = Link(id: int, originId: int, originSlot: nat, targetId: int, targetSlot: nat)

  datatype Graph = Graph(nodes: map<int, Node>, links: map<int, Link>)

  /** Mode NEVER or BYPASS. */
  predicate Skipped(n: Node) {
    n.mode == NEVER || n.mode == BYPASS
  }

  /** A node the resolution loop looks through rather than stops at. */
  predicate Forwards(n: Node) {
    n.mode == BYPASS || n.isVirtual
  }

  /** `n.getInputLink(slot)`: the link plugged into that input, if it exists. */
  function InputLink(g: Graph, n: Node, slot: nat): Option<Link> {
    if slot < |n.inputs| && n.inputs[slot].link.Some? && n.inputs[slot].link.value in g.links
    then Some(g.links[n.inputs[slot].link.value])
    else None
  }

  /** `n.getInputNode(slot)`: the node at the origin of that input's link, if it exists. */
  function InputNode(g: Graph, n: Node, slot: nat): Option<Node> {
    match InputLink(g, n, slot)
    case None => None
    case Some(l) => if l.originId in g.nodes then Some(g.nodes[l.originId]) else None
  }

  /** Every link plugged into an input of a node of the table names that input as its target slot. */
  ghost predicate TargetSlotsAgree(g: Graph) {
    forall id, s :: id in g.nodes && 0 <= s < |g.nodes[id].inputs| ==>
      match InputLink(g, g.nodes[id], s)
      case None => true
      case Some(l) => l.targetSlot == s
  }
}
