/** Resolution of one connected input to the node that really produces its
    value: the loop that walks back through bypassed nodes (matching the
    consumer input's type) and through virtual nodes (following their recorded
    input link). The source's loop has no bound; here every hop costs one unit
    of `fuel`, and running out is reported as `OutOfFuel`, standing for the
    source looping forever on a cyclic chain. */
module Resolution {
  import opened Wrappers
  import opened Graphs

  datatype Resolution =
    | Unconnected                          // `getInputNode(i)` is null: nothing is written
    | Reached(link: Link, producer: Node)  // the loop ended: `producer` is neither bypassed nor virtual
    | Stopped(last: Option<Link>)          // the loop broke off because nothing was found
    | Threw                                // a property of null was read: the whole conversion throws
    | OutOfFuel                            // more hops than the fuel allows

  /** One turn of the loop body. */
  datatype Hop = Continue(parent: Node, link: Option<Link>) | Break(link: Option<Link>) | Crash

  /** Whether input `c` of a bypassed node has exactly the consumer input's type. */
  predicate Fits(inputs: seq<Input>, c: nat, ty: string) {
    c < |inputs| && inputs[c].typ == ty
  }

  /** `[link.origin_slot].concat(Object.keys(parent.inputs))`: the slot the link
      leaves from first, then every input index in order. */
  function Candidates(originSlot: nat, count: nat): (cands: seq<nat>)
    ensures |cands| == count + 1 && cands[0] == originSlot
    ensures forall j :: 1 <= j < |cands| ==> cands[j] == j - 1
  {
    [originSlot] + seq(count, (j: int) requires 0 <= j < count => j as nat)
  }

  /** Position of the first candidate from `k` on that fits. */
  function FirstFitFrom(cands: seq<nat>, inputs: seq<Input>, ty: string, k: nat): (r: Option<nat>)
    requires k <= |cands|
    decreases |cands| - k
    ensures r.Some? ==> k <= r.value < |cands| && Fits(inputs, cands[r.value], ty)
    ensures r.Some? ==> forall j :: k <= j < r.value ==> !Fits(inputs, cands[j], ty)
    ensures r.None? ==> forall j :: k <= j < |cands| ==> !Fits(inputs, cands[j], ty)
  {
    if k == |cands| then None
    else if Fits(inputs, cands[k], ty) then Some(k)
    else FirstFitFrom(cands, inputs, ty, k + 1)
  }

  /** The input of a bypassed node its value is forwarded through. */
  function ForwardingInput(inputs: seq<Input>, originSlot: nat, ty: string): Option<nat> {
    var cands := Candidates(originSlot, |inputs|);
    match FirstFitFrom(cands, inputs, ty, 0)
    case None => None
    case Some(k) => Some(cands[k])
  }

  /** The input chosen is the link's own slot when its type matches, otherwise
      the lowest-numbered input of that type; there is none exactly when no
      input has the type. */
  lemma ForwardingInputChoice(inputs: seq<Input>, originSlot: nat, ty: string)
    ensures ForwardingInput(inputs, originSlot, ty).None?
            <==> forall j :: 0 <= j < |inputs| ==> inputs[j].typ != ty
    ensures Fits(inputs, originSlot, ty) ==> ForwardingInput(inputs, originSlot, ty) == Some(originSlot)
    ensures !Fits(inputs, originSlot, ty) && ForwardingInput(inputs, originSlot, ty).Some? ==>
              var c := ForwardingInput(inputs, originSlot, ty).value;
              Fits(inputs, c, ty) && forall j :: 0 <= j < c ==> inputs[j].typ != ty
  {
    var cands := Candidates(originSlot, |inputs|);
    var r := FirstFitFrom(cands, inputs, ty, 0);
    if r.None? {
      forall j | 0 <= j < |inputs| ensures inputs[j].typ != ty {
        assert !Fits(inputs, cands[j + 1], ty);
      }
    } else if r.value > 0 {
      var c := cands[r.value];
      assert c == r.value - 1;
      forall j | 0 <= j < c ensures inputs[j].typ != ty {
        assert !Fits(inputs, cands[j + 1], ty);
      }
    }
  }

  /** The inner `for ... of all_inputs` search, with its `break`. */
  method FindForwardingInput(parent: Node, originSlot: nat, ty: string) returns (c: Option<nat>)
    ensures c == ForwardingInput(parent.inputs, originSlot, ty)
  {
    var cands := Candidates(originSlot, |parent.inputs|);
    var k := 0;
    while k < |cands|
      invariant k <= |cands|
      invariant FirstFitFrom(cands, parent.inputs, ty, k) == FirstFitFrom(cands, parent.inputs, ty, 0)
    {
      if cands[k] < |parent.inputs| && parent.inputs[cands[k]].typ == ty {
        return Some(cands[k]);
      }
      k := k + 1;
    }
    return None;
  }

  /** One turn of the `while (parent.mode === 4 || parent.isVirtualNode)` body;
      `ty` is the consumer input's type. */
  function Step(g: Graph, ty: string, parent: Node, link: Option<Link>): (h: Hop)
    ensures h.Continue? && h.link.None? ==> h.parent == parent && parent.mode == BYPASS && !parent.isVirtual
  {
    if parent.isVirtual then
      if link.None? then Crash
      else
        match InputLink(g, parent, link.value.originSlot)
        case None => Break(None)
        case Some(l) =>
          match InputNode(g, parent, l.targetSlot)
          case None => Break(Some(l))
          case Some(p) => Continue(p, Some(l))
    else if link.Some? && parent.mode == BYPASS then
      match ForwardingInput(parent.inputs, link.value.originSlot, ty)
      case None => Break(link)
      case Some(c) =>
        match InputLink(g, parent, c)
        case None => Continue(parent, None)
        case Some(l) =>
          match InputNode(g, parent, c)
          case None => Crash
          case Some(p) => Continue(p, Some(l))
    else Break(link)
  }

  /** The loop from a given `parent` and `link`, with at most `fuel` turns. */
  function Chase(g: Graph, ty: string, parent: Node, link: Option<Link>, fuel: nat): Resolution
    requires link.Some? || (parent.mode == BYPASS && !parent.isVirtual)
    decreases fuel
  {
    if !Forwards(parent) then Reached(link.value, parent)
    else if fuel == 0 then OutOfFuel
    else
      match Step(g, ty, parent, link)
      case Crash => Threw
      case Break(l) => Stopped(l)
      case Continue(p, l) => Chase(g, ty, p, l, fuel - 1)
  }

  /** Resolution of input `i` of `node`. */
  function Resolve(g: Graph, node: Node, i: nat, fuel: nat): Resolution
    requires i < |node.inputs|
  {
    match InputNode(g, node, i)
    case None => Unconnected
    case Some(p) => Chase(g, node.inputs[i].typ, p, InputLink(g, node, i), fuel)
  }

  /** The loop of js/utils.js:74-111. */
  method ResolveInput(g: Graph, node: Node, i: nat, fuel: nat) returns (r: Resolution)
    requires i < |node.inputs|
    ensures r == Resolve(g, node, i, fuel)
  {
    var start := InputNode(g, node, i);
    if start.None? {
      return Unconnected;
    }
    var ty := node.inputs[i].typ;
    var parent := start.value;
    var link := InputLink(g, node, i);
    var hops := 0;
    while Forwards(parent)
      invariant hops <= fuel
      invariant link.Some? || (parent.mode == BYPASS && !parent.isVirtual)
      invariant Chase(g, ty, parent, link, fuel - hops) == Resolve(g, node, i, fuel)
      decreases fuel - hops
    {
      if hops == fuel {
        return OutOfFuel;
      }
      var found := false;
      if parent.isVirtual {
        if link.None? {
          return Threw;
        }
        link := InputLink(g, parent, link.value.originSlot);
        if link.Some? {
          var next := InputNode(g, parent, link.value.targetSlot);
          if next.Some? {
            parent := next.value;
            found := true;
          }
        }
      } else if link.Some? && parent.mode == BYPASS {
        var c := FindForwardingInput(parent, link.value.originSlot, ty);
        if c.Some? {
          link := InputLink(g, parent, c.value);
          if link.Some? {
            var next := InputNode(g, parent, c.value);
            if next.None? {
              return Threw;
            }
            parent := next.value;
          }
          found := true;
        }
      }
      if !found {
        return Stopped(link);
      }
      hops := hops + 1;
    }
    return Reached(link.value, parent);
  }

  /** When the loop ends by its own condition, the producer is neither bypassed nor virtual. */
  lemma {:induction false} ReachedIsConcrete(g: Graph, ty: string, parent: Node, link: Option<Link>, fuel: nat)
    requires link.Some? || (parent.mode == BYPASS && !parent.isVirtual)
    decreases fuel
    ensures Chase(g, ty, parent, link, fuel).Reached? ==>
              var p := Chase(g, ty, parent, link, fuel).producer;
              p.mode != BYPASS && !p.isVirtual
  {
    if Forwards(parent) && fuel > 0 {
      match Step(g, ty, parent, link)
      case Crash =>
      case Break(_) =>
      case Continue(p, l) => ReachedIsConcrete(g, ty, p, l, fuel - 1);
    }
  }

  /** More fuel changes nothing once the walk has ended within the fuel given. */
  lemma {:induction false} ChaseFuelMonotone(g: Graph, ty: string, parent: Node, link: Option<Link>, fuel: nat, more: nat)
    requires link.Some? || (parent.mode == BYPASS && !parent.isVirtual)
    requires fuel <= more
    requires Chase(g, ty, parent, link, fuel) != OutOfFuel
    decreases fuel
    ensures Chase(g, ty, parent, link, more) == Chase(g, ty, parent, link, fuel)
  {
    if Forwards(parent) {
      match Step(g, ty, parent, link)
      case Crash =>
      case Break(_) =>
      case Continue(p, l) => ChaseFuelMonotone(g, ty, p, l, fuel - 1, more - 1);
    }
  }

  /** Along the walk, the current node is always the origin of the current link,
      provided every input's link names that input as its target slot. */
  lemma {:induction false} ReachedIsOriginOfLink(g: Graph, ty: string, parent: Node, link: Option<Link>, fuel: nat)
    requires TargetSlotsAgree(g)
    requires link.Some? || (parent.mode == BYPASS && !parent.isVirtual)
    requires link.Some? ==> link.value.originId in g.nodes && parent == g.nodes[link.value.originId]
    decreases fuel
    ensures Chase(g, ty, parent, link, fuel).Reached? ==>
              var r := Chase(g, ty, parent, link, fuel);
              r.link.originId in g.nodes && r.producer == g.nodes[r.link.originId]
  {
    if Forwards(parent) && fuel > 0 {
      match Step(g, ty, parent, link)
      case Crash =>
      case Break(_) =>
      case Continue(p, l) =>
        if parent.isVirtual {
          var s := link.value.originSlot;
          var l2 := InputLink(g, parent, s).value;
          assert l2.targetSlot == s by {
            var id := link.value.originId;
            assert s < |g.nodes[id].inputs|;
            assert InputLink(g, g.nodes[id], s) == Some(l2);
          }
        }
        ReachedIsOriginOfLink(g, ty, p, l, fuel - 1);
    }
  }

  /** What one resolution promises: when it reaches a producer, that producer is
      neither bypassed nor virtual and is the origin of the last link followed. */
  lemma ResolvedProducer(g: Graph, node: Node, i: nat, fuel: nat)
    requires i < |node.inputs|
    requires TargetSlotsAgree(g)
    ensures Resolve(g, node, i, fuel).Reached? ==>
              var r := Resolve(g, node, i, fuel);
              r.producer.mode != BYPASS && !r.producer.isVirtual
              && r.link.originId in g.nodes && r.producer == g.nodes[r.link.originId]
  {
    var start := InputNode(g, node, i);
    if start.Some? {
      var ty := node.inputs[i].typ;
      ReachedIsConcrete(g, ty, start.value, InputLink(g, node, i), fuel);
      ReachedIsOriginOfLink(g, ty, start.value, InputLink(g, node, i), fuel);
    }
  }

  /** A bypassed node with no input of the consumer's type, or a virtual node
      without a link on the forwarded slot, ends the walk early. */
  lemma StopsWhenNothingForwards(g: Graph, ty: string, parent: Node, l: Link, fuel: nat)
    requires fuel > 0
    ensures parent.mode == BYPASS && !parent.isVirtual
            && ForwardingInput(parent.inputs, l.originSlot, ty).None?
            ==> Chase(g, ty, parent, Some(l), fuel) == Stopped(Some(l))
    ensures parent.isVirtual && InputLink(g, parent, l.originSlot).None?
            ==> Chase(g, ty, parent, Some(l), fuel) == Stopped(None)
  {
  }

  /** A bypassed node hands the walk on through the input `ForwardingInput` picks. */
  lemma BypassForwards(g: Graph, ty: string, parent: Node, l: Link, fuel: nat, c: nat)
    requires fuel > 0 && parent.mode == BYPASS && !parent.isVirtual
    requires ForwardingInput(parent.inputs, l.originSlot, ty) == Some(c)
    ensures InputLink(g, parent, c).None? && fuel > 1 ==> Chase(g, ty, parent, Some(l), fuel) == Stopped(None)
    ensures InputLink(g, parent, c).Some? && InputNode(g, parent, c).Some? ==>
              Chase(g, ty, parent, Some(l), fuel)
              == Chase(g, ty, InputNode(g, parent, c).value, InputLink(g, parent, c), fuel - 1)
    ensures InputLink(g, parent, c).Some? && InputNode(g, parent, c).None? ==>
              Chase(g, ty, parent, Some(l), fuel) == Threw
  {
    if InputLink(g, parent, c).None? && fuel > 1 {
      assert Chase(g, ty, parent, None, fuel - 1) == Stopped(None);
    }
  }
}
