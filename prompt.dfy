/** Building the execution request (`graphToPrompt`, js/utils.js:38-152): the
    map from `String(node.id)` to `{inputs, class_type, _meta.title}` for every
    node that runs, with widget values and resolved producer references as
    inputs, and the optional pass that drops references to nodes that have no
    entry. */
module Prompt {
  import opened Wrappers
  import opened Values
  import opened Graphs
  import opened Resolution

  /** One entry of the request: `{inputs, class_type, _meta: {title}}`. */
  datatype NodeData = NodeData(inputs: map<string, Json>, classType: string, title: string)

  /** Why a conversion produces no request: an exception, or a resolution that never ends. */
  datatype Abort = TypeError | Hang

  // ---------------------------------------------------------------- widgets

  /** Widget values in widget order; a later widget of the same name overwrites an earlier one. */
  function WidgetValues(ws: seq<Widget>): map<string, Json>
    decreases |ws|
  {
    if ws == [] then map[]
    else
      var m := WidgetValues(ws[..|ws| - 1]);
      var w := ws[|ws| - 1];
      if w.serializeFalse then m else m[w.name := w.value]
  }

  /** A name is captured exactly when some widget of that name is serialisable. */
  lemma {:induction false} WidgetValuesKeys(ws: seq<Widget>, k: string)
    ensures k in WidgetValues(ws) <==> exists j :: 0 <= j < |ws| && ws[j].name == k && !ws[j].serializeFalse
    decreases |ws|
  {
    if ws != [] {
      var init := ws[..|ws| - 1];
      WidgetValuesKeys(init, k);
      if exists j :: 0 <= j < |init| && init[j].name == k && !init[j].serializeFalse {
        var j :| 0 <= j < |init| && init[j].name == k && !init[j].serializeFalse;
        assert ws[j] == init[j];
      }
      if exists j :: 0 <= j < |ws| && ws[j].name == k && !ws[j].serializeFalse {
        var j :| 0 <= j < |ws| && ws[j].name == k && !ws[j].serializeFalse;
        if j < |init| {
          assert init[j] == ws[j];
        }
      }
    }
  }

  /** The value captured under a name is that of the last serialisable widget of that name. */
  lemma {:induction false} WidgetValueIsLast(ws: seq<Widget>, j: nat)
    requires j < |ws| && !ws[j].serializeFalse
    requires forall j' :: j < j' < |ws| ==> ws[j'].name != ws[j].name || ws[j'].serializeFalse
    ensures ws[j].name in WidgetValues(ws) && WidgetValues(ws)[ws[j].name] == ws[j].value
    decreases |ws|
  {
    if j < |ws| - 1 {
      var init := ws[..|ws| - 1];
      assert init[j] == ws[j];
      forall j' | j < j' < |init| ensures init[j'].name != init[j].name || init[j'].serializeFalse {
        assert init[j'] == ws[j'];
      }
      WidgetValueIsLast(init, j);
    }
  }

  /** The widget loop of js/utils.js:61-70. */
  method CaptureWidgets(ws: seq<Widget>) returns (m: map<string, Json>)
    ensures m == WidgetValues(ws)
  {
    m := map[];
    var k := 0;
    while k < |ws|
      invariant k <= |ws|
      invariant m == WidgetValues(ws[..k])
    {
      assert ws[..k + 1][..k] == ws[..k];
      if !ws[k].serializeFalse {
        m := m[ws[k].name := ws[k].value];
      }
      k := k + 1;
    }
    assert ws[..k] == ws;
  }

  // ------------------------------------------------------------ connections

  /** `[String(link.origin_id), parseInt(link.origin_slot)]` */
  function Reference(l: Link): (r: Json)
    ensures IsPair(r) && PropertyKey(r.elems[0]) == Decimal(l.originId) && r.elems[1] == Num(l.originSlot)
  {
    Arr([Str(Decimal(l.originId)), Num(l.originSlot)])
  }

  /** What one input's resolution writes into `inputs` (nothing, or a reference),
      or why the conversion aborts. */
  function Written(r: Resolution): (w: Result<Option<Json>, Abort>)
    ensures w.Failure? <==> r.Threw? || r.OutOfFuel?
    ensures r.Threw? ==> w == Failure(TypeError)
    ensures r.Unconnected? ==> w == Success(None)
    ensures w.Success? && w.value.Some? ==> IsPair(w.value.value) && w.value.value.elems[0].Str?
  {
    match r
    case Unconnected => Success(None)
    case Reached(l, _) => Success(Some(Reference(l)))
    case Stopped(last) => Success(if last.Some? then Some(Reference(last.value)) else None)
    case Threw => Failure(TypeError)
    case OutOfFuel => Failure(Hang)
  }

  predicate Writes(g: Graph, node: Node, j: nat, fuel: nat)
    requires j < |node.inputs|
  {
    var w := Written(Resolve(g, node, j, fuel));
    w.Success? && w.value.Some?
  }

  /** `base` after the connections of inputs `0 .. n-1`, in input order. */
  function Connections(g: Graph, node: Node, fuel: nat, n: nat, base: map<string, Json>): Result<map<string, Json>, Abort>
    requires n <= |node.inputs|
  {
    if n == 0 then Success(base)
    else
      match Connections(g, node, fuel, n - 1, base)
      case Failure(e) => Failure(e)
      case Success(m) =>
        match Written(Resolve(g, node, n - 1, fuel))
        case Failure(e) => Failure(e)
        case Success(None) => Success(m)
        case Success(Some(v)) => Success(m[node.inputs[n - 1].name := v])
  }

  /** The `inputs` object of one node: widgets first, then connections. */
  function NodeInputs(g: Graph, node: Node, fuel: nat): Result<map<string, Json>, Abort> {
    Connections(g, node, fuel, |node.inputs|, WidgetValues(node.widgets))
  }

  /** Collecting the inputs fails exactly when some input's resolution fails. */
  lemma {:induction false} ConnectionsFailure(g: Graph, node: Node, fuel: nat, n: nat, base: map<string, Json>)
    requires n <= |node.inputs|
    ensures Connections(g, node, fuel, n, base).Failure?
            <==> exists j :: 0 <= j < n && Written(Resolve(g, node, j, fuel)).Failure?
  {
    if n > 0 {
      ConnectionsFailure(g, node, fuel, n - 1, base);
    }
  }

  /** Failure at some input carries through to the end of the loop. */
  lemma {:induction false} ConnectionsFailureSticks(g: Graph, node: Node, fuel: nat, k: nat, n: nat, base: map<string, Json>)
    requires k <= n <= |node.inputs|
    requires Connections(g, node, fuel, k, base).Failure?
    ensures Connections(g, node, fuel, n, base) == Connections(g, node, fuel, k, base)
    decreases n
  {
    if k < n {
      ConnectionsFailureSticks(g, node, fuel, k, n - 1, base);
    }
  }

  /** An input's reference is what stays under its name, whatever was there
      before (a widget value in particular), unless a later input of the same
      name writes too. */
  lemma {:induction false} LastWriterWins(g: Graph, node: Node, fuel: nat, n: nat, base: map<string, Json>, i: nat)
    requires i < n <= |node.inputs|
    requires Connections(g, node, fuel, n, base).Success?
    requires Writes(g, node, i, fuel)
    requires forall j :: i < j < n && node.inputs[j].name == node.inputs[i].name ==> !Writes(g, node, j, fuel)
    ensures node.inputs[i].name in Connections(g, node, fuel, n, base).value
    ensures Connections(g, node, fuel, n, base).value[node.inputs[i].name]
            == Written(Resolve(g, node, i, fuel)).value.value
    decreases n
  {
    if i < n - 1 {
      LastWriterWins(g, node, fuel, n - 1, base, i);
    }
  }

  /** A name no input writes keeps what `base` had under it. */
  lemma {:induction false} UnwrittenKeepsBase(g: Graph, node: Node, fuel: nat, n: nat, base: map<string, Json>, k: string)
    requires n <= |node.inputs|
    requires Connections(g, node, fuel, n, base).Success?
    requires forall j :: 0 <= j < n && node.inputs[j].name == k ==> !Writes(g, node, j, fuel)
    ensures k in Connections(g, node, fuel, n, base).value <==> k in base
    ensures k in base ==> Connections(g, node, fuel, n, base).value[k] == base[k]
    decreases n
  {
    if n > 0 {
      UnwrittenKeepsBase(g, node, fuel, n - 1, base, k);
    }
  }

  /** The pieces of one node's `inputs`: a connection overrides the widget of
      its name, and a widget no connection overrides keeps its value. */
  lemma NodeInputsShape(g: Graph, node: Node, fuel: nat, i: nat, k: string)
    requires NodeInputs(g, node, fuel).Success?
    ensures i < |node.inputs| && Writes(g, node, i, fuel)
            && (forall j :: i < j < |node.inputs| && node.inputs[j].name == node.inputs[i].name ==> !Writes(g, node, j, fuel))
            ==> node.inputs[i].name in NodeInputs(g, node, fuel).value
                && NodeInputs(g, node, fuel).value[node.inputs[i].name] == Written(Resolve(g, node, i, fuel)).value.value
    ensures (forall j :: 0 <= j < |node.inputs| && node.inputs[j].name == k ==> !Writes(g, node, j, fuel))
            ==> (k in NodeInputs(g, node, fuel).value <==> k in WidgetValues(node.widgets))
                && (k in WidgetValues(node.widgets) ==> NodeInputs(g, node, fuel).value[k] == WidgetValues(node.widgets)[k])
  {
    var n := |node.inputs|;
    var base := WidgetValues(node.widgets);
    if i < n && Writes(g, node, i, fuel)
       && (forall j :: i < j < n && node.inputs[j].name == node.inputs[i].name ==> !Writes(g, node, j, fuel)) {
      LastWriterWins(g, node, fuel, n, base, i);
    }
    if forall j :: 0 <= j < n && node.inputs[j].name == k ==> !Writes(g, node, j, fuel) {
      UnwrittenKeepsBase(g, node, fuel, n, base, k);
    }
  }

  /** One more input extends the connection fold by what it writes. */
  lemma ConnectionsExtend(g: Graph, node: Node, fuel: nat, i: nat, base: map<string, Json>, inputs: map<string, Json>)
    requires i < |node.inputs| && Connections(g, node, fuel, i, base) == Success(inputs)
    ensures var w := Written(Resolve(g, node, i, fuel));
            Connections(g, node, fuel, i + 1, base)
            == if w.Failure? then Failure(w.error)
               else if w.value.None? then Success(inputs)
               else Success(inputs[node.inputs[i].name := w.value.value])
  {
  }

  /** The connection loop of js/utils.js:73-125, after the widget loop. */
  method CollectInputs(g: Graph, node: Node, fuel: nat) returns (r: Result<map<string, Json>, Abort>)
    ensures r == NodeInputs(g, node, fuel)
  {
    var base := CaptureWidgets(node.widgets);
    var inputs := base;
    var i := 0;
    while i < |node.inputs|
      invariant i <= |node.inputs|
      invariant Connections(g, node, fuel, i, base) == Success(inputs)
    {
      var res := ResolveInput(g, node, i, fuel);
      ConnectionsExtend(g, node, fuel, i, base, inputs);
      match res {
        case Threw =>
          ConnectionsFailureSticks(g, node, fuel, i + 1, |node.inputs|, base);
          return Failure(TypeError);
        case OutOfFuel =>
          ConnectionsFailureSticks(g, node, fuel, i + 1, |node.inputs|, base);
          return Failure(Hang);
        case Unconnected =>
        case Reached(l, _) =>
          inputs := inputs[node.inputs[i].name := Reference(l)];
        case Stopped(last) =>
          if last.Some? {
            inputs := inputs[node.inputs[i].name := Reference(last.value)];
          }
      }
      i := i + 1;
    }
    return Success(inputs);
  }

  // ------------------------------------------------------------ the request

  /** A node that gets an entry: neither virtual nor in mode NEVER or BYPASS. */
  predicate Emits(n: Node) {
    !n.isVirtual && !Skipped(n)
  }

  /** The nodes an outer node stands for: its inner nodes, unless it is skipped
      or has none. */
  function Expanded(o: Node): seq<Node> {
    if !Skipped(o) && o.inner.Some? then o.inner.value else [o]
  }

  function Flatten(order: seq<Node>): seq<Node>
    decreases |order|
  {
    if order == [] then [] else Flatten(order[..|order| - 1]) + Expanded(order[|order| - 1])
  }

  lemma {:induction false} FlattenAppend(a: seq<Node>, b: seq<Node>)
    ensures Flatten(a + b) == Flatten(a) + Flatten(b)
    decreases |b|
  {
    if b != [] {
      var b' := b[..|b| - 1];
      assert (a + b)[..|a + b| - 1] == a + b';
      assert (a + b)[|a + b| - 1] == b[|b| - 1];
      FlattenAppend(a, b');
      assert Flatten(a + b) == Flatten(a + b') + Expanded(b[|b| - 1]);
    } else {
      assert a + b == a;
    }
  }

  /** Every node visited is an outer node of the order or an inner node of an
      outer node that is not skipped: a skipped outer node is never expanded. */
  lemma {:induction false} FlattenSources(order: seq<Node>, m: Node)
    requires m in Flatten(order)
    ensures m in order || exists o :: o in order && !Skipped(o) && o.inner.Some? && m in o.inner.value
    decreases |order|
  {
    var init := order[..|order| - 1];
    var last := order[|order| - 1];
    if m in Flatten(init) {
      FlattenSources(init, m);
    }
  }

  /** The request after visiting `nodes`, each in turn overwriting the entry of its id. */
  function BuildFrom(g: Graph, nodes: seq<Node>, fuel: nat): Result<map<string, NodeData>, Abort>
    decreases |nodes|
  {
    if nodes == [] then Success(map[])
    else
      match BuildFrom(g, nodes[..|nodes| - 1], fuel)
      case Failure(e) => Failure(e)
      case Success(out) =>
        var n := nodes[|nodes| - 1];
        if !Emits(n) then Success(out)
        else
          match NodeInputs(g, n, fuel)
          case Failure(e) => Failure(e)
          case Success(ins) => Success(out[Decimal(n.id) := NodeData(ins, n.comfyClass, n.title)])
  }

  lemma {:induction false} BuildFailureSticks(g: Graph, a: seq<Node>, b: seq<Node>, fuel: nat)
    requires BuildFrom(g, a, fuel).Failure?
    ensures BuildFrom(g, a + b, fuel) == BuildFrom(g, a, fuel)
    decreases |b|
  {
    if b != [] {
      assert (a + b)[..|a + b| - 1] == a + b[..|b| - 1];
      BuildFailureSticks(g, a, b[..|b| - 1], fuel);
      assert BuildFrom(g, a + b[..|b| - 1], fuel).Failure?;
    } else {
      assert a + b == a;
    }
  }

  /** The request fails exactly when the inputs of some node that emits fail. */
  lemma {:induction false} BuildFailure(g: Graph, nodes: seq<Node>, fuel: nat)
    ensures BuildFrom(g, nodes, fuel).Failure?
            <==> exists j :: 0 <= j < |nodes| && Emits(nodes[j]) && NodeInputs(g, nodes[j], fuel).Failure?
    decreases |nodes|
  {
    if nodes != [] {
      var init := nodes[..|nodes| - 1];
      BuildFailure(g, init, fuel);
      if exists j :: 0 <= j < |init| && Emits(init[j]) && NodeInputs(g, init[j], fuel).Failure? {
        var j :| 0 <= j < |init| && Emits(init[j]) && NodeInputs(g, init[j], fuel).Failure?;
        assert nodes[j] == init[j];
      }
      if exists j :: 0 <= j < |nodes| && Emits(nodes[j]) && NodeInputs(g, nodes[j], fuel).Failure? {
        var j :| 0 <= j < |nodes| && Emits(nodes[j]) && NodeInputs(g, nodes[j], fuel).Failure?;
        if j < |init| {
          assert init[j] == nodes[j];
        }
      }
    }
  }

  /** Visiting one more node adds at most the key of that node. */
  lemma BuildKeysStep(g: Graph, nodes: seq<Node>, fuel: nat, k: string)
    requires nodes != [] && BuildFrom(g, nodes, fuel).Success?
    ensures BuildFrom(g, nodes[..|nodes| - 1], fuel).Success?
    ensures k in BuildFrom(g, nodes, fuel).value
            <==> k in BuildFrom(g, nodes[..|nodes| - 1], fuel).value
                 || (Emits(nodes[|nodes| - 1]) && Decimal(nodes[|nodes| - 1].id) == k)
  {
  }

  lemma {:induction false} KeyHasEmitter(g: Graph, nodes: seq<Node>, fuel: nat, k: string)
    requires BuildFrom(g, nodes, fuel).Success? && k in BuildFrom(g, nodes, fuel).value
    ensures exists j :: 0 <= j < |nodes| && Emits(nodes[j]) && Decimal(nodes[j].id) == k
    decreases |nodes|
  {
    var init := nodes[..|nodes| - 1];
    BuildKeysStep(g, nodes, fuel, k);
    if k in BuildFrom(g, init, fuel).value {
      KeyHasEmitter(g, init, fuel, k);
      var j :| 0 <= j < |init| && Emits(init[j]) && Decimal(init[j].id) == k;
      assert nodes[j] == init[j];
    } else {
      var j := |nodes| - 1;
      assert Emits(nodes[j]) && Decimal(nodes[j].id) == k;
    }
  }

  lemma {:induction false} EmitterHasKey(g: Graph, nodes: seq<Node>, fuel: nat, j: nat)
    requires BuildFrom(g, nodes, fuel).Success?
    requires j < |nodes| && Emits(nodes[j])
    ensures Decimal(nodes[j].id) in BuildFrom(g, nodes, fuel).value
    decreases |nodes|
  {
    var init := nodes[..|nodes| - 1];
    BuildKeysStep(g, nodes, fuel, Decimal(nodes[j].id));
    if j < |init| {
      assert init[j] == nodes[j];
      EmitterHasKey(g, init, fuel, j);
    }
  }

  /** The request has an entry under `k` exactly when some emitting node has id `k`. */
  lemma OutputKeys(g: Graph, nodes: seq<Node>, fuel: nat, k: string)
    requires BuildFrom(g, nodes, fuel).Success?
    ensures k in BuildFrom(g, nodes, fuel).value
            <==> exists j :: 0 <= j < |nodes| && Emits(nodes[j]) && Decimal(nodes[j].id) == k
  {
    if k in BuildFrom(g, nodes, fuel).value {
      KeyHasEmitter(g, nodes, fuel, k);
    } else if exists j :: 0 <= j < |nodes| && Emits(nodes[j]) && Decimal(nodes[j].id) == k {
      var j :| 0 <= j < |nodes| && Emits(nodes[j]) && Decimal(nodes[j].id) == k;
      EmitterHasKey(g, nodes, fuel, j);
    }
  }

  /** The entry of an emitting node (that no later emitting node shares an id
      with) holds its inputs, `class_type = node.comfyClass` and `_meta.title = node.title`. */
  lemma {:induction false} OutputEntry(g: Graph, nodes: seq<Node>, fuel: nat, j: nat)
    requires BuildFrom(g, nodes, fuel).Success?
    requires j < |nodes| && Emits(nodes[j])
    requires forall j' :: j < j' < |nodes| && Emits(nodes[j']) ==> nodes[j'].id != nodes[j].id
    ensures NodeInputs(g, nodes[j], fuel).Success?
    ensures Decimal(nodes[j].id) in BuildFrom(g, nodes, fuel).value
    ensures BuildFrom(g, nodes, fuel).value[Decimal(nodes[j].id)]
            == NodeData(NodeInputs(g, nodes[j], fuel).value, nodes[j].comfyClass, nodes[j].title)
    decreases |nodes|
  {
    if j < |nodes| - 1 {
      var init := nodes[..|nodes| - 1];
      var last := nodes[|nodes| - 1];
      assert init[j] == nodes[j];
      forall j' | j < j' < |init| && Emits(init[j']) ensures init[j'].id != init[j].id {
        assert init[j'] == nodes[j'];
      }
      OutputEntry(g, init, fuel, j);
      if Emits(last) && Decimal(last.id) == Decimal(nodes[j].id) {
        DecimalInjective(last.id, nodes[j].id);
      }
    }
  }

  /** A node that is virtual or in mode NEVER or BYPASS gets no entry (when no
      other visited node has its id). */
  lemma SkippedNodeHasNoEntry(g: Graph, nodes: seq<Node>, fuel: nat, n: Node)
    requires BuildFrom(g, nodes, fuel).Success?
    requires n in nodes && !Emits(n)
    requires forall m :: m in nodes && m.id == n.id ==> m == n
    ensures Decimal(n.id) !in BuildFrom(g, nodes, fuel).value
  {
    OutputKeys(g, nodes, fuel, Decimal(n.id));
    if exists j :: 0 <= j < |nodes| && Emits(nodes[j]) && Decimal(nodes[j].id) == Decimal(n.id) {
      var j :| 0 <= j < |nodes| && Emits(nodes[j]) && Decimal(nodes[j].id) == Decimal(n.id);
      DecimalInjective(nodes[j].id, n.id);
    }
  }

  lemma FlattenStep(order: seq<Node>, j: nat)
    requires j < |order|
    ensures Flatten(order[..j + 1]) == Flatten(order[..j]) + Expanded(order[j])
  {
    assert order[..j + 1][..j] == order[..j];
  }

  /** A failure after the first `j` outer nodes is the result of the whole node loop. */
  lemma BuildFailsAfter(g: Graph, order: seq<Node>, j: nat, fuel: nat)
    requires j <= |order| && BuildFrom(g, Flatten(order[..j]), fuel).Failure?
    ensures BuildFrom(g, Flatten(order), fuel) == BuildFrom(g, Flatten(order[..j]), fuel)
  {
    assert order == order[..j] + order[j..];
    FlattenAppend(order[..j], order[j..]);
    BuildFailureSticks(g, Flatten(order[..j]), Flatten(order[j..]), fuel);
  }

  lemma BuildExtend(g: Graph, prefix: seq<Node>, n: Node, fuel: nat, out: map<string, NodeData>)
    requires BuildFrom(g, prefix, fuel) == Success(out)
    ensures !Emits(n) ==> BuildFrom(g, prefix + [n], fuel) == Success(out)
    ensures Emits(n) && NodeInputs(g, n, fuel).Success? ==>
              BuildFrom(g, prefix + [n], fuel)
              == Success(out[Decimal(n.id) := NodeData(NodeInputs(g, n, fuel).value, n.comfyClass, n.title)])
    ensures Emits(n) && NodeInputs(g, n, fuel).Failure? ==> BuildFrom(g, prefix + [n], fuel).Failure?
  {
    assert (prefix + [n])[..|prefix + [n]| - 1] == prefix;
  }

  /** The loop over one outer node's nodes (js/utils.js:47-136), continuing
      the request built from the nodes `prefix` visited before. */
  method VisitNodes(g: Graph, ghost prefix: seq<Node>, nodes: seq<Node>, fuel: nat, output: map<string, NodeData>)
    returns (r: Result<map<string, NodeData>, Abort>)
    requires BuildFrom(g, prefix, fuel) == Success(output)
    ensures r == BuildFrom(g, prefix + nodes, fuel)
  {
    var out := output;
    var k := 0;
    assert prefix + nodes[..k] == prefix;
    while k < |nodes|
      invariant k <= |nodes|
      invariant BuildFrom(g, prefix + nodes[..k], fuel) == Success(out)
    {
      var node := nodes[k];
      assert prefix + nodes[..k + 1] == (prefix + nodes[..k]) + [node];
      BuildExtend(g, prefix + nodes[..k], node, fuel, out);
      if !node.isVirtual && !(node.mode == NEVER || node.mode == BYPASS) {
        var ins := CollectInputs(g, node, fuel);
        if ins.Failure? {
          assert prefix + nodes == (prefix + nodes[..k + 1]) + nodes[k + 1..];
          BuildFailureSticks(g, prefix + nodes[..k + 1], nodes[k + 1..], fuel);
          return Failure(ins.error);
        }
        out := out[Decimal(node.id) := NodeData(ins.value, node.comfyClass, node.title)];
      }
      k := k + 1;
    }
    assert nodes[..k] == nodes;
    return Success(out);
  }

  /** The node loop of js/utils.js:40-137. */
  method BuildOutput(g: Graph, order: seq<Node>, fuel: nat) returns (r: Result<map<string, NodeData>, Abort>)
    ensures r == BuildFrom(g, Flatten(order), fuel)
  {
    var output: map<string, NodeData> := map[];
    var j := 0;
    while j < |order|
      invariant j <= |order|
      invariant BuildFrom(g, Flatten(order[..j]), fuel) == Success(output)
    {
      var outer := order[j];
      var skipNode := outer.mode == NEVER || outer.mode == BYPASS;
      var innerNodes := if !skipNode && outer.inner.Some? then outer.inner.value else [outer];
      assert innerNodes == Expanded(outer);
      FlattenStep(order, j);
      var visited := VisitNodes(g, Flatten(order[..j]), innerNodes, fuel, output);
      if visited.Failure? {
        BuildFailsAfter(g, order, j + 1, fuel);
        return visited;
      }
      output := visited.value;
      j := j + 1;
    }
    assert order[..j] == order;
    return Success(output);
  }

  // ------------------------------------------------------------ the clean pass

  /** `Array.isArray(v) && v.length === 2` */
  predicate IsPair(v: Json) {
    v.Arr? && |v.elems| == 2
  }

  /** The clean pass's deletion test: `!output[v[0]]` for a two-element array;
      `output[x]` is also truthy for names inherited from `Object.prototype`. */
  predicate Dangling(v: Json, keys: set<string>)
    ensures Dangling(v, keys) ==> IsPair(v)
    ensures IsPair(v) && v.elems[0].Str? ==>
              (Dangling(v, keys) <==> v.elems[0].s !in keys && v.elems[0].s !in ObjectPrototypeKeys)
    ensures IsPair(v) && v.elems[0].Num? ==> (Dangling(v, keys) <==> Decimal(v.elems[0].n) !in keys)
  {
    IsPair(v) && PropertyKey(v.elems[0]) !in keys && PropertyKey(v.elems[0]) !in ObjectPrototypeKeys
  }

  function CleanInputs(ins: map<string, Json>, keys: set<string>): map<string, Json> {
    map i | i in ins && !Dangling(ins[i], keys) :: ins[i]
  }

  function CleanAll(out: map<string, NodeData>): map<string, NodeData> {
    map o | o in out :: out[o].(inputs := CleanInputs(out[o].inputs, out.Keys))
  }

  /** The inner loop of js/utils.js:142-150, deleting in place. */
  method CleanEntryInputs(ins: map<string, Json>, keys: set<string>) returns (r: map<string, Json>)
    ensures r == CleanInputs(ins, keys)
  {
    r := ins;
    var todo := ins.Keys;
    while todo != {}
      invariant todo <= ins.Keys
      invariant forall i :: i in r <==> i in ins && (i in todo || !Dangling(ins[i], keys))
      invariant forall i :: i in r ==> r[i] == ins[i]
      decreases todo
    {
      var i :| i in todo;
      if Dangling(r[i], keys) {
        r := r - {i};
      }
      todo := todo - {i};
    }
  }

  /** The clean pass of js/utils.js:140-152. */
  method CleanOutput(out: map<string, NodeData>) returns (r: map<string, NodeData>)
    ensures r == CleanAll(out)
  {
    r := out;
    var todo := out.Keys;
    while todo != {}
      invariant todo <= out.Keys && r.Keys == out.Keys
      invariant forall o :: o in out ==> r[o] == if o in todo then out[o] else CleanAll(out)[o]
      decreases todo
    {
      var o :| o in todo;
      var cleaned := CleanEntryInputs(r[o].inputs, out.Keys);
      r := r[o := r[o].(inputs := cleaned)];
      todo := todo - {o};
    }
  }

  /** After the clean pass the request has the same entries, every remaining
      two-element array names an entry (or an inherited member), and every
      other input value is untouched. */
  lemma CleanGuarantees(out: map<string, NodeData>, o: string, i: string)
    ensures CleanAll(out).Keys == out.Keys
    ensures o in out && i in CleanAll(out)[o].inputs && IsPair(CleanAll(out)[o].inputs[i]) ==>
              var first := PropertyKey(CleanAll(out)[o].inputs[i].elems[0]);
              first in CleanAll(out) || first in ObjectPrototypeKeys
    ensures o in out && i in out[o].inputs && !IsPair(out[o].inputs[i]) ==>
              i in CleanAll(out)[o].inputs && CleanAll(out)[o].inputs[i] == out[o].inputs[i]
    ensures o in out ==> CleanAll(out)[o].classType == out[o].classType && CleanAll(out)[o].title == out[o].title
  {
  }

  /** A producer reference survives the clean pass exactly when its producer has an entry. */
  lemma ReferenceSurvivesIff(out: map<string, NodeData>, o: string, i: string, l: Link)
    requires o in out && i in out[o].inputs && out[o].inputs[i] == Reference(l)
    ensures i in CleanAll(out)[o].inputs <==> Decimal(l.originId) in out
  {
    DecimalNotInherited(l.originId);
  }

  /** `graphToPrompt`'s request: the node loop, then the clean pass when `clean` is set. */
  method PromptOutput(g: Graph, order: seq<Node>, clean: bool, fuel: nat) returns (r: Result<map<string, NodeData>, Abort>)
    ensures BuildFrom(g, Flatten(order), fuel).Failure? ==> r == BuildFrom(g, Flatten(order), fuel)
    ensures BuildFrom(g, Flatten(order), fuel).Success? ==>
              var out := BuildFrom(g, Flatten(order), fuel).value;
              r == Success(if clean then CleanAll(out) else out)
  {
    r := BuildOutput(g, order, fuel);
    if r.Success? && clean {
      var cleaned := CleanOutput(r.value);
      r := Success(cleaned);
    }
  }
}
