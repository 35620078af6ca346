/** `dg::DynamicGraph`: the ordered graph descriptions, the configuration message built
    from them, and the lifecycle calls it forwards to the HIAI runtime. */
module DynamicGraphs {
  import opened HiaiTypes
  import opened HiaiRuntime
  import opened Seqs
  import opened Decimal
  import opened Dg
  import opened Translate

  // ---- How a sequence of runtime replies folds into one status ----

  /** The earliest failure among `rs`, or success when there is none. */
  function FirstFailure(rs: seq<Status>): Status
    decreases |rs|
  {
    if rs == [] then HiaiOk
    else if rs[0] != HiaiOk then rs[0]
    else FirstFailure(rs[1..])
  }

  /** The latest failure among `rs`, or success when there is none: what `destroyGraph`'s
      loop leaves in `ret`, overwriting it at each failure. */
  function LastFailure(rs: seq<Status>): Status
    decreases |rs|
  {
    if rs == [] then HiaiOk
    else if rs[|rs| - 1] != HiaiOk then rs[|rs| - 1]
    else LastFailure(rs[..|rs| - 1])
  }

  /** `FirstFailure` is success exactly when every reply is, and otherwise a failing
      reply with only successes before it. */
  lemma {:induction false} FirstFailureSpec(rs: seq<Status>)
    ensures FirstFailure(rs) == HiaiOk <==> forall i :: 0 <= i < |rs| ==> rs[i] == HiaiOk
    ensures FirstFailure(rs) != HiaiOk ==>
      exists j :: 0 <= j < |rs| && rs[j] == FirstFailure(rs) && forall i :: 0 <= i < j ==> rs[i] == HiaiOk
    decreases |rs|
  {
    if rs != [] && rs[0] == HiaiOk {
      FirstFailureSpec(rs[1..]);
      if FirstFailure(rs) != HiaiOk {
        var j :| 0 <= j < |rs[1..]| && rs[1..][j] == FirstFailure(rs) && forall i :: 0 <= i < j ==> rs[1..][i] == HiaiOk;
        assert rs[j + 1] == FirstFailure(rs);
      }
    }
  }

  /** `LastFailure` is success exactly when every reply is, and otherwise a failing
      reply with only successes after it: earlier failures are overwritten. */
  lemma {:induction false} LastFailureSpec(rs: seq<Status>)
    ensures LastFailure(rs) == HiaiOk <==> forall i :: 0 <= i < |rs| ==> rs[i] == HiaiOk
    ensures LastFailure(rs) != HiaiOk ==>
      exists j :: 0 <= j < |rs| && rs[j] == LastFailure(rs) && forall i :: j < i < |rs| ==> rs[i] == HiaiOk
    decreases |rs|
  {
    if rs != [] && rs[|rs| - 1] == HiaiOk {
      var front := rs[..|rs| - 1];
      LastFailureSpec(front);
      if LastFailure(rs) != HiaiOk {
        var j :| 0 <= j < |front| && front[j] == LastFailure(rs) && forall i :: j < i < |front| ==> front[i] == HiaiOk;
        assert rs[j] == LastFailure(rs);
      }
    }
  }

  /** The calls `HIAI_Init(g.device_id)` for the graphs `gs`, in order. */
  function InitCalls(gs: seq<Graph>): (cs: seq<Call>)
    ensures |cs| == |gs|
    decreases |gs|
  {
    if gs == [] then [] else InitCalls(gs[..|gs| - 1]) + [HiaiInit(gs[|gs| - 1].deviceId)]
  }

  /** The calls `hiai::Graph::DestroyGraph(g.graph_id)` for the graphs `gs`, in order. */
  function DestroyCalls(gs: seq<Graph>): (cs: seq<Call>)
    ensures |cs| == |gs|
    decreases |gs|
  {
    if gs == [] then [] else DestroyCalls(gs[..|gs| - 1]) + [GraphDestroy(gs[|gs| - 1].graphId)]
  }

  /** One call per graph, for that graph's device or id, in the graphs' order. */
  lemma {:induction false} CallsPerGraph(gs: seq<Graph>)
    ensures forall j :: 0 <= j < |gs| ==> InitCalls(gs)[j] == HiaiInit(gs[j].deviceId)
    ensures forall j :: 0 <= j < |gs| ==> DestroyCalls(gs)[j] == GraphDestroy(gs[j].graphId)
    decreases |gs|
  {
    if gs != [] {
      CallsPerGraph(gs[..|gs| - 1]);
    }
  }

  /** Taking one more graph of `gs` adds its call at the end. */
  lemma CallsPrefixStep(gs: seq<Graph>, i: nat)
    requires i < |gs|
    ensures InitCalls(gs[..i + 1]) == InitCalls(gs[..i]) + [HiaiInit(gs[i].deviceId)]
    ensures DestroyCalls(gs[..i + 1]) == DestroyCalls(gs[..i]) + [GraphDestroy(gs[i].graphId)]
  {
    assert gs[..i + 1][..i] == gs[..i];
  }

  /** How many of the `n` graphs, counted from graph `i`, have their device initialised
      by `initDevices` when `k` runtime calls preceded its loop: the loop stops right
      after the first initialisation that fails. */
  function InitStop(replies: seq<Status>, k: nat, n: nat, i: nat): (c: nat)
    requires i <= n
    ensures i <= c <= n
    ensures i < n ==> i < c
    decreases n - i
  {
    if i == n then n
    else if ReplyAt(replies, k + i) != HiaiOk then i + 1
    else InitStop(replies, k, n, i + 1)
  }

  /** The status `initDevices` returns from graph `i` on: the reply of the first failed
      initialisation, or success after the last graph. */
  function InitStatus(replies: seq<Status>, k: nat, n: nat, i: nat): Status
    requires i <= n
    decreases n - i
  {
    if i == n then HiaiOk
    else if ReplyAt(replies, k + i) != HiaiOk then ReplyAt(replies, k + i)
    else InitStatus(replies, k, n, i + 1)
  }

  /** One call more adds its reply at the end. */
  lemma RepliesSnoc(replies: seq<Status>, k: nat, n: nat)
    ensures Replies(replies, k, n + 1) == Replies(replies, k, n) + [ReplyAt(replies, k + n)]
  {
  }

  /** One more reply: a failure replaces the folded status, a success keeps it. */
  lemma LastFailureSnoc(rs: seq<Status>, s: Status)
    ensures LastFailure(rs + [s]) == if s != HiaiOk then s else LastFailure(rs)
  {
    assert (rs + [s])[..|rs|] == rs;
  }

  /** `initDevices` from graph `i` on: every initialisation it makes but the last one
      succeeded, it stops before the last graph only after a failure, and its status is
      the first failure among the replies the remaining graphs would get, so it is
      success exactly when every remaining initialisation succeeds (`FirstFailureSpec`). */
  lemma {:induction false} InitDevicesFirstFailure(replies: seq<Status>, k: nat, n: nat, i: nat)
    requires i <= n
    ensures var c := InitStop(replies, k, n, i);
      var rs := Replies(replies, k + i, n - i);
      (forall j :: 0 <= j < c - i - 1 ==> rs[j] == HiaiOk)
      && (c < n ==> rs[c - i - 1] != HiaiOk)
      && InitStatus(replies, k, n, i) == FirstFailure(rs)
    decreases n - i
  {
    if i < n {
      var rs := Replies(replies, k + i, n - i);
      var rs' := Replies(replies, k + i + 1, n - i - 1);
      assert rs[1..] == rs';
      if ReplyAt(replies, k + i) == HiaiOk {
        InitDevicesFirstFailure(replies, k, n, i + 1);
      }
    }
  }

  class DynamicGraph {
    /** The `shared_ptr` to the message; `None` while it is null. */
    var graphConfigList: Option<GraphConfigList>
    /** The graph descriptions in insertion order. */
    var graphs: seq<Graph>

    constructor ()
      ensures graphs == [] && graphConfigList == None
    {
      graphs := [];
      graphConfigList := None;
    }

    /** `addGraph`: appends a copy of `g`; nothing else changes. */
    method AddGraph(g: Graph)
      modifies this
      ensures graphs == old(graphs) + [g]
      ensures graphConfigList == old(graphConfigList)
    {
      graphs := graphs + [g];
    }

    /** `getGraphId(i = 0)`: the id of the i-th graph added. The C++ indexes the vector
        unchecked, so the index must be in range. */
    function GetGraphId(i: int := 0): (id: uint32)
      reads this
      requires 0 <= i < |graphs|
      ensures id == graphs[i].graphId
    {
      graphs[i].graphId
    }

    /** `createGraph`. With no graphs it reports `HIAI_ERROR` and calls nothing. Otherwise
        it initialises the devices, DISCARDS that status, rebuilds the message and
        returns whatever graph creation returns: a device that fails to initialise stops
        neither the translation nor the creation call. */
    method CreateGraph(rt: Runtime) returns (st: Status)
      modifies this, rt
      ensures graphs == old(graphs)
      ensures old(graphs) == [] ==>
        st == HiaiError && rt.log == old(rt.log) && graphConfigList == old(graphConfigList)
      ensures old(graphs) != [] ==>
        var inits := InitCalls(graphs[..InitStop(rt.replies, |old(rt.log)|, |graphs|, 0)]);
        var config := TranslateGraphs(graphs);
        && graphConfigList == Some(config)
        && rt.log == old(rt.log) + inits + [GraphCreate(config)]
        && st == ReplyAt(rt.replies, |rt.log| - 1)
    {
      if |graphs| > 0 {
        var ignored := InitDevices(rt);
        MaintainGraph();
      } else {
        return HiaiError;
      }
      st := rt.Invoke(GraphCreate(graphConfigList.value));
    }

    /** `destroyGraph`: asks the runtime to destroy every graph, by id and in order, even
        after a failure, and returns the last failure seen, or success. */
    method DestroyGraph(rt: Runtime) returns (st: Status)
      modifies rt
      ensures rt.log == old(rt.log) + DestroyCalls(graphs)
      ensures st == LastFailure(Replies(rt.replies, |old(rt.log)|, |graphs|))
    {
      ghost var k := |rt.log|;
      var gs := graphs;
      st := HiaiOk;
      for i := 0 to |gs|
        invariant rt.log == old(rt.log) + DestroyCalls(gs[..i])
        invariant st == LastFailure(Replies(rt.replies, k, i))
      {
        var rtmp := rt.Invoke(GraphDestroy(gs[i].graphId));
        if HiaiOk != rtmp {
          st := rtmp;
        }
        CallsPrefixStep(gs, i);
        RepliesSnoc(rt.replies, k, i);
        LastFailureSnoc(Replies(rt.replies, k, i), rtmp);
      }
      assert gs[..|gs|] == gs;
    }

    /** `setDataRecvFunctor`: looks the node's graph up by id; when no live instance is
        found it reports `HIAI_ERROR` without registering, otherwise it registers the
        receiver at the node's port address and returns the runtime's status. */
    method SetDataRecvFunctor(rt: Runtime, node: NodeInfo) returns (st: Status)
      modifies rt
      ensures var k := |old(rt.log)|;
        var id := node.graph.graphId;
        if FoundAt(rt.instances, k) then
          && rt.log == old(rt.log) + [GraphGetInstance(id), GraphSetDataRecvFunctor(PortAddress(node))]
          && st == ReplyAt(rt.replies, k + 1)
        else
          rt.log == old(rt.log) + [GraphGetInstance(id)] && st == HiaiError
    {
      var found := rt.Lookup(node.graph.graphId);
      if !found {
        return HiaiError;
      }
      var config := PortAddress(node);
      st := rt.Invoke(GraphSetDataRecvFunctor(config));
    }

    /** `sendData`: the same lookup; when it succeeds, sends the message named
        `messageName` to the node's port address and returns the runtime's status. */
    method SendData(rt: Runtime, node: NodeInfo, messageName: string) returns (st: Status)
      modifies rt
      ensures var k := |old(rt.log)|;
        var id := node.graph.graphId;
        if FoundAt(rt.instances, k) then
          && rt.log == old(rt.log) + [GraphGetInstance(id), GraphSendData(PortAddress(node), messageName)]
          && st == ReplyAt(rt.replies, k + 1)
        else
          rt.log == old(rt.log) + [GraphGetInstance(id)] && st == HiaiError
    {
      var found := rt.Lookup(node.graph.graphId);
      if !found {
        return HiaiError;
      }
      var config := PortAddress(node);
      st := rt.Invoke(GraphSendData(config, messageName));
    }

    /** `initDevices`: one device initialisation per graph, returning at the first
        failure. */
    method InitDevices(rt: Runtime) returns (st: Status)
      modifies rt
      ensures rt.log == old(rt.log) + InitCalls(graphs[..InitStop(rt.replies, |old(rt.log)|, |graphs|, 0)])
      ensures st == InitStatus(rt.replies, |old(rt.log)|, |graphs|, 0)
    {
      ghost var k, log0, replies := |rt.log|, rt.log, rt.replies;
      var gs := graphs;
      st := HiaiOk;
      for i := 0 to |gs|
        invariant rt.log == log0 + InitCalls(gs[..i])
        invariant InitStop(replies, k, |gs|, i) == InitStop(replies, k, |gs|, 0)
        invariant InitStatus(replies, k, |gs|, i) == InitStatus(replies, k, |gs|, 0)
        invariant st == HiaiOk
      {
        CallsPrefixStep(gs, i);
        st := rt.Invoke(HiaiInit(gs[i].deviceId));
        if st != HiaiOk {
          return;
        }
      }
      assert gs[..|gs|] == gs;
    }

    /** `maintainGraph`: rebuilds the message from an empty list, one entry per graph in
        order. The result depends on the graphs only, never on the previous message. */
    method MaintainGraph()
      modifies this`graphConfigList
      ensures graphConfigList == Some(TranslateGraphs(graphs))
    {
      var gs := graphs;
      var list: seq<GraphConfig> := [];
      for gi := 0 to |gs|
        invariant |list| == gi
        invariant forall j :: 0 <= j < gi ==> list[j] == TranslateGraph(gs[j])
      {
        var entry := BuildGraphEntry(gs[gi]);
        list := list + [entry];
      }
      assert list == MapSeq(TranslateGraph, gs);
      graphConfigList := Some(GraphConfigList(list));
    }
  }

  /** The body of `maintainGraph`'s loop for one graph: the id, the device id as decimal
      text and the priority, then one entry per engine and one per connection, in
      order. */
  method BuildGraphEntry(graph: Graph) returns (entry: GraphConfig)
    ensures entry == TranslateGraph(graph)
  {
    var engineEntries: seq<EngineConfig> := [];
    for ei := 0 to |graph.engines|
      invariant |engineEntries| == ei
      invariant forall j :: 0 <= j < ei ==> engineEntries[j] == TranslateEngine(graph.engines[j])
    {
      var engineEntry := BuildEngineEntry(graph.engines[ei]);
      engineEntries := engineEntries + [engineEntry];
    }
    var connectEntries: seq<ConnectConfig> := [];
    for ci := 0 to |graph.connects|
      invariant |connectEntries| == ci
      invariant forall j :: 0 <= j < ci ==> connectEntries[j] == TranslateConnection(graph.connects[j])
    {
      var c := graph.connects[ci];
      connectEntries := connectEntries + [ConnectConfig(c.srcEngineId, c.srcPortId,
                                                        c.targetEngineId, c.targetPortId)];
    }
    assert engineEntries == MapSeq(TranslateEngine, graph.engines);
    assert connectEntries == MapSeq(TranslateConnection, graph.connects);
    entry := GraphConfig(graph.graphId, DecimalText(graph.deviceId as nat), graph.priority,
                         engineEntries, connectEntries);
  }

  /** The body of `maintainGraph`'s loop for one engine: the serialised fields, the
      library names one by one and the AI configuration items one by one. */
  method BuildEngineEntry(e: Engine) returns (entry: EngineConfig)
    ensures entry == TranslateEngine(e)
  {
    var soNames: seq<string> := [];
    for si := 0 to |e.soName|
      invariant soNames == e.soName[..si]
    {
      soNames := soNames + [e.soName[si]];
    }
    var items: seq<ItemConfig> := [];
    for ii := 0 to |e.aiConfig.items|
      invariant |items| == ii
      invariant forall j :: 0 <= j < ii ==> items[j] == TranslateItem(e.aiConfig.items[j])
    {
      var it := e.aiConfig.items[ii];
      items := items + [ItemConfig(it.name, it.value)];
    }
    assert soNames == e.soName;
    assert items == MapSeq(TranslateItem, e.aiConfig.items);
    entry := EngineConfig(e.id, e.engineName, e.side, e.threadNum, e.queueSize, soNames, items);
  }

  // ---- Clients: what a caller can conclude from the contracts alone ----

  /** Adding graphs one by one and asking for each index's id gives back the ids the
      graphs were built with, in insertion order. */
  method AddedGraphIds(gs: seq<Graph>) returns (ids: seq<uint32>)
    ensures |ids| == |gs|
    ensures forall i :: 0 <= i < |gs| ==> ids[i] == gs[i].graphId
  {
    var dg := WithGraphs(gs);
    ids := [];
    for i := 0 to |gs|
      invariant |ids| == i
      invariant forall j :: 0 <= j < i ==> ids[j] == gs[j].graphId
    {
      ids := ids + [dg.GetGraphId(i)];
    }
  }

  /** A fresh object to which the graphs `gs` were added in order. */
  method WithGraphs(gs: seq<Graph>) returns (dg: DynamicGraph)
    ensures fresh(dg) && dg.graphs == gs && dg.graphConfigList == None
  {
    dg := new DynamicGraph();
    for i := 0 to |gs|
      invariant dg.graphs == gs[..i] && dg.graphConfigList == None
    {
      dg.AddGraph(gs[i]);
      assert gs[..i + 1] == gs[..i] + [gs[i]];
    }
    assert gs[..|gs|] == gs;
  }

  /** Rebuilding the message twice gives the same message both times, the translation
      of the graphs: the second rebuild starts from an empty list instead of appending
      to the first. */
  method RebuildTwice(gs: seq<Graph>) returns (first: GraphConfigList, second: GraphConfigList)
    ensures first == second
    ensures |first.graphs| == |gs|
    ensures forall i :: 0 <= i < |gs| ==> first.graphs[i] == TranslateGraph(gs[i])
  {
    var dg := WithGraphs(gs);
    dg.MaintainGraph();
    first := dg.graphConfigList.value;
    dg.MaintainGraph();
    second := dg.graphConfigList.value;
  }

  /** Creating with no graphs reports `HIAI_ERROR` and makes no runtime call at all. */
  method CreateWithoutGraphs(replies: seq<Status>, instances: seq<bool>)
    returns (st: Status, calls: seq<Call>)
    ensures st == HiaiError && calls == []
  {
    var rt := new Runtime(replies, instances);
    var dg := new DynamicGraph();
    st := dg.CreateGraph(rt);
    calls := rt.log;
  }

  /** Two graphs whose second device fails to initialise: both devices are initialised,
      then the message is still built and graph creation is still called, and its
      status, not the initialisation failure, is what `createGraph` returns. */
  method CreateAfterDeviceFailure(a: Graph, b: Graph, created: Status)
    returns (st: Status, calls: seq<Call>)
    ensures calls == [HiaiInit(a.deviceId), HiaiInit(b.deviceId), GraphCreate(TranslateGraphs([a, b]))]
    ensures st == created
  {
    var rt := new Runtime([HiaiOk, HiaiError, created], []);
    var dg := new DynamicGraph();
    dg.AddGraph(a);
    dg.AddGraph(b);
    assert dg.graphs == [a, b];
    assert InitStop(rt.replies, 0, 2, 0) == 2;
    assert [a, b][..2] == [a, b];
    assert InitCalls([a, b]) == [HiaiInit(a.deviceId), HiaiInit(b.deviceId)] by {
      CallsPerGraph([a, b]);
    }
    st := dg.CreateGraph(rt);
    calls := rt.log;
  }

  /** Three graphs whose middle one fails to be destroyed: all three are destroyed in
      order and the middle one's failure is returned. */
  method DestroyWithMiddleFailure(a: Graph, b: Graph, c: Graph, failure: Status)
    returns (st: Status, calls: seq<Call>)
    requires failure != HiaiOk
    ensures calls == [GraphDestroy(a.graphId), GraphDestroy(b.graphId), GraphDestroy(c.graphId)]
    ensures st == failure
  {
    var rt := new Runtime([HiaiOk, failure, HiaiOk], []);
    var dg := new DynamicGraph();
    dg.AddGraph(a);
    dg.AddGraph(b);
    dg.AddGraph(c);
    assert dg.graphs == [a, b, c];
    assert DestroyCalls([a, b, c]) == [GraphDestroy(a.graphId), GraphDestroy(b.graphId), GraphDestroy(c.graphId)] by {
      CallsPerGraph([a, b, c]);
    }
    st := dg.DestroyGraph(rt);
    calls := rt.log;
    var rs := Replies(rt.replies, 0, |calls|);
    assert rs == [HiaiOk, failure, HiaiOk];
    assert rs[..2] == [HiaiOk, failure] && rs[..2][..1] == [HiaiOk];
  }
}
