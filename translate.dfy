/** The field-copy translation of graph descriptions into the configuration message,
    as `DynamicGraph::maintainGraph` performs it, and what it keeps and drops. */
module Translate {
  import opened HiaiTypes
  import opened Seqs
  import opened Decimal
  import opened Dg

  datatype Option<T> = None | Some(value: T)

  function TranslateItem(it: AIConfigItem): ItemConfig {
    ItemConfig(it.name, it.value)
  }

  /** Copies id, name, side, thread count, queue size, the library names and the
      configuration items; thread priority, the internal library names, the wait time
      and the two flags are not emitted. */
  function TranslateEngine(e: Engine): EngineConfig {
    EngineConfig(e.id, e.engineName, e.side, e.threadNum, e.queueSize, e.soName,
                 MapSeq(TranslateItem, e.aiConfig.items))
  }

  /** Copies the four engine and port ids; `target_graph_id` is not emitted. */
  function TranslateConnection(c: Connection): ConnectConfig {
    ConnectConfig(c.srcEngineId, c.srcPortId, c.targetEngineId, c.targetPortId)
  }

  /** One graph entry: the device id is rendered as decimal text. */
  function TranslateGraph(g: Graph): GraphConfig {
    GraphConfig(g.graphId, DecimalText(g.deviceId as nat), g.priority,
                MapSeq(TranslateEngine, g.engines), MapSeq(TranslateConnection, g.connects))
  }

  /** The whole message: one entry per graph, in order, built on an empty list. */
  function TranslateGraphs(gs: seq<Graph>): GraphConfigList {
    GraphConfigList(MapSeq(TranslateGraph, gs))
  }

  /** The message has exactly one entry per graph, in order, with the same graph id and
      priority, the device id as the canonical decimal text of the numeric id, and per
      graph as many engine and connection entries as the graph has, in the same order. */
  lemma TranslateGraphsShape(gs: seq<Graph>)
    ensures |TranslateGraphs(gs).graphs| == |gs|
    ensures forall i :: 0 <= i < |gs| ==>
      var m := TranslateGraphs(gs).graphs[i];
      && m.graphId == gs[i].graphId
      && m.priority == gs[i].priority
      && IsCanonical(m.deviceId)
      && DecimalValue(m.deviceId) == gs[i].deviceId as nat
      && |m.engines| == |gs[i].engines|
      && |m.connects| == |gs[i].connects|
      && (forall j :: 0 <= j < |gs[i].engines| ==> m.engines[j] == TranslateEngine(gs[i].engines[j]))
      && (forall j :: 0 <= j < |gs[i].connects| ==> m.connects[j] == TranslateConnection(gs[i].connects[j]))
  {
    forall i | 0 <= i < |gs| ensures DecimalValue(DecimalText(gs[i].deviceId as nat)) == gs[i].deviceId as nat {
      ValueOfText(gs[i].deviceId as nat);
    }
  }

  // ---- What the translation keeps: reading a message back ----

  /** The engine with every field the translation drops reset to a fixed value. */
  function EraseEngine(e: Engine): Engine {
    e.(threadPriority := 0, internalSoName := [], waitInputdataMaxTime := 0,
       holdModelFileFlag := 0, isRepeatTimeoutFlag := false)
  }

  function EraseConnection(c: Connection): Connection {
    c.(targetGraphId := 0)
  }

  /** The graph as far as the message can tell: dropped fields reset in every engine
      and connection. */
  function EraseGraph(g: Graph): Graph {
    g.(engines := MapSeq(EraseEngine, g.engines), connects := MapSeq(EraseConnection, g.connects))
  }

  function ReadBackItem(m: ItemConfig): AIConfigItem {
    AIConfigItem(m.name, m.value)
  }

  function ReadBackEngine(m: EngineConfig): Engine {
    Engine(m.id, m.engineName, m.soName, m.side, m.threadNum, 0, m.queueSize,
           AIConfig(MapSeq(ReadBackItem, m.aiConfigItems)), [], 0, 0, false)
  }

  function ReadBackConnection(m: ConnectConfig): Connection {
    Connection(m.srcEngineId, m.srcPortId, 0, m.targetEngineId, m.targetPortId)
  }

  /** Reads a graph entry back into a description; fails unless the device id is the
      canonical decimal text of a 32-bit unsigned number. */
  function ReadBackGraph(m: GraphConfig): Option<Graph> {
    if IsCanonical(m.deviceId) && DecimalValue(m.deviceId) < 0x1_0000_0000 then
      Some(Graph(m.graphId, m.priority, DecimalValue(m.deviceId) as uint32,
                 MapSeq(ReadBackEngine, m.engines), MapSeq(ReadBackConnection, m.connects)))
    else
      None
  }

  /** Reading back a translated graph recovers the graph field for field, except the
      fields the translation does not emit. */
  lemma TranslateRoundTrip(g: Graph)
    ensures ReadBackGraph(TranslateGraph(g)) == Some(EraseGraph(g))
  {
    ValueOfText(g.deviceId as nat);
    forall e | e in g.engines
      ensures ReadBackEngine(TranslateEngine(e)) == EraseEngine(e)
    {
      MapSeqCompose(TranslateItem, ReadBackItem, (it: AIConfigItem) => it, e.aiConfig.items);
      assert MapSeq((it: AIConfigItem) => it, e.aiConfig.items) == e.aiConfig.items;
    }
    var m := TranslateGraph(g);
    assert MapSeq(ReadBackEngine, m.engines) == MapSeq(EraseEngine, g.engines);
    assert MapSeq(ReadBackConnection, m.connects) == MapSeq(EraseConnection, g.connects);
  }

  /** Every graph entry that reads back is the translation of what it reads back to:
      translation is onto the well-formed entries. */
  lemma ReadBackThenTranslate(m: GraphConfig, g: Graph)
    requires ReadBackGraph(m) == Some(g)
    ensures TranslateGraph(g) == m
  {
    TextOfValue(m.deviceId);
    forall em | em in m.engines
      ensures TranslateEngine(ReadBackEngine(em)) == em
    {
      MapSeqCompose(ReadBackItem, TranslateItem, (it: ItemConfig) => it, em.aiConfigItems);
      assert MapSeq((it: ItemConfig) => it, em.aiConfigItems) == em.aiConfigItems;
    }
    assert MapSeq(TranslateEngine, g.engines) == m.engines;
    assert MapSeq(TranslateConnection, g.connects) == m.connects;
  }

  /** Two graphs give the same entry exactly when they agree on every field the
      translation copies: the dropped fields are the erased ones and no others. */
  lemma TranslateDropsExactlyErased(g1: Graph, g2: Graph)
    ensures TranslateGraph(g1) == TranslateGraph(g2) <==> EraseGraph(g1) == EraseGraph(g2)
  {
    TranslateRoundTrip(g1);
    TranslateRoundTrip(g2);
    if EraseGraph(g1) == EraseGraph(g2) {
      ReadBackThenTranslate(TranslateGraph(g1), EraseGraph(g1));
      ReadBackThenTranslate(TranslateGraph(g2), EraseGraph(g2));
    }
  }

  // ---- Translation commutes with the builders ----

  /** Adding an engine adds its translation at the end of the graph's engine entries. */
  lemma TranslateAddEngine(g: Graph, e: Engine)
    ensures TranslateGraph(g.AddEngine(e)) ==
      TranslateGraph(g).(engines := TranslateGraph(g).engines + [TranslateEngine(e)])
  {
    MapSeqSnoc(TranslateEngine, g.engines, e);
  }

  /** Adding a graph adds its entry at the end of the message. */
  lemma TranslateAddGraph(gs: seq<Graph>, g: Graph)
    ensures TranslateGraphs(gs + [g]).graphs == TranslateGraphs(gs).graphs + [TranslateGraph(g)]
  {
    MapSeqSnoc(TranslateGraph, gs, g);
  }

  /** Adding a connection adds its translation at the end of the connection entries. */
  lemma TranslateAddConnection(g: Graph, c: Connection)
    ensures TranslateGraph(g.AddConnection(c)) ==
      TranslateGraph(g).(connects := TranslateGraph(g).connects + [TranslateConnection(c)])
  {
    MapSeqSnoc(TranslateConnection, g.connects, c);
  }

  /** Adding a configuration item to an engine adds its name/value pair at the end of
      the engine entry's items. */
  lemma TranslateAddAIConfigItem(e: Engine, it: AIConfigItem)
    ensures TranslateEngine(e.(aiConfig := e.aiConfig.AddAIConfigItem(it))) ==
      TranslateEngine(e).(aiConfigItems := TranslateEngine(e).aiConfigItems + [TranslateItem(it)])
  {
    MapSeqSnoc(TranslateItem, e.aiConfig.items, it);
  }
}
