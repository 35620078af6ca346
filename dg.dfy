/** The graph-description value types of namespace `dg`: configuration items, engines,
    connections and graphs, with their constructors and append-only builders. The C++
    structs are copied by value into the vectors that hold them, so each is a datatype
    here, and a builder that pushes onto a member vector is a function returning the
    updated value (`g.addEngine(e)` is `g := g.AddEngine(e)`). */
module Dg {
  import opened HiaiTypes

  /** One named configuration value. The default constructor leaves both strings empty. */
  datatype AIConfigItem = AIConfigItem(name: string, value: string)

  /** The ordered configuration items of one engine. */
  datatype AIConfig = AIConfig(items: seq<AIConfigItem>) {

    /** `addAIConfigItem`: appends `it` after the existing items. The overload taking a
        name and a value appends `AIConfigItem(n, v)`. */
    function AddAIConfigItem(it: AIConfigItem): (c: AIConfig)
      ensures |c.items| == |items| + 1 && c.items[|items|] == it
      ensures c.items[..|items|] == items
    {
      AIConfig(items + [it])
    }
  }

  /** The values an engine holds in the fields its constructors do not initialise: the
      C++ leaves them indeterminate, so a caller of the model supplies them freely. */
  datatype EngineUnset = EngineUnset(
    id: uint32,
    side: RunSide,
    threadNum: uint32,
    threadPriority: uint32,
    waitInputdataMaxTime: uint32,
    holdModelFileFlag: uint32,
    isRepeatTimeoutFlag: bool)

  /** One processing node. */
  datatype Engine = Engine(
    id: uint32,
    engineName: string,
    soName: seq<string>,
    side: RunSide,
    threadNum: uint32,
    threadPriority: uint32,
    queueSize: uint32,
    aiConfig: AIConfig,
    internalSoName: seq<string>,
    waitInputdataMaxTime: uint32,
    holdModelFileFlag: uint32,
    isRepeatTimeoutFlag: bool)

  /** `engine()`: empty name and lists, queue size 0 from its member initialiser, every
      other field as uninitialised memory left it. */
  function DefaultEngine(u: EngineUnset): (e: Engine)
    ensures e.engineName == "" && e.soName == [] && e.internalSoName == []
    ensures e.queueSize == 0 && e.aiConfig.items == []
    ensures e.id == u.id && e.side == u.side && e.threadNum == u.threadNum
    ensures e.threadPriority == u.threadPriority && e.waitInputdataMaxTime == u.waitInputdataMaxTime
    ensures e.holdModelFileFlag == u.holdModelFileFlag && e.isRepeatTimeoutFlag == u.isRepeatTimeoutFlag
  {
    Engine(u.id, "", [], u.side, u.threadNum, u.threadPriority, 0, AIConfig([]), [],
           u.waitInputdataMaxTime, u.holdModelFileFlag, u.isRepeatTimeoutFlag)
  }

  /** `engine(engineName, engineId, threadNum, runSide)`: the default engine with those
      four fields set; thread priority, wait time and the two flags stay uninitialised. */
  function NewEngine(engineName: string, engineId: uint32, threadNum: uint32, runSide: RunSide,
                     u: EngineUnset): (e: Engine)
    ensures e.engineName == engineName && e.id == engineId
    ensures e.threadNum == threadNum && e.side == runSide
    ensures e == DefaultEngine(u).(engineName := engineName, id := engineId,
                                   threadNum := threadNum, side := runSide)
  {
    Engine(engineId, engineName, [], runSide, threadNum, u.threadPriority, 0, AIConfig([]), [],
           u.waitInputdataMaxTime, u.holdModelFileFlag, u.isRepeatTimeoutFlag)
  }

  /** A directed edge from one engine port to another. `connection()` leaves every
      field uninitialised, so any value of this type is a default connection. */
  datatype Connection = Connection(
    srcEngineId: uint32,
    srcPortId: uint32,
    targetGraphId: uint32,
    targetEngineId: uint32,
    targetPortId: uint32)

  /** `connection(src_id, src_port, dst_id, dst_port)`: the four ids verbatim;
      `target_graph_id` is never set, so it is whatever `unsetTargetGraphId` says. */
  function NewConnection(srcId: uint32, srcPort: uint32, dstId: uint32, dstPort: uint32,
                         unsetTargetGraphId: uint32): (c: Connection)
    ensures c.srcEngineId == srcId && c.srcPortId == srcPort
    ensures c.targetEngineId == dstId && c.targetPortId == dstPort
    ensures c.targetGraphId == unsetTargetGraphId
  {
    Connection(srcId, srcPort, unsetTargetGraphId, dstId, dstPort)
  }

  /** `connection(src_engine, src_port, dst_engine, dst_port)`: the same edge as the
      id-based constructor given the two engines' ids; nothing else of the engines is read. */
  function ConnectEngines(src: Engine, srcPort: uint32, dst: Engine, dstPort: uint32,
                          unsetTargetGraphId: uint32): (c: Connection)
    ensures c.srcEngineId == src.id && c.srcPortId == srcPort
    ensures c.targetEngineId == dst.id && c.targetPortId == dstPort
    ensures c == NewConnection(src.id, srcPort, dst.id, dstPort, unsetTargetGraphId)
  {
    Connection(src.id, srcPort, unsetTargetGraphId, dst.id, dstPort)
  }

  /** One topology: its engines and connections in insertion order. */
  datatype Graph = Graph(
    graphId: uint32,
    priority: int32,
    deviceId: uint32,
    engines: seq<Engine>,
    connects: seq<Connection>)
  {
    /** `addEngine`: appends `e` after the existing engines; nothing else changes. */
    function AddEngine(e: Engine): (g: Graph)
      ensures |g.engines| == |engines| + 1 && g.engines[|engines|] == e
      ensures g.engines[..|engines|] == engines
      ensures g.connects == connects
      ensures g.graphId == graphId && g.deviceId == deviceId && g.priority == priority
    {
      this.(engines := engines + [e])
    }

    /** `addConnection`: appends `c` after the existing connections; nothing else changes. */
    function AddConnection(c: Connection): (g: Graph)
      ensures |g.connects| == |connects| + 1 && g.connects[|connects|] == c
      ensures g.connects[..|connects|] == connects
      ensures g.engines == engines
      ensures g.graphId == graphId && g.deviceId == deviceId && g.priority == priority
    {
      this.(connects := connects + [c])
    }
  }

  /** `graph(id, device, prior = 0)`: no engines and no connections yet. */
  function NewGraph(id: uint32, device: uint32, prior: int32 := 0): (g: Graph)
    ensures g.graphId == id && g.deviceId == device && g.priority == prior
    ensures g.engines == [] && g.connects == []
  {
    Graph(id, prior, device, [], [])
  }

  /** `NodeInfo`, the tuple (graph, engine, port) that addresses a port. */
  datatype NodeInfo = NodeInfo(graph: Graph, engine: Engine, port: uint32)

  /** The `hiai::EnginePortID` built from a node: the graph's id, the engine's id and the
      port. Nothing checks that the engine belongs to the graph. */
  function PortAddress(node: NodeInfo): (p: EnginePortId)
    ensures p.graphId == node.graph.graphId
    ensures p.engineId == node.engine.id
    ensures p.portId == node.port
  {
    EnginePortId(node.graph.graphId, node.engine.id, node.port)
  }

  /** Two nodes address the same port exactly when their graph ids, engine ids and port
      indices agree; every other field of the graph and the engine is irrelevant. */
  lemma PortAddressDeterminedByIds(a: NodeInfo, b: NodeInfo)
    ensures PortAddress(a) == PortAddress(b) <==>
      (a.graph.graphId == b.graph.graphId && a.engine.id == b.engine.id && a.port == b.port)
  {
  }
}
