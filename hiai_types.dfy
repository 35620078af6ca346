/** The types this layer borrows from the HIAI engine SDK: fixed-width integers, the
    status code, the run-side enumeration, the port address, and the configuration
    message (`hiai::GraphConfigList`) that the translation fills in. */
module HiaiTypes {

  newtype uint32 = x: int | 0 <= x < 0x1_0000_0000
  newtype int32 = x: int | -0x8000_0000 <= x < 0x8000_0000

  /** `HIAI_StatusT`. Only three things about it matter here: the success code
      `HIAI_OK`, the generic failure `HIAI_ERROR` that this layer reports on its own,
      and any other failure code the runtime may hand back. Their numeric values
      belong to the SDK and are not modelled. */
  datatype Status = HiaiOk | HiaiError | OtherError(code: nat)

  /** `hiai::EngineConfig_RunSide`; `dg::engine::RunSide` is defined with the same
      values, so the cast in the translation is the identity. */
  datatype RunSide = DEVICE | HOST

  /** `hiai::EnginePortID`: one port of one engine of one graph. */
  datatype EnginePortId = EnginePortId(graphId: uint32, engineId: uint32, portId: uint32)

  /** `hiai::AIConfigItem` of the message. */
  datatype ItemConfig = ItemConfig(name: string, value: string)

  /** `hiai::EngineConfig` of the message: the fields the translation sets. */
  datatype EngineConfig = EngineConfig(
    id: uint32,
    engineName: string,
    side: RunSide,
    threadNum: uint32,
    queueSize: uint32,
    soName: seq<string>,
    aiConfigItems: seq<ItemConfig>)

  /** `hiai::ConnectConfig` of the message. */
  datatype ConnectConfig = ConnectConfig(
    srcEngineId: uint32,
    srcPortId: uint32,
    targetEngineId: uint32,
    targetPortId: uint32)

  /** `hiai::GraphConfig`: the device id travels as text. */
  datatype GraphConfig = GraphConfig(
    graphId: uint32,
    deviceId: string,
    priority: int32,
    engines: seq<EngineConfig>,
    connects: seq<ConnectConfig>)

  /** `hiai::GraphConfigList`, the message handed to graph creation. */
  datatype GraphConfigList = GraphConfigList(graphs: seq<GraphConfig>)
}
