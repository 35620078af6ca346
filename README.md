# DynamicGraph: a Dafny model

`dg::DynamicGraph` (Common/DynamicGraph.h) is a small builder layer over the HIAI engine
SDK. A caller describes one or more processing graphs as plain values: engines with
their configuration items, and connections between engine ports. It adds them to a
`DynamicGraph`, which then:

- initialises each graph's device;
- translates the descriptions into the SDK's `GraphConfigList` message;
- asks the runtime to create the graphs, and later to destroy them;
- forwards data-receiver registrations and data sends to a port of a live graph.

The model has seven modules:

- `HiaiTypes` (hiai_types.dfy): the SDK types the layer uses. These are the 32-bit
  integers, the status code, the run side, the port address, and the configuration
  message.
- `HiaiRuntime` (hiai_runtime.dfy): the runtime as an injected object.
  - Its answers are lists fixed when it is made: `replies` for status-returning calls,
    and `instances` for graph lookups. Both are indexed by the position of the call in
    the log.
  - Every call is appended to `log`, so a contract can state exactly which calls were
    made, in which order, with which arguments.
- `Dg` (dg.dfy): the value types `AIConfigItem`, `AIConfig`, `engine`, `connection`,
  `graph` and `NodeInfo`, with their constructors and builders.
  - The C++ copies these structs into vectors by value, so each is a datatype.
  - A builder that pushes onto a member vector is a function returning the updated value.
  - Fields a constructor leaves uninitialised come in as extra parameters, so they may
    hold any value.
- `Decimal` (decimal.dfy): `std::to_string` on an unsigned number, with its inverse.
- `Seqs` (seqs.dfy): mapping a function over a sequence.
- `Translate` (translate.dfy): the field-by-field translation that `maintainGraph`
  performs, and what it keeps and drops.
  - A read-back function inverts the translation up to the dropped fields.
  - Erasure functions say exactly which fields are dropped.
- `DynamicGraphs` (dynamic_graph.dfy): the `DynamicGraph` class.
  - Its fields are `graphs` and the (possibly null) message.
  - Each of its loops is a method proved against a specification function:
    - `initDevices` against `InitStop` / `InitStatus`, which agree with the first failure;
    - `destroyGraph` against `LastFailure`;
    - `maintainGraph` against `TranslateGraphs`.
  - Client methods at the end show what a caller can conclude from the contracts alone.

`createGraph` ignores the status of `initDevices` (Common/DynamicGraph.h:168). A device
that fails to initialise stops the remaining initialisations. It does not stop the
translation or the creation call, and the status returned is that of the creation call.
A description of this layer that expects the initialisation failure to be returned and
creation to be skipped does not match the code. The model follows the code, and
`DynamicGraphs.CreateAfterDeviceFailure` states the behaviour as written.

## Model

| member | source | states |
|---|---|---|
| Dg.AIConfig.AddAIConfigItem | Common/DynamicGraph.h:51-66 | one item more, appended last; the earlier items are unchanged |
| Dg.DefaultEngine | Common/DynamicGraph.h:74-93 | `engine()`: empty name and library lists, no configuration items, queue size 0; every other field holds whatever was there before |
| Dg.NewEngine | Common/DynamicGraph.h:75-81 | the four constructor arguments land in name, id, thread count and side; the rest is the default engine |
| Dg.NewConnection | Common/DynamicGraph.h:98-104 | the four ids are copied verbatim; the target graph id is never set |
| Dg.ConnectEngines | Common/DynamicGraph.h:105-111 | the engine-based constructor gives the same connection as the id-based one applied to the two engines' ids |
| Dg.Graph.AddEngine | Common/DynamicGraph.h:131-138 | one engine more, appended last; earlier engines, connections, ids and priority unchanged |
| Dg.Graph.AddConnection | Common/DynamicGraph.h:139-146 | one connection more, appended last; earlier connections, engines, ids and priority unchanged |
| Dg.NewGraph | Common/DynamicGraph.h:120-125 | graph id, device id and priority (0 by default) are set; no engines and no connections |
| Dg.PortAddress | Common/DynamicGraph.h:199-202 | the port address is the node's graph id, engine id and port |
| Dg.PortAddressDeterminedByIds | Common/DynamicGraph.h:212-215 | two nodes give the same address exactly when their graph ids, engine ids and ports agree |
| Decimal.DecimalText | Common/DynamicGraph.h:238 | the device id text is a canonical digit string, "0" only for 0 |
| Decimal.ValueOfText | Common/DynamicGraph.h:238 | the text denotes the device id it was made from |
| Decimal.TextInjective | Common/DynamicGraph.h:238 | distinct device ids give distinct texts, and equal ids give equal texts |
| Decimal.TextOfValue | Common/DynamicGraph.h:238 | every canonical digit string is the text of the number it denotes |
| Translate.TranslateGraphsShape | Common/DynamicGraph.h:231-268 | one entry per graph, in order; id and priority are copied, the device id is its decimal text, and the engine and connection entries are one per element, in order |
| Translate.TranslateRoundTrip | Common/DynamicGraph.h:235-266 | reading a translated graph back gives the graph with only the unserialised fields reset |
| Translate.ReadBackThenTranslate | Common/DynamicGraph.h:235-266 | every entry that reads back is the translation of what it reads back to |
| Translate.TranslateDropsExactlyErased | Common/DynamicGraph.h:241-266 | two graphs translate alike exactly when they agree outside thread priority, internal library names, wait time, the two flags and the target graph id |
| Translate.TranslateAddGraph | Common/DynamicGraph.h:235-239 | adding a graph appends its entry at the end of the message |
| Translate.TranslateAddEngine | Common/DynamicGraph.h:241-258 | adding an engine appends its entry at the end of the graph's engine entries |
| Translate.TranslateAddConnection | Common/DynamicGraph.h:260-266 | adding a connection appends its entry at the end of the graph's connection entries |
| Translate.TranslateAddAIConfigItem | Common/DynamicGraph.h:253-257 | adding an item appends its name/value pair at the end of the engine entry's items |
| DynamicGraphs.FirstFailureSpec | Common/DynamicGraph.h:220-230 | the first-failure fold is success exactly when every reply is; otherwise it is a failing reply with only successes before it |
| DynamicGraphs.LastFailureSpec | Common/DynamicGraph.h:181-191 | the last-failure fold is success exactly when every reply is; otherwise it is a failing reply with only successes after it |
| DynamicGraphs.InitStop | Common/DynamicGraph.h:223-228 | the number of devices initialised is at least one when a graph remains, and never more than the number of graphs |
| DynamicGraphs.InitDevicesFirstFailure | Common/DynamicGraph.h:220-230 | every initialisation but the last succeeded; the loop stops early only after a failure; the status is the first failure over all graphs' replies |
| DynamicGraphs.DynamicGraph.constructor | Common/DynamicGraph.h:269-270 | no graphs and a null message |
| DynamicGraphs.DynamicGraph.AddGraph | Common/DynamicGraph.h:153-160 | the graph is appended last; the message is unchanged |
| DynamicGraphs.DynamicGraph.GetGraphId | Common/DynamicGraph.h:161-164 | the id of the graph at that insertion index |
| DynamicGraphs.DynamicGraph.CreateGraph | Common/DynamicGraph.h:165-180 | no graphs: HIAI_ERROR, no call, nothing changed; otherwise the init calls, then one create call with the translation of all graphs, which becomes the stored message; the status is the create call's reply, whatever the inits returned |
| DynamicGraphs.DynamicGraph.DestroyGraph | Common/DynamicGraph.h:181-191 | one destroy call per graph id, in order, even after failures; returns the last failing reply, or success |
| DynamicGraphs.DynamicGraph.SetDataRecvFunctor | Common/DynamicGraph.h:192-204 | looks the graph up by id; if none is found, HIAI_ERROR and nothing else; otherwise one registration at the node's port address, returning its reply |
| DynamicGraphs.DynamicGraph.SendData | Common/DynamicGraph.h:205-217 | looks the graph up by id; if none is found, HIAI_ERROR and nothing else; otherwise one send of the named message to the node's port address, returning its reply |
| DynamicGraphs.DynamicGraph.InitDevices | Common/DynamicGraph.h:220-230 | the init calls are the graphs' device ids in order, up to and including the first failure; the status is that failure, or success |
| DynamicGraphs.DynamicGraph.MaintainGraph | Common/DynamicGraph.h:231-268 | the stored message becomes the translation of the graphs, built afresh whatever it held before |
| DynamicGraphs.BuildGraphEntry | Common/DynamicGraph.h:236-266 | the loop body for one graph builds exactly that graph's translation |
| DynamicGraphs.BuildEngineEntry | Common/DynamicGraph.h:242-257 | the loop body for one engine builds exactly that engine's translation |
| DynamicGraphs.AddedGraphIds | Common/DynamicGraph.h:153-164 | ids read back by index follow insertion order |
| DynamicGraphs.RebuildTwice | Common/DynamicGraph.h:233-234 | rebuilding twice gives the same message, one entry per graph |
| DynamicGraphs.CreateWithoutGraphs | Common/DynamicGraph.h:167-173 | with no graphs, creation reports HIAI_ERROR and makes no runtime call |
| DynamicGraphs.CreateAfterDeviceFailure | Common/DynamicGraph.h:165-179 | when the second device fails, both inits are made, creation is still called with both graphs, and its reply is returned |
| DynamicGraphs.DestroyWithMiddleFailure | Common/DynamicGraph.h:181-191 | all three graphs are destroyed in order, and the middle failure is returned |

## Left out

- What the HIAI runtime does is not modelled. Its replies are lists fixed in advance.
  - A status-returning call past the end of the list succeeds.
  - A lookup past the end of its list finds no graph.
- The numeric values of `HIAI_OK` and `HIAI_ERROR`, and the error-code registration in
  Common/Common.h, belong to the SDK's logging. A status is one of success,
  `HIAI_ERROR`, or another failure code.
- Several pieces of output are not modelled, because they change no state and return
  nothing the layer uses:
  - the text printing of the message in `createGraph`;
  - the commented-out file write;
  - the `printf` diagnostics.
- Copy and move overloads are one operation each. They differ only in what is left in
  the moved-from object, which the layer never reads again.
- Dg.DefaultEngine: an uninitialised `RunSide` is taken to be one of the enum's two
  values. In C++, reading an indeterminate enum is undefined behaviour.
- DynamicGraphs.DynamicGraph.GetGraphId: requires an index in range. The C++ indexes
  the vector unchecked, and an index out of range is undefined behaviour.
- DynamicGraphs.DynamicGraph.SetDataRecvFunctor: the receiver object is not recorded.
  It is an opaque callback passed through unchanged.
- DynamicGraphs.DynamicGraph.SendData: the payload pointer is not recorded, only the
  message name. The payload is opaque and passed through unchanged.
- The lifetime of the `shared_ptr` message and of graph instances, and any concurrent
  use, are not modelled. The class has no locking.
