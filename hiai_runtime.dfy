/** The HIAI runtime as an injected collaborator. What it does is not modelled: its
    answers are lists fixed when the runtime object is made, and every call is
    recorded, in order, in `log`. */
module HiaiRuntime {
  import opened HiaiTypes

  /** One call into the runtime. */
  datatype Call =
    | HiaiInit(deviceId: uint32)                               // HIAI_Init
    | GraphCreate(config: GraphConfigList)                     // hiai::Graph::CreateGraph
    | GraphDestroy(graphId: uint32)                            // hiai::Graph::DestroyGraph
    | GraphGetInstance(graphId: uint32)                        // hiai::Graph::GetInstance
    | GraphSetDataRecvFunctor(port: EnginePortId)              // hiai::Graph::SetDataRecvFunctor
    | GraphSendData(port: EnginePortId, messageName: string)   // hiai::Graph::SendData

  /** The status the runtime returns to the call made when `k` calls precede it: the
      k-th listed reply, and `HIAI_OK` past the end of the list. Every method here makes
      its calls in an order fixed by the replies already received, so indexing by
      position loses nothing over an oracle that also sees the call. */
  function ReplyAt(replies: seq<Status>, k: nat): Status {
    if k < |replies| then replies[k] else HiaiOk
  }

  /** Whether `GetInstance`, made when `k` calls precede it, finds a live graph; past
      the end of the list it finds none. */
  function FoundAt(instances: seq<bool>, k: nat): bool {
    k < |instances| && instances[k]
  }

  class Runtime {
    /** The replies to status-returning calls, by position in the log. */
    const replies: seq<Status>
    /** The answers of graph-instance lookups, by position in the log. */
    const instances: seq<bool>
    /** Every call made so far, oldest first. */
    var log: seq<Call>

    constructor (replies: seq<Status>, instances: seq<bool>)
      ensures this.replies == replies && this.instances == instances && log == []
    {
      this.replies := replies;
      this.instances := instances;
      log := [];
    }

    /** Makes a status-returning call. */
    method Invoke(c: Call) returns (st: Status)
      requires !c.GraphGetInstance?
      modifies this
      ensures log == old(log) + [c]
      ensures st == ReplyAt(replies, |old(log)|)
    {
      st := ReplyAt(replies, |log|);
      log := log + [c];
    }

    /** `hiai::Graph::GetInstance(graphId)`; `found` is false where the SDK returns null. */
    method Lookup(graphId: uint32) returns (found: bool)
      modifies this
      ensures log == old(log) + [GraphGetInstance(graphId)]
      ensures found == FoundAt(instances, |old(log)|)
    {
      found := FoundAt(instances, |log|);
      log := log + [GraphGetInstance(graphId)];
    }
  }

  /** The statuses the runtime gives to `n` calls made in a row after `k` others. */
  function Replies(replies: seq<Status>, k: nat, n: nat): (rs: seq<Status>)
    ensures |rs| == n
    ensures forall i :: 0 <= i < n ==> rs[i] == ReplyAt(replies, k + i)
  {
    seq(n, i requires 0 <= i < n => ReplyAt(replies, k + i))
  }
}
