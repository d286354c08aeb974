/**
 A debug session's queue and its connection's slots as the engine keeps them:
 fields updated in place, each method one section under its lock, leaving the
 state the function of DebugSends it names gives.
 */
module DebugSessions {
  import D = DebugSends

  class DebugSession {
    var sends: seq<D.Msg>
    var qclosed: bool
    var inflight: int    // the connection's requests in flight for this session

    function View(): D.Queue
      reads this
    {
      D.Queue(sends, qclosed, inflight)
    }

    constructor ()
      ensures View() == D.Queue([], false, 0)
    {
      sends, qclosed, inflight := [], false, 0;
    }

    method DebugEnqueue(msg: D.Msg) returns (outcome: D.Outcome)
      modifies this
      ensures (View(), outcome) == D.Enqueue(old(View()), msg)
    {
      if qclosed {
        return D.SessionOver;
      }
      inflight := inflight + 1;
      if |sends| < D.DebugQueue {
        sends := sends + [msg];
        outcome := D.Accepted;
      } else {
        inflight := inflight - 1;
        outcome := D.TooMany;
      }
    }

    /** The end of the session: closes the queue, then answers what was left in it, in order. */
    method CloseAndDrain() returns (refused: seq<D.Msg>)
      modifies this
      ensures qclosed && sends == []
      ensures refused == old(sends)
      ensures inflight == old(inflight) - |refused|
    {
      qclosed := true;
      refused := [];
      while sends != []
        invariant qclosed
        invariant old(sends) == refused + sends
        invariant inflight == old(inflight) - |refused|
        decreases |sends|
      {
        var msg := sends[0];
        sends := sends[1..];
        refused := refused + [msg];
        inflight := inflight - 1;
      }
    }
  }

  class DebugSlots {
    var debugs: set<nat>
    var debugReserved: int

    function View(): D.Slots
      reads this
    {
      D.Slots(debugs, debugReserved)
    }

    constructor ()
      ensures View() == D.Slots({}, 0)
    {
      debugs, debugReserved := {}, 0;
    }

    method ReserveDebug() returns (ok: bool)
      modifies this
      ensures (View(), ok) == D.Reserve(old(View()))
    {
      if |debugs| + debugReserved >= D.MaxDebugs {
        return false;
      }
      debugReserved := debugReserved + 1;
      ok := true;
    }

    method ReleaseDebug()
      modifies this
      ensures View() == D.Release(old(View()))
    {
      debugReserved := debugReserved - 1;
    }

    /** The launch's last step, unless its ACP session closed meanwhile. */
    method InsertDebug(id: nat, sessionClosed: bool) returns (inserted: bool)
      modifies this
      ensures inserted == !sessionClosed
      ensures View() == if inserted then D.Insert(old(View()), id) else old(View())
    {
      if sessionClosed {
        return false;
      }
      debugs := debugs + {id};
      debugReserved := debugReserved - 1;
      inserted := true;
    }

    method DeleteDebug(id: nat)
      modifies this
      ensures View() == D.Delete(old(View()), id)
    {
      debugs := debugs - {id};
    }
  }
}
