/**
 A language server as the engine keeps it. Each method is one section under the
 server's lock, and leaves the state the function it names in LanguageServerSteps
 gives; LanguageServerRuns interleaves those functions.
 */
module LanguageServers {
  import opened Basics
  import S = LanguageServerSteps

  /** A process the engine started, with its input channel. */
  class ServerProcess {
    var live: bool
    var cancelled: bool
    var queue: seq<S.Msg>
    var closed: bool
    var counter: int
    ghost var taking: Option<string>
    ghost var writerDone: bool
    ghost var accepted: seq<string>
    ghost var written: seq<string>

    ghost function View(): S.Proc
      reads this
    {
      S.Proc(live, cancelled, S.Input(queue, closed, counter, taking, writerDone, accepted, written))
    }

    constructor ()
      ensures View() == S.NewProc
    {
      live, cancelled, queue, closed, counter := true, false, [], false, 0;
      taking, writerDone, accepted, written := None, false, [], [];
    }
  }

  class LanguageServer {
    var out: ServerProcess?      // the process whose input takes what is sent
    var cancel: ServerProcess?   // the process a kill ends
    var stopped: bool
    var reason: string
    var restarting: bool
    ghost var procs: seq<ServerProcess>

    ghost predicate Valid()
      reads this
    {
      && (forall i, j :: 0 <= i < j < |procs| ==> procs[i] != procs[j])
      && (out != null ==> out in procs)
      && (cancel != null ==> cancel in procs)
    }

    /** The place of process `p`. */
    ghost function Place(p: ServerProcess?): (o: Option<nat>)
      requires Valid() && (p != null ==> p in procs)
      reads this
      ensures p == null <==> o.None?
      ensures o.Some? ==> o.value < |procs| && procs[o.value] == p
    {
      if p == null then None
      else
        var i :| 0 <= i < |procs| && procs[i] == p;
        Some(i)
    }

    lemma PlaceIs(p: ServerProcess, i: nat)
      requires Valid() && i < |procs| && procs[i] == p
      ensures Place(p) == Some(i)
    {
    }

    ghost function View(): (l: S.Server)
      requires Valid()
      reads this, procs
      ensures S.WellFormed(l)
    {
      S.Server(Place(out), Place(cancel), stopped, reason, restarting,
               seq(|procs|, i requires 0 <= i < |procs| reads this, procs => procs[i].View()))
    }

    constructor ()
      ensures Valid() && procs == []
      ensures View() == S.Server(None, None, false, "", false, [])
    {
      out, cancel, stopped, reason, restarting, procs := null, null, false, "", false, [];
    }

    /** Installs process `p`, the last started; `early` when a stop came first. */
    method Install(p: ServerProcess, ghost n: nat) returns (early: bool)
      requires Valid() && n < |procs| && procs[n] == p
      modifies this`out, this`cancel, this`restarting
      ensures Valid() && (View(), early) == S.Install(old(View()), n)
    {
      out, cancel, restarting := p, p, false;
      early := stopped;
      assert View().procs == old(View()).procs;
    }

    /** The process has gone: nothing more is sent to it. */
    method CloseInput(p: ServerProcess, restart: nat, initialized: bool)
      requires Valid() && restart < |procs| && procs[restart] == p
      modifies this`out, this`restarting, p`closed
      ensures Valid() && View() == S.CloseInput(old(View()), restart, initialized)
    {
      ghost var l := View();
      restarting := !stopped && initialized && restart < S.MaxRestarts;
      assert View() == l.(restarting := restarting) by {
        assert View().procs == l.procs;
      }
      PlaceIs(p, restart);
      if out == p {
        CloseOut(p, restart);
      }
    }

    method CloseOut(p: ServerProcess, ghost n: nat)
      requires Valid() && n < |procs| && procs[n] == p
      modifies this`out, p`closed
      ensures Valid()
      ensures var l := old(View()); View() == S.SetInput(l, n, l.procs[n].input.(closed := true)).(out := None)
    {
      ghost var l := View();
      p.closed := true;
      out := null;
      assert View().procs == l.procs[n := l.procs[n].(input := l.procs[n].input.(closed := true))];
    }

    method StopUnderLock(why: string) returns (already: bool)
      requires Valid()
      modifies this`stopped, this`reason, this`restarting
      ensures Valid() && (View(), already) == S.Stop(old(View()), why)
    {
      already := stopped;
      stopped, restarting := true, false;
      if !already {
        reason := why;
      }
      assert View().procs == old(View()).procs;
    }

    /** Queues `body` for the running process, in order, or says why not. */
    method Write(body: string) returns (sent: S.Sent)
      requires Valid()
      modifies procs
      ensures Valid() && sent == S.Offer(old(View()), body)
      ensures sent != S.Queued ==> View() == old(View())
      ensures sent == S.Queued ==>
                var l := old(View());
                View() == S.SetInput(l, l.out.value, S.Add(S.Push(l.procs[l.out.value].input, S.Data(body)), |body|))
    {
      if out == null {
        return if restarting then S.Restarting else S.NotRunning;
      }
      ghost var l := View();
      var full := out.counter + |body| > S.OutBytes;
      if !full {
        if |out.queue| < S.OutQueue {
          QueueOn(out, l.out.value, body);
        } else {
          full := true;
        }
      }
      sent := if full then S.Full else S.Queued;
    }

    method QueueOn(p: ServerProcess, ghost n: nat, body: string)
      requires Valid() && n < |procs| && procs[n] == p
      modifies p
      ensures Valid()
      ensures var l := old(View()); View() == S.SetInput(l, n, S.Add(S.Push(l.procs[n].input, S.Data(body)), |body|))
    {
      ghost var l := View();
      p.queue, p.accepted := p.queue + [S.Data(body)], p.accepted + [body];
      p.counter := p.counter + |body|;
      assert View().procs == l.procs[n := l.procs[n].(input := S.Add(S.Push(l.procs[n].input, S.Data(body)), |body|))];
    }

    /** Queues the nil after which the writer closes the input, when there is room. */
    method WriteNil()
      requires Valid()
      modifies procs
      ensures Valid() && View() == S.OfferNil(old(View()))
    {
      if out != null && |out.queue| < S.OutQueue {
        ghost var l := View();
        out.queue := out.queue + [S.Nil];
        ghost var n := l.out.value;
        assert View().procs == l.procs[n := l.procs[n].(input := S.Push(l.procs[n].input, S.Nil))];
      }
    }

    /** Ends the last process installed. */
    method Kill()
      requires Valid()
      modifies procs
      ensures Valid()
      ensures var l := old(View());
              View() == if l.cancel.Some? then S.SetProc(l, l.cancel.value, l.procs[l.cancel.value].(cancelled := true)) else l
    {
      if cancel != null {
        ghost var l := View();
        cancel.cancelled := true;
        ghost var n := l.cancel.value;
        assert View().procs == l.procs[n := l.procs[n].(cancelled := true)];
      }
    }
  }
}
