/**
 The language-server supervisor's shared state, and the sections of its code that
 hold the server's lock, as functions. A process, its input channel and its byte
 counter are made together and named by the process's place in `procs`.
 */
module LanguageServerSteps {
  import opened Basics

  const MaxRestarts := 5
  const OutQueue := 1024
  const OutBytes := 32 * 1024 * 1024

  /** A message for the server's input, or the nil a stop queues to close it. */
  datatype Msg = Nil | Data(body: string)

  function Size(m: Msg): nat {
    if m.Data? then |m.body| else 0
  }

  function Bytes(queue: seq<Msg>): nat {
    if queue == [] then 0 else Size(queue[0]) + Bytes(queue[1..])
  }

  function Bodies(queue: seq<Msg>): seq<string> {
    if queue == [] then []
    else (if queue[0].Data? then [queue[0].body] else []) + Bodies(queue[1..])
  }

  /** One process's input: its channel, its counter, and its writer. */
  datatype Input = Input(
    queue: seq<Msg>, closed: bool,
    counter: int,               // the bytes counted as queued
    taking: Option<string>,     // what the writer has taken and not yet written
    writerDone: bool,
    accepted: seq<string>,      // every body queued, in order
    written: seq<string>)       // every body the writer wrote, in order

  datatype Proc = Proc(live: bool, cancelled: bool, input: Input)

  const NewProc := Proc(true, false, Input([], false, 0, None, false, [], []))

  datatype Server = Server(
    out: Option<nat>,           // the running process's input; none between processes
    cancel: Option<nat>,        // the cancel function of the last process installed
    stopped: bool, reason: string, restarting: bool,
    procs: seq<Proc>)

  predicate WellFormed(l: Server) {
    (l.out.Some? ==> l.out.value < |l.procs|) && (l.cancel.Some? ==> l.cancel.value < |l.procs|)
  }

  function SetProc(l: Server, p: nat, proc: Proc): Server
    requires p < |l.procs|
  {
    l.(procs := l.procs[p := proc])
  }

  function SetInput(l: Server, p: nat, input: Input): Server
    requires p < |l.procs|
  {
    SetProc(l, p, l.procs[p].(input := input))
  }

  /** Installs the process just started, unless it is to be ended at once. */
  function Install(l: Server, p: nat): (Server, bool) {
    (l.(out := Some(p), cancel := Some(p), restarting := false), l.stopped)
  }

  /** The process has gone: its input closes, and a restart is announced or not. */
  function CloseInput(l: Server, p: nat, initialized: bool): Server
    requires WellFormed(l) && p < |l.procs|
  {
    var shut :=
      if l.out == Some(p) then SetInput(l, p, l.procs[p].input.(closed := true)).(out := None) else l;
    shut.(restarting := !l.stopped && initialized && p < MaxRestarts)
  }

  /** A stop's first section; whether the server had been stopped before. */
  function Stop(l: Server, reason: string): (Server, bool) {
    (l.(stopped := true, restarting := false, reason := if l.stopped then l.reason else reason), l.stopped)
  }

  datatype Sent = Queued | Restarting | NotRunning | Full

  predicate Room(input: Input, body: string) {
    input.counter + |body| <= OutBytes && |input.queue| < OutQueue
  }

  function Push(input: Input, m: Msg): Input {
    input.(queue := input.queue + [m],
           accepted := if m.Data? then input.accepted + [m.body] else input.accepted)
  }

  function Add(input: Input, n: int): (r: Input)
    ensures r.closed == input.closed
  {
    input.(counter := input.counter + n)
  }

  /** What a write under the lock finds; a queued body is counted after it is sent. */
  function Offer(l: Server, body: string): Sent
    requires WellFormed(l)
  {
    if l.out.None? then (if l.restarting then Restarting else NotRunning)
    else if Room(l.procs[l.out.value].input, body) then Queued
    else Full
  }

  /** The nil of a stop, when there is room for it. */
  function OfferNil(l: Server): Server
    requires WellFormed(l)
  {
    if l.out.Some? && |l.procs[l.out.value].input.queue| < OutQueue
    then SetInput(l, l.out.value, Push(l.procs[l.out.value].input, Nil))
    else l
  }
}
