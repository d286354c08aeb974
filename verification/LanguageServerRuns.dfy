/**
 Every interleaving of a language server's goroutines: the one that starts it and
 brings it back after a crash, the writers of its processes' inputs, sends, stops
 and the kills they leave pending.
 */
module LanguageServerRuns {
  import opened Basics
  import opened LanguageServerSteps

  datatype Verdict = WasStopped | Failed | Crashed

  /** Where the goroutine that starts process `n` and waits for its end stands. */
  datatype Driver =
    | Judging(n: nat)                                   // policy and the person decide
    | Cleared(n: nat)                                   // found not stopped, about to start it
    | Started(n: nat)                                   // the process runs, not yet installed
    | Installed(n: nat, early: bool)                    // early: a stop came first
    | Initializing(n: nat)
    | Waiting(n: nat, initialized: bool)                // for the process to go
    | Reaped(n: nat, initialized: bool)
    | Shut(n: nat, initialized: bool)                   // its input is closed
    | Decided(n: nat, initialized: bool, verdict: Verdict)
    | Backoff(n: nat)
    | Returned(n: nat)                                  // the start of process n failed
    | Ending                                            // about to forget the server
    | Announcing                                        // forgotten, about to close `done`
    | Over

  datatype World = World(
    l: Server,
    driver: Driver,
    listed: bool,                // the connection still knows the server
    done: bool,                  // the done channel is closed
    adding: Option<(nat, nat)>,  // a body sent, under the lock, and not yet counted: its process and size
    grace: nat,                  // stops waiting out their grace
    killing: nat,                // goroutines about to kill whatever runs
    doomed: set<nat>,            // processes whose cancel a killer has read and will call
    panicked: bool)              // a send on, or a close of, a closed channel

  datatype Event =
    // The driver.
    | JudgeRefuses | JudgeAllows | StartFails | StartWorks | Installs | Proceeds
    | InitWorks | InitFails(kills: bool) | Reaps | ClosesInput | Decides(failedCode: bool)
    | Follows | BackoffEnds(gone: bool) | Forgets | ClosesDone
    // Sends.
    | Sends(body: string) | Counts | SendsNil
    // Stops and kills.
    | Stops(reason: string) | GraceFires | GraceEnds | Kills | Cancels(p: nat) | TimesOut(p: nat)
    // The writers.
    | Takes(p: nat) | Writes(p: nat, ok: bool) | Drains(p: nat)

  const Begin := World(Server(None, None, false, "", false, []), Judging(0), true, false, None, 0, 0, {}, false)

  function Cancelled(l: Server, p: nat): Server {
    if p < |l.procs| then SetProc(l, p, l.procs[p].(cancelled := true)) else l
  }

  /** A close of `done`; closing it twice panics. */
  function CloseDone(w: World): World {
    if w.done then w.(panicked := true) else w.(done := true)
  }

  predicate OfStart(e: Event) {
    || e.JudgeRefuses? || e.JudgeAllows? || e.StartFails? || e.StartWorks? || e.Installs? || e.Proceeds?
    || e.InitWorks? || e.InitFails?
  }

  /** The driver starts a process, installs it and has it initialized. */
  function StartStep(w: World, e: Event): (v: World)
    requires WellFormed(w.l)
    ensures WellFormed(v.l) && v.adding == w.adding
  {
    var d := w.driver;
    match e
    case JudgeRefuses => if d.Judging? then w.(driver := Returned(d.n)) else w
    case JudgeAllows =>
      if d.Judging? then w.(driver := if w.l.stopped then Returned(d.n) else Cleared(d.n)) else w
    case StartFails => if d.Cleared? then w.(driver := Returned(d.n)) else w
    case StartWorks =>
      if d.Cleared? then w.(driver := Started(d.n), l := w.l.(procs := w.l.procs + [NewProc])) else w
    case Installs =>
      if d.Started? && d.n < |w.l.procs| then
        var (l, early) := Install(w.l, d.n);
        w.(l := l, driver := Installed(d.n, early))
      else w
    case Proceeds =>
      if d.Installed? then
        if d.early then w.(l := Cancelled(w.l, d.n), driver := Waiting(d.n, false))
        else w.(driver := Initializing(d.n))
      else w
    case InitWorks => if d.Initializing? then w.(driver := Waiting(d.n, true)) else w
    case InitFails(kills) =>
      if d.Initializing? then w.(driver := Waiting(d.n, false), killing := w.killing + if kills then 1 else 0) else w
    case _ => w
  }

  /** The driver sees the process go, and goes on with the next or ends. */
  function EndStep(w: World, e: Event): (v: World)
    requires WellFormed(w.l)
    ensures WellFormed(v.l) && v.adding == w.adding
  {
    var d := w.driver;
    match e
    case Reaps =>
      if d.Waiting? && d.n < |w.l.procs| then
        w.(driver := Reaped(d.n, d.initialized),
           l := SetProc(w.l, d.n, w.l.procs[d.n].(live := false, cancelled := true)))
      else w
    case ClosesInput =>
      if d.Reaped? && d.n < |w.l.procs| then
        w.(driver := Shut(d.n, d.initialized), l := CloseInput(w.l, d.n, d.initialized),
           panicked := w.panicked || (w.l.out == Some(d.n) && w.l.procs[d.n].input.closed))
      else w
    case Decides(failedCode) =>
      if d.Shut? then
        var verdict := if w.l.stopped then WasStopped else if !d.initialized || failedCode then Failed else Crashed;
        w.(driver := Decided(d.n, d.initialized, verdict))
      else w
    case Follows =>
      if d.Decided? then
        w.(driver := if d.verdict == Crashed && d.n < MaxRestarts then Backoff(d.n + 1)
                     else if d.initialized then Ending
                     else Returned(d.n))
      else if d.Returned? then
        if d.n > 0 then w.(driver := Ending) else w.(driver := Announcing, listed := false)
      else w
    case BackoffEnds(gone) =>
      if d.Backoff? then w.(driver := if gone || w.l.stopped then Ending else Judging(d.n)) else w
    case Forgets =>
      if d.Ending? then w.(driver := if w.listed then Announcing else Over, listed := false) else w
    case ClosesDone => if d.Announcing? then CloseDone(w).(driver := Over) else w
    case _ => w
  }

  function DriverStep(w: World, e: Event): (v: World)
    requires WellFormed(w.l)
    ensures WellFormed(v.l) && v.adding == w.adding
  {
    if OfStart(e) then StartStep(w, e) else EndStep(w, e)
  }

  /** Queues `m` on process `p`'s channel; a send on a closed channel panics. */
  function Send(w: World, p: nat, m: Msg): World
    requires p < |w.l.procs|
  {
    if w.l.procs[p].input.closed then w.(panicked := true)
    else w.(l := SetInput(w.l, p, Push(w.l.procs[p].input, m)))
  }

  function SendStep(w: World, e: Event): (v: World)
    requires WellFormed(w.l)
    ensures WellFormed(v.l)
    ensures v.driver == w.driver && v.done == w.done && |v.l.procs| == |w.l.procs|
  {
    match e
    case Sends(body) =>
      (match Offer(w.l, body)
       case Queued => Send(w, w.l.out.value, Data(body)).(adding := Some((w.l.out.value, |body|)))
       case Full => w.(killing := w.killing + 1)
       case _ => w)
    case SendsNil =>
      if w.l.out.Some? && |w.l.procs[w.l.out.value].input.queue| < OutQueue
      then Send(w, w.l.out.value, Nil)
      else w
    case _ => w
  }

  function StopStep(w: World, e: Event): (v: World)
    requires WellFormed(w.l)
    ensures WellFormed(v.l)
  {
    match e
    case Stops(reason) =>
      var (l, already) := Stop(w.l, reason);
      if already then w.(l := l, killing := w.killing + 1) else w.(l := l, grace := w.grace + 1)
    case Kills =>
      if w.killing > 0
      then w.(killing := w.killing - 1,
              doomed := if w.l.cancel.Some? then w.doomed + {w.l.cancel.value} else w.doomed)
      else w
    case _ => w
  }

  /** The count of a body just sent, timers and cancels: they take no lock. */
  function AsideStep(w: World, e: Event): (v: World)
    requires WellFormed(w.l)
    ensures WellFormed(v.l)
    ensures v == w.(l := v.l, adding := v.adding, grace := v.grace, killing := v.killing, doomed := v.doomed)
  {
    match e
    case Counts =>
      if w.adding.Some? && w.adding.value.0 < |w.l.procs| then
        var (p, n) := w.adding.value;
        w.(l := SetInput(w.l, p, Add(w.l.procs[p].input, n)), adding := None)
      else w
    case GraceFires => if w.grace > 0 then w.(grace := w.grace - 1, killing := w.killing + 1) else w
    case GraceEnds => if w.grace > 0 && w.done then w.(grace := w.grace - 1) else w
    case Cancels(p) => if p in w.doomed then w.(l := Cancelled(w.l, p), doomed := w.doomed - {p}) else w
    case TimesOut(p) => w.(l := Cancelled(w.l, p))
    case _ => w
  }

  /** The writers, which take no lock either. */
  function WriterStep(w: World, e: Event): (v: World)
    requires WellFormed(w.l)
    ensures WellFormed(v.l) && v == w.(l := v.l)
  {
    match e
    case Takes(p) =>
      if p < |w.l.procs| then w.(l := SetInput(w.l, p, Take(w.l.procs[p].input))) else w
    case Writes(p, ok) =>
      if p < |w.l.procs| && w.l.procs[p].input.taking.Some? then
        var wrote := SetInput(w.l, p, Wrote(w.l.procs[p].input, ok));
        w.(l := if ok then wrote else Cancelled(wrote, p))
      else w
    case Drains(p) =>
      if p < |w.l.procs| && w.l.procs[p].input.closed && w.l.procs[p].input.queue == []
         && w.l.procs[p].input.taking.None?
      then w.(l := SetInput(w.l, p, w.l.procs[p].input.(writerDone := true)))
      else w
    case _ => w
  }

  function FreeStep(w: World, e: Event): (v: World)
    requires WellFormed(w.l)
    ensures WellFormed(v.l)
    ensures v == w.(l := v.l, adding := v.adding, grace := v.grace, killing := v.killing, doomed := v.doomed)
  {
    if e.Takes? || e.Writes? || e.Drains? then WriterStep(w, e) else AsideStep(w, e)
  }

  /** The writer takes the head of the channel; the nil ends it. */
  function Take(input: Input): (r: Input)
    ensures r.closed == input.closed
  {
    if input.writerDone || input.taking.Some? || input.queue == [] then input
    else
      var rest := input.(queue := input.queue[1..]);
      match input.queue[0]
      case Nil => rest.(writerDone := true)
      case Data(body) => rest.(taking := Some(body))
  }

  /** The writer's write returns; a failed one ends the writer. */
  function Wrote(input: Input, ok: bool): (r: Input)
    requires input.taking.Some?
    ensures r.closed == input.closed
  {
    var body := input.taking.value;
    input.(taking := None, counter := input.counter - |body|,
           written := if ok then input.written + [body] else input.written,
           writerDone := !ok)
  }

  predicate TakesLock(e: Event) {
    || e.JudgeAllows? || e.Installs? || e.ClosesInput? || e.Decides? || e.BackoffEnds?
    || e.Sends? || e.SendsNil? || e.Stops? || e.Kills?
  }

  predicate OfDriver(e: Event) {
    || e.JudgeRefuses? || e.JudgeAllows? || e.StartFails? || e.StartWorks? || e.Installs? || e.Proceeds?
    || e.InitWorks? || e.InitFails? || e.Reaps? || e.ClosesInput? || e.Decides? || e.Follows? || e.BackoffEnds?
    || e.Forgets? || e.ClosesDone?
  }

  /** One step; an event that cannot happen now, or that waits for the lock, changes nothing. */
  function Step(w: World, e: Event): (v: World)
    requires WellFormed(w.l)
    ensures WellFormed(v.l)
  {
    if w.adding.Some? && TakesLock(e) then w
    else if OfDriver(e) then DriverStep(w, e)
    else if e.Sends? || e.SendsNil? then SendStep(w, e)
    else if e.Stops? || e.Kills? then StopStep(w, e)
    else FreeStep(w, e)
  }

  function Run(w: World, es: seq<Event>): (v: World)
    requires WellFormed(w.l)
    ensures WellFormed(v.l)
    decreases |es|
  {
    if es == [] then w else Run(Step(w, es[0]), es[1..])
  }

  function Reached(es: seq<Event>): (w: World)
    ensures WellFormed(w.l)
  {
    Run(Begin, es)
  }

  lemma {:induction false} RunSplit(w: World, es: seq<Event>, more: seq<Event>)
    requires WellFormed(w.l)
    ensures Run(w, es + more) == Run(Run(w, es), more)
    decreases |es|
  {
    if es == [] {
      assert es + more == more;
    } else {
      assert (es + more)[0] == es[0] && (es + more)[1..] == es[1..] + more;
      RunSplit(Step(w, es[0]), es[1..], more);
    }
  }

  // ---------- The driver and its processes ----------

  /** No process runs, and none is written to. */
  predicate Idle(l: Server) {
    l.out.None? && forall p :: 0 <= p < |l.procs| ==> !l.procs[p].live
  }

  /** Only process `n`, the last, runs. */
  predicate OnlyLive(l: Server, n: nat) {
    |l.procs| == n + 1 && forall p :: 0 <= p < |l.procs| ==> (l.procs[p].live <==> p == n)
  }

  /** Only process `n` runs; it is installed and its input is open. */
  predicate Serving(l: Server, n: nat) {
    OnlyLive(l, n) && l.out == Some(n) && l.cancel == Some(n) && !l.procs[n].input.closed
  }

  /** A change of inputs' contents, cancels and stops: no process comes, goes or is rewired. */
  predicate SameShape(l: Server, l': Server) {
    && l'.out == l.out && l'.cancel == l.cancel && |l'.procs| == |l.procs|
    && (forall p :: 0 <= p < |l.procs| ==>
          l'.procs[p].live == l.procs[p].live && l'.procs[p].input.closed == l.procs[p].input.closed)
  }

  predicate DriverOk(w: World) {
    var l := w.l;
    && !w.panicked
    && WellFormed(l)
    && (w.driver.Over? || w.driver.Announcing? <==> !w.listed)
    && (w.done <==> w.driver.Over?)
    && |l.procs| <= MaxRestarts + 1
    && match w.driver
       case Judging(n) => Idle(l) && |l.procs| == n <= MaxRestarts
       case Cleared(n) => Idle(l) && |l.procs| == n <= MaxRestarts
       case Backoff(n) => Idle(l) && |l.procs| == n <= MaxRestarts
       case Started(n) => l.out.None? && OnlyLive(l, n) && !l.procs[n].input.closed
       case Installed(n, _) => Serving(l, n)
       case Initializing(n) => Serving(l, n)
       case Waiting(n, _) => Serving(l, n)
       case Reaped(n, _) =>
         && |l.procs| == n + 1 && l.out == Some(n) && !l.procs[n].input.closed
         && forall p :: 0 <= p < |l.procs| ==> !l.procs[p].live
       case Shut(n, _) => Idle(l) && |l.procs| == n + 1
       case Decided(n, _, _) => Idle(l) && |l.procs| == n + 1
       case Returned(n) => Idle(l)
       case Ending => Idle(l)
       case Announcing => Idle(l)
       case Over => Idle(l)
  }

  lemma StartStepOk(w: World, e: Event)
    requires DriverOk(w)
    ensures DriverOk(StartStep(w, e))
  {
  }

  lemma EndStepOk(w: World, e: Event)
    requires DriverOk(w)
    ensures DriverOk(EndStep(w, e))
  {
  }

  lemma DriverStepOk(w: World, e: Event)
    requires DriverOk(w)
    ensures DriverOk(DriverStep(w, e))
  {
    StartStepOk(w, e);
    EndStepOk(w, e);
    hide DriverOk, StartStep, EndStep;
  }

  /** The steps that take no lock start, end and rewire nothing. */
  lemma FreeShape(w: World, e: Event)
    requires WellFormed(w.l)
    ensures SameShape(w.l, FreeStep(w, e).l) && FreeStep(w, e).l.stopped == w.l.stopped
  {
    WriterShape(w, e);
    AsideShape(w, e);
    hide WriterStep, AsideStep, SameShape;
  }

  lemma WriterShape(w: World, e: Event)
    requires WellFormed(w.l)
    ensures SameShape(w.l, WriterStep(w, e).l) && WriterStep(w, e).l.stopped == w.l.stopped
  {
    ShapeSelf(w.l);
    hide Take, Wrote, SetInput, SameShape;
    match e
    case Takes(p) =>
      if p < |w.l.procs| {
        InputShape(w.l, p, Take(w.l.procs[p].input));
      }
    case Writes(p, ok) =>
      if p < |w.l.procs| && w.l.procs[p].input.taking.Some? {
        var input := Wrote(w.l.procs[p].input, ok);
        InputShape(w.l, p, input);
        CancelledShape(SetInput(w.l, p, input), p);
        ShapeTwice(w.l, SetInput(w.l, p, input), Cancelled(SetInput(w.l, p, input), p));
        hide Cancelled;
      }
    case Drains(p) =>
      if p < |w.l.procs| {
        InputShape(w.l, p, w.l.procs[p].input.(writerDone := true));
      }
    case _ =>
  }

  lemma AsideShape(w: World, e: Event)
    requires WellFormed(w.l)
    ensures SameShape(w.l, AsideStep(w, e).l) && AsideStep(w, e).l.stopped == w.l.stopped
  {
    ShapeSelf(w.l);
    hide SetInput, Add, Cancelled, SameShape;
    match e
    case Counts =>
      if w.adding.Some? && w.adding.value.0 < |w.l.procs| {
        var (p, n) := w.adding.value;
        InputShape(w.l, p, Add(w.l.procs[p].input, n));
      }
    case Cancels(p) => CancelledShape(w.l, p);
    case TimesOut(p) => CancelledShape(w.l, p);
    case _ =>
  }

  lemma ShapeSelf(l: Server)
    ensures SameShape(l, l)
  {
  }

  lemma ShapeTwice(l: Server, m: Server, r: Server)
    requires SameShape(l, m) && SameShape(m, r)
    ensures SameShape(l, r)
  {
  }

  lemma InputShape(l: Server, p: nat, input: Input)
    requires p < |l.procs| && input.closed == l.procs[p].input.closed
    ensures SameShape(l, SetInput(l, p, input)) && SetInput(l, p, input).stopped == l.stopped
  {
  }

  lemma CancelledShape(l: Server, p: nat)
    ensures SameShape(l, Cancelled(l, p)) && Cancelled(l, p).stopped == l.stopped
  {
  }

  lemma ShapeOk(w: World, v: World)
    requires DriverOk(w) && SameShape(w.l, v.l)
    requires v.driver == w.driver && v.listed == w.listed && v.done == w.done && !v.panicked
    ensures DriverOk(v)
  {
  }

  lemma OpenInput(w: World)
    requires DriverOk(w)
    ensures w.l.out.Some? ==> !w.l.procs[w.l.out.value].input.closed
  {
  }

  lemma SendStepOk(w: World, e: Event)
    requires DriverOk(w)
    ensures DriverOk(SendStep(w, e))
  {
    OpenInput(w);
    ShapeOk(w, SendStep(w, e));
  }

  lemma StopStepOk(w: World, e: Event)
    requires DriverOk(w)
    ensures DriverOk(StopStep(w, e))
  {
    ShapeOk(w, StopStep(w, e));
  }

  lemma FreeStepOk(w: World, e: Event)
    requires DriverOk(w)
    ensures DriverOk(FreeStep(w, e))
  {
    assert WellFormed(w.l) && !w.panicked;
    FreeShape(w, e);
    hide FreeStep, DriverOk, SameShape;
    ShapeOk(w, FreeStep(w, e));
  }

  lemma StepOk(w: World, e: Event)
    requires DriverOk(w)
    ensures DriverOk(Step(w, e))
  {
    DriverStepOk(w, e);
    SendStepOk(w, e);
    StopStepOk(w, e);
    FreeStepOk(w, e);
    hide DriverOk, DriverStep, SendStep, StopStep, FreeStep, OfDriver, TakesLock;
  }

  // ---------- A stop leaves nothing running for good ----------

  /** Once stopped, an installed process is cancelled, or something pending will cancel it. */
  predicate KillOk(w: World) {
    w.l.stopped && w.l.out.Some? && w.l.cancel.Some? && w.l.cancel.value < |w.l.procs|
    && w.l.procs[w.l.cancel.value].live ==>
      || w.l.procs[w.l.cancel.value].cancelled
      || w.l.cancel.value in w.doomed
      || w.grace > 0
      || w.killing > 0
      || w.driver == Installed(w.l.cancel.value, true)
  }

  lemma KillStartStep(w: World, e: Event)
    requires DriverOk(w) && KillOk(w)
    ensures KillOk(StartStep(w, e))
  {
  }

  lemma KillEndStep(w: World, e: Event)
    requires DriverOk(w) && KillOk(w)
    ensures KillOk(EndStep(w, e))
  {
  }

  lemma KillDriverStep(w: World, e: Event)
    requires DriverOk(w) && KillOk(w)
    ensures KillOk(DriverStep(w, e))
  {
    KillStartStep(w, e);
    KillEndStep(w, e);
    hide DriverOk, KillOk, StartStep, EndStep;
  }

  lemma KillSendStep(w: World, e: Event)
    requires WellFormed(w.l) && KillOk(w)
    ensures KillOk(SendStep(w, e))
  {
  }

  lemma KillStopStep(w: World, e: Event)
    requires WellFormed(w.l) && KillOk(w)
    ensures KillOk(StopStep(w, e))
  {
  }

  lemma KillWriterStep(w: World, e: Event)
    requires WellFormed(w.l) && KillOk(w)
    ensures KillOk(WriterStep(w, e))
  {
    hide Take, Wrote, Push, Add;
  }

  lemma KillAsideStep(w: World, e: Event)
    requires DriverOk(w) && KillOk(w)
    ensures KillOk(AsideStep(w, e))
  {
  }

  lemma KillFreeStep(w: World, e: Event)
    requires DriverOk(w) && KillOk(w)
    ensures KillOk(FreeStep(w, e))
  {
    KillWriterStep(w, e);
    KillAsideStep(w, e);
    hide DriverOk, KillOk, WriterStep, AsideStep;
  }

  lemma KillStep(w: World, e: Event)
    requires DriverOk(w) && KillOk(w)
    ensures KillOk(Step(w, e))
  {
    assert WellFormed(w.l);
    hide KillOk, DriverOk, DriverStep, SendStep, StopStep, FreeStep;
    if OfDriver(e) {
      KillDriverStep(w, e);
    } else if e.Sends? || e.SendsNil? {
      KillSendStep(w, e);
    } else if e.Stops? || e.Kills? {
      KillStopStep(w, e);
    } else {
      KillFreeStep(w, e);
    }
  }

  // ---------- Each input is bounded and in order ----------

  function Opt(o: Option<string>): seq<string> {
    if o.Some? then [o.value] else []
  }

  function Held(input: Input): nat {
    Bytes(input.queue) + if input.taking.Some? then |input.taking.value| else 0
  }

  /** The counter is what is queued, but for the `adding` bytes not yet counted. */
  predicate InputOk(input: Input, adding: nat) {
    && Held(input) == input.counter + adding
    && Held(input) <= OutBytes
    && |input.queue| <= OutQueue
    && input.written <= input.accepted
    && (if input.writerDone then input.taking.None?
        else input.accepted == input.written + Opt(input.taking) + Bodies(input.queue))
  }

  function Uncounted(w: World, p: nat): nat {
    if w.adding.Some? && w.adding.value.0 == p then w.adding.value.1 else 0
  }

  predicate InputsOk(w: World) {
    && (forall p: nat :: p < |w.l.procs| ==> InputOk(w.l.procs[p].input, Uncounted(w, p)))
    && (w.adding.Some? ==> w.adding.value.0 < |w.l.procs|)
  }

  lemma {:induction false} BytesAppend(queue: seq<Msg>, m: Msg)
    ensures Bytes(queue + [m]) == Bytes(queue) + Size(m)
  {
    if queue != [] {
      assert (queue + [m])[1..] == queue[1..] + [m];
      BytesAppend(queue[1..], m);
    }
  }

  lemma {:induction false} BodiesAppend(queue: seq<Msg>, m: Msg)
    ensures Bodies(queue + [m]) == Bodies(queue) + if m.Data? then [m.body] else []
  {
    if queue != [] {
      assert (queue + [m])[1..] == queue[1..] + [m];
      BodiesAppend(queue[1..], m);
    } else {
      assert [m][1..] == [];
    }
  }

  lemma PushOk(input: Input, m: Msg)
    requires InputOk(input, 0) && |input.queue| < OutQueue && (m.Data? ==> Room(input, m.body))
    ensures InputOk(Push(input, m), Size(m))
  {
    BytesAppend(input.queue, m);
    BodiesAppend(input.queue, m);
    if m.Data? && !input.writerDone {
      assert input.written + Opt(input.taking) + (Bodies(input.queue) + [m.body])
          == input.written + Opt(input.taking) + Bodies(input.queue) + [m.body];
    }
  }

  lemma TakeOk(input: Input, adding: nat)
    requires InputOk(input, adding)
    ensures InputOk(Take(input), adding)
  {
    if !input.writerDone && input.taking.None? && input.queue != [] && input.queue[0].Data? {
      var body := input.queue[0].body;
      assert Bodies(input.queue) == [body] + Bodies(input.queue[1..]);
      assert input.written + [] + ([body] + Bodies(input.queue[1..])) == input.written + [body] + Bodies(input.queue[1..]);
    }
  }

  lemma WroteOk(input: Input, ok: bool, adding: nat)
    requires InputOk(input, adding) && input.taking.Some?
    ensures InputOk(Wrote(input, ok), adding)
  {
    var body := input.taking.value;
    assert !input.writerDone;
    assert input.written + [body] + Bodies(input.queue) == input.written + [body] + [] + Bodies(input.queue);
  }

  /** Replacing one input by one in order keeps all in order. */
  lemma SetInputOk(w: World, v: World, p: nat)
    requires InputsOk(w) && p < |w.l.procs| == |v.l.procs|
    requires forall q: nat :: q < |w.l.procs| && q != p ==>
               v.l.procs[q].input == w.l.procs[q].input && Uncounted(v, q) == Uncounted(w, q)
    requires InputOk(v.l.procs[p].input, Uncounted(v, p))
    requires v.adding.Some? ==> v.adding.value.0 < |v.l.procs|
    ensures InputsOk(v)
  {
  }

  /** Inputs that differ in nothing but being closed, and perhaps new empty ones. */
  predicate SameInputs(l: Server, l': Server) {
    && |l.procs| <= |l'.procs|
    && (forall p: nat :: p < |l.procs| ==> l'.procs[p].input.(closed := false) == l.procs[p].input.(closed := false))
    && (forall p: nat :: |l.procs| <= p < |l'.procs| ==> l'.procs[p] == NewProc)
  }

  lemma SameInputsOk(w: World, v: World)
    requires InputsOk(w) && SameInputs(w.l, v.l) && v.adding == w.adding
    ensures InputsOk(v)
  {
    forall p: nat | p < |v.l.procs|
      ensures InputOk(v.l.procs[p].input, Uncounted(v, p))
    {
      if p < |w.l.procs| {
        assert InputOk(w.l.procs[p].input, Uncounted(w, p));
        assert v.l.procs[p].input.(closed := false) == w.l.procs[p].input.(closed := false);
      }
    }
  }

  lemma CloseInputSame(l: Server, p: nat, ok: bool)
    requires WellFormed(l) && p < |l.procs|
    ensures SameInputs(l, CloseInput(l, p, ok))
  {
  }

  lemma SetProcSame(l: Server, p: nat, proc: Proc)
    requires p < |l.procs| && proc.input == l.procs[p].input
    ensures SameInputs(l, SetProc(l, p, proc))
  {
  }

  lemma CancelledSame(l: Server, p: nat)
    ensures SameInputs(l, Cancelled(l, p))
  {
  }

  lemma DriverStepSame(w: World, e: Event)
    requires WellFormed(w.l)
    ensures SameInputs(w.l, DriverStep(w, e).l)
  {
    StartSame(w, e);
    EndSame(w, e);
    hide StartStep, EndStep, SameInputs;
  }

  lemma StartSame(w: World, e: Event)
    requires WellFormed(w.l)
    ensures SameInputs(w.l, StartStep(w, e).l)
  {
    SelfSame(w.l);
    hide SameInputs, Cancelled;
    match e
    case StartWorks => OneMoreSame(w.l);
    case Installs => SameProcs(w.l, StartStep(w, e).l);
    case Proceeds =>
      if w.driver.Installed? {
        CancelledSame(w.l, w.driver.n);
      }
    case _ =>
  }

  lemma OneMoreSame(l: Server)
    ensures SameInputs(l, l.(procs := l.procs + [NewProc]))
  {
  }

  lemma SameProcs(l: Server, l': Server)
    ensures l'.procs == l.procs ==> SameInputs(l, l')
  {
  }

  lemma EndSame(w: World, e: Event)
    requires WellFormed(w.l)
    ensures SameInputs(w.l, EndStep(w, e).l)
  {
    SelfSame(w.l);
    hide SameInputs, CloseInput, SetProc;
    var d := w.driver;
    match e
    case Reaps =>
      if d.Waiting? && d.n < |w.l.procs| {
        SetProcSame(w.l, d.n, w.l.procs[d.n].(live := false, cancelled := true));
      }
    case ClosesInput =>
      if d.Reaped? && d.n < |w.l.procs| {
        CloseInputSame(w.l, d.n, d.initialized);
      }
    case _ =>
  }

  lemma SelfSame(l: Server)
    ensures SameInputs(l, l)
  {
  }

  lemma InputsDriverStep(w: World, e: Event)
    requires InputsOk(w) && WellFormed(w.l)
    ensures InputsOk(DriverStep(w, e))
  {
    DriverStepSame(w, e);
    hide InputsOk, SameInputs, DriverStep;
    SameInputsOk(w, DriverStep(w, e));
  }

  lemma ReplaceInput(w: World, p: nat, input: Input)
    requires InputsOk(w) && p < |w.l.procs| && InputOk(input, Uncounted(w, p))
    ensures InputsOk(w.(l := SetInput(w.l, p, input)))
  {
    hide InputOk;
    SetInputOk(w, w.(l := SetInput(w.l, p, input)), p);
  }

  lemma InputsSendStep(w: World, e: Event)
    requires InputsOk(w) && DriverOk(w) && w.adding.None?
    ensures InputsOk(SendStep(w, e))
  {
    OpenInput(w);
    var v := SendStep(w, e);
    if w.l.out.Some? {
      var p := w.l.out.value;
      assert InputOk(w.l.procs[p].input, 0);
      if e.Sends? && Room(w.l.procs[p].input, e.body) {
        PushOk(w.l.procs[p].input, Data(e.body));
        SetInputOk(w, v, p) by { hide InputOk; }
      } else if e.SendsNil? && |w.l.procs[p].input.queue| < OutQueue {
        PushOk(w.l.procs[p].input, Nil);
        SetInputOk(w, v, p) by { hide InputOk; }
      }
    }
  }

  lemma InputsTakes(w: World, p: nat)
    requires InputsOk(w) && WellFormed(w.l)
    ensures InputsOk(WriterStep(w, Takes(p)))
  {
    if p < |w.l.procs| {
      TakeOk(w.l.procs[p].input, Uncounted(w, p));
      ReplaceInput(w, p, Take(w.l.procs[p].input));
    }
    hide InputsOk, Take, SetInput;
  }

  lemma InputsWrites(w: World, p: nat, ok: bool)
    requires InputsOk(w) && WellFormed(w.l)
    ensures InputsOk(WriterStep(w, Writes(p, ok)))
  {
    if p < |w.l.procs| && w.l.procs[p].input.taking.Some? {
      var input := Wrote(w.l.procs[p].input, ok);
      WroteOk(w.l.procs[p].input, ok, Uncounted(w, p));
      ReplaceInput(w, p, input);
      var wrote := w.(l := SetInput(w.l, p, input));
      CancelledSame(wrote.l, p);
      SameInputsOk(wrote, wrote.(l := Cancelled(wrote.l, p)));
    }
    hide InputsOk, Wrote, SetInput, Cancelled;
  }

  lemma CountedOk(input: Input, n: nat)
    requires InputOk(input, n)
    ensures InputOk(Add(input, n), 0)
  {
  }

  lemma InputsCounts(w: World)
    requires InputsOk(w) && WellFormed(w.l)
    ensures InputsOk(AsideStep(w, Counts))
  {
    if w.adding.Some? {
      var p := w.adding.value.0;
      var v := AsideStep(w, Counts);
      assert InputOk(w.l.procs[p].input, Uncounted(w, p));
      CountedOk(w.l.procs[p].input, w.adding.value.1);
      hide InputOk;
      assert v.l.procs[p].input == Add(w.l.procs[p].input, w.adding.value.1);
      assert forall q: nat :: q < |w.l.procs| && q != p ==> v.l.procs[q].input == w.l.procs[q].input && Uncounted(v, q) == Uncounted(w, q);
      hide AsideStep, InputOk, Uncounted;
      SetInputOk(w, v, p);
    }
  }

  lemma InputsDrains(w: World, p: nat)
    requires InputsOk(w) && WellFormed(w.l)
    ensures InputsOk(WriterStep(w, Drains(p)))
  {
    if p < |w.l.procs| {
      var input := w.l.procs[p].input;
      assert InputOk(input, Uncounted(w, p));
      if input.closed && input.queue == [] && input.taking.None? {
        ReplaceInput(w, p, input.(writerDone := true));
      }
    }
    hide InputsOk, SetInput;
  }

  lemma InputsWriterStep(w: World, e: Event)
    requires InputsOk(w) && WellFormed(w.l)
    ensures InputsOk(WriterStep(w, e))
  {
    match e
    case Takes(p) => InputsTakes(w, p);
    case Writes(p, ok) => InputsWrites(w, p, ok);
    case Drains(p) => InputsDrains(w, p);
    case _ =>
    hide InputsOk, SetInput, Cancelled, Take, Wrote;
  }

  lemma InputsAsideStep(w: World, e: Event)
    requires InputsOk(w) && WellFormed(w.l)
    ensures InputsOk(AsideStep(w, e))
  {
    hide InputsOk, SetInput, Cancelled, SameInputs;
    SelfSame(w.l);
    match e
    case Counts => InputsCounts(w);
    case Cancels(p) =>
      CancelledSame(w.l, p);
      SameInputsOk(w, w.(l := Cancelled(w.l, p), doomed := w.doomed - {p}));
    case TimesOut(p) =>
      CancelledSame(w.l, p);
      SameInputsOk(w, w.(l := Cancelled(w.l, p)));
    case _ => SameInputsOk(w, AsideStep(w, e));
  }

  lemma InputsFreeStep(w: World, e: Event)
    requires InputsOk(w) && WellFormed(w.l)
    ensures InputsOk(FreeStep(w, e))
  {
    InputsWriterStep(w, e);
    InputsAsideStep(w, e);
    hide InputsOk, WriterStep, AsideStep;
  }

  lemma InputsStopStep(w: World, e: Event)
    requires InputsOk(w) && WellFormed(w.l)
    ensures InputsOk(StopStep(w, e))
  {
    hide InputsOk;
    SameInputsOk(w, StopStep(w, e));
  }

  lemma InputsStep(w: World, e: Event)
    requires InputsOk(w) && DriverOk(w)
    ensures InputsOk(Step(w, e))
  {
    assert WellFormed(w.l);
    hide InputsOk, DriverOk, DriverStep, SendStep, StopStep, FreeStep;
    if w.adding.None? {
      InputsSendStep(w, e);
    }
    if OfDriver(e) {
      InputsDriverStep(w, e);
    } else if e.Stops? || e.Kills? {
      InputsStopStep(w, e);
    } else {
      InputsFreeStep(w, e);
    }
  }

  // ---------- What holds over every run ----------

  lemma {:induction false} RunOk(w: World, es: seq<Event>)
    requires WellFormed(w.l) && DriverOk(w) && KillOk(w) && InputsOk(w)
    ensures var v := Run(w, es); DriverOk(v) && KillOk(v) && InputsOk(v)
    decreases |es|
  {
    hide DriverOk, KillOk, InputsOk, Step;
    if es != [] {
      StepOk(w, es[0]);
      KillStep(w, es[0]);
      InputsStep(w, es[0]);
      RunOk(Step(w, es[0]), es[1..]);
    }
  }

  lemma ReachedOk(es: seq<Event>)
    ensures var w := Reached(es); DriverOk(w) && KillOk(w) && InputsOk(w)
  {
    RunOk(Begin, es);
  }

  /**
   No send meets a closed channel and no channel closes twice; at most one process
   runs, and it is the last started; at most `MaxRestarts` + 1 ever start.
   */
  lemma Supervised(es: seq<Event>)
    ensures var w := Reached(es);
            && !w.panicked
            && |w.l.procs| <= MaxRestarts + 1
            && (forall p :: 0 <= p < |w.l.procs| && w.l.procs[p].live ==> p == |w.l.procs| - 1)
            && (w.l.out.Some? ==> !w.l.procs[w.l.out.value].input.closed && w.l.out.value == |w.l.procs| - 1)
            && (w.done ==> w.driver.Over? && forall p :: 0 <= p < |w.l.procs| ==> !w.l.procs[p].live)
  {
    ReachedOk(es);
    hide KillOk, InputsOk, Run;
  }

  /** Once `done` is closed no further process starts, and `done` stays closed. */
  lemma DoneIsFinal(es: seq<Event>, more: seq<Event>)
    requires Reached(es).done
    ensures var w := Reached(es); var v := Reached(es + more);
            v.done && |v.l.procs| == |w.l.procs|
            && forall p :: 0 <= p < |v.l.procs| ==> !v.l.procs[p].live
  {
    Supervised(es);
    RunSplit(Begin, es, more);
    OverIsFinal(Reached(es), more);
    Supervised(es + more);
  }

  lemma OverStep(w: World, e: Event)
    requires WellFormed(w.l) && w.done && w.driver.Over?
    ensures var v := Step(w, e); v.done && v.driver.Over? && |v.l.procs| == |w.l.procs|
  {
    OverDriver(w, e);
    OverStop(w, e);
    FreeShape(w, e);
    hide DriverStep, SendStep, StopStep, FreeStep;
  }

  lemma OverDriver(w: World, e: Event)
    requires WellFormed(w.l) && w.driver.Over?
    ensures DriverStep(w, e) == w
  {
  }

  lemma OverStop(w: World, e: Event)
    requires WellFormed(w.l)
    ensures var v := StopStep(w, e); v.driver == w.driver && v.done == w.done && v.l.procs == w.l.procs
  {
  }

  lemma {:induction false} OverIsFinal(w: World, es: seq<Event>)
    requires WellFormed(w.l) && w.done && w.driver.Over?
    ensures var v := Run(w, es); v.done && v.driver.Over? && |v.l.procs| == |w.l.procs|
    decreases |es|
  {
    hide Step;
    if es != [] {
      OverStep(w, es[0]);
      OverIsFinal(Step(w, es[0]), es[1..]);
    }
  }

  /** Once stopped, an installed process that runs is cancelled or has its cancel pending. */
  lemma StopHolds(es: seq<Event>, p: nat)
    requires var w := Reached(es);
             w.l.stopped && w.l.out == Some(p) && p < |w.l.procs| && w.l.procs[p].live
    ensures var w := Reached(es);
            w.l.procs[p].cancelled || p in w.doomed || w.grace > 0 || w.killing > 0 || w.driver == Installed(p, true)
  {
    ReachedOk(es);
    hide InputsOk, Run;
  }

  /** A kill, whenever the lock is free, cancels the installed process that runs. */
  lemma KillCancels(es: seq<Event>, p: nat)
    requires var w := Reached(es);
             w.killing > 0 && w.adding.None? && w.l.out == Some(p) && p < |w.l.procs| && w.l.procs[p].live
    ensures var v := Step(Step(Reached(es), Kills), Cancels(p));
            p < |v.l.procs| && v.l.procs[p].cancelled
  {
    ReachedOk(es);
    hide KillOk, InputsOk, Run;
  }

  /** A step of a stop under way, or of a kill. */
  predicate OfKill(e: Event) {
    e.GraceFires? || e.Kills? || e.Cancels?
  }

  /** With the lock free at most three steps cancel it. */
  lemma FreeStopCancels(es: seq<Event>, p: nat) returns (more: seq<Event>)
    requires var w := Reached(es);
             w.adding.None? && w.l.stopped && w.l.out == Some(p) && p < |w.l.procs| && w.l.procs[p].live
    ensures |more| <= 3
    ensures forall i :: 0 <= i < |more| ==> OfKill(more[i]) || (more[i].Proceeds? && Reached(es).driver.Installed?)
    ensures var v := Run(Reached(es), more); p < |v.l.procs| && v.l.procs[p].cancelled
  {
    var w := Reached(es);
    StopHolds(es, p);
    hide Step, Run;
    if w.l.procs[p].cancelled {
      more := [];
      RunNone(w);
    } else if p in w.doomed {
      more := [Cancels(p)];
      RunOne(w, more[0]);
      CancelWorks(w, more[0], p);
    } else if w.killing > 0 {
      more := [Kills, Cancels(p)];
      KillRun(es, p);
    } else if w.grace > 0 {
      more := [GraceFires, Kills, Cancels(p)];
      GraceRun(es, p);
    } else {
      more := [Proceeds];
      RunOne(w, more[0]);
      CancelWorks(w, more[0], p);
    }
  }

  lemma KillRun(es: seq<Event>, p: nat)
    requires var w := Reached(es);
             w.killing > 0 && w.adding.None? && w.l.out == Some(p) && p < |w.l.procs| && w.l.procs[p].live
    ensures var v := Run(Reached(es), [Kills, Cancels(p)]); p < |v.l.procs| && v.l.procs[p].cancelled
  {
    hide Step, Run;
    KillCancels(es, p);
    RunTwo(Reached(es), Kills, Cancels(p));
  }

  lemma GraceRun(es: seq<Event>, p: nat)
    requires var w := Reached(es);
             w.grace > 0 && w.adding.None? && w.l.out == Some(p) && p < |w.l.procs| && w.l.procs[p].live
    ensures var v := Run(Reached(es), [GraceFires, Kills, Cancels(p)]); p < |v.l.procs| && v.l.procs[p].cancelled
  {
    hide Step, Run;
    var w := Reached(es);
    RunSplit(Begin, es, [GraceFires]);
    RunOne(w, GraceFires);
    GraceKills(w);
    KillRun(es + [GraceFires], p);
    RunSplit(w, [GraceFires], [Kills, Cancels(p)]);
    assert [GraceFires] + [Kills, Cancels(p)] == [GraceFires, Kills, Cancels(p)];
  }

  lemma RunNone(w: World)
    requires WellFormed(w.l)
    ensures Run(w, []) == w
  {
  }

  lemma CancelWorks(w: World, e: Event, p: nat)
    requires WellFormed(w.l) && p < |w.l.procs|
    requires (e == Cancels(p) && p in w.doomed) || (e.Proceeds? && w.driver == Installed(p, true))
    ensures var v := Step(w, e); p < |v.l.procs| && v.l.procs[p].cancelled
  {
  }

  lemma GraceKills(w: World)
    requires WellFormed(w.l) && w.grace > 0
    ensures var v := Step(w, GraceFires); v.l == w.l && v.killing > 0 && v.adding == w.adding
  {
  }

  /** A step the server process itself has to take for the supervisor to go on. */
  predicate OfServer(e: Event) {
    e.InitWorks? || e.InitFails? || e.Reaps? || e.Writes?
  }

  /**
   So from any such state, the lock held or free, at most four steps, none of them the
   server's own, cancel it: a body being sent is counted first.
   */
  lemma StopCancels(es: seq<Event>, p: nat) returns (more: seq<Event>)
    requires var w := Reached(es); w.l.stopped && w.l.out == Some(p) && p < |w.l.procs| && w.l.procs[p].live
    ensures |more| <= 4 && forall i :: 0 <= i < |more| ==> !OfServer(more[i])
    ensures var v := Run(Reached(es), more); p < |v.l.procs| && v.l.procs[p].cancelled
  {
    hide Step, Run;
    var w := Reached(es);
    if w.adding.None? {
      more := FreeStopCancels(es, p);
      KillsNotServer(more);
    } else {
      CountsRun(es);
      var rest := FreeStopCancels(es + [Counts], p);
      more := [Counts] + rest;
      KillsNotServer(rest);
      RunSplit(w, [Counts], rest);
    }
  }

  lemma KillsNotServer(es: seq<Event>)
    requires forall i :: 0 <= i < |es| ==> OfKill(es[i]) || es[i].Proceeds?
    ensures forall i :: 0 <= i < |es| ==> !OfServer(es[i])
  {
  }

  lemma CountsRun(es: seq<Event>)
    requires Reached(es).adding.Some?
    ensures var w := Reached(es); var v := Reached(es + [Counts]);
            && v == Run(w, [Counts]) && v.adding.None? && v.l.stopped == w.l.stopped && v.l.out == w.l.out
            && |v.l.procs| == |w.l.procs| && forall p :: 0 <= p < |w.l.procs| ==> v.l.procs[p].live == w.l.procs[p].live
  {
    CountsFrees(es);
    RunSplit(Begin, es, [Counts]);
    RunOne(Reached(es), Counts);
    hide Run, Step;
  }

  /** The count of a body sent frees the lock, and starts, ends and cancels nothing. */
  lemma CountsFrees(es: seq<Event>)
    requires Reached(es).adding.Some?
    ensures var w := Reached(es); var v := Step(w, Counts);
            && v.adding.None? && v.l.stopped == w.l.stopped && v.l.out == w.l.out && |v.l.procs| == |w.l.procs|
            && forall p :: 0 <= p < |w.l.procs| ==> v.l.procs[p].live == w.l.procs[p].live
  {
    ReachedOk(es);
    hide KillOk, DriverOk, Run;
  }

  lemma RunOne(w: World, e: Event)
    requires WellFormed(w.l)
    ensures Run(w, [e]) == Step(w, e)
  {
    hide Step;
    assert [e][1..] == [];
  }

  lemma {:induction false} RunTwo(w: World, e: Event, f: Event)
    requires WellFormed(w.l)
    ensures Run(w, [e, f]) == Step(Step(w, e), f)
  {
    hide Step;
    assert [e, f] == [e] + [f];
    RunSplit(w, [e], [f]);
    RunOne(w, e);
    RunOne(Step(w, e), f);
  }

  /** Each input holds at most its bound, counts it rightly, and is written in the order it was queued. */
  lemma InputsBoundedInOrder(es: seq<Event>, p: nat)
    requires p < |Reached(es).l.procs|
    ensures var w := Reached(es); var input := w.l.procs[p].input;
            && Held(input) <= OutBytes && |input.queue| <= OutQueue
            && (w.adding.None? ==> input.counter == Held(input))
            && input.written <= input.accepted
            && (!input.writerDone && input.queue == [] && input.taking.None? ==> input.written == input.accepted)
  {
    ReachedOk(es);
    assert InputOk(Reached(es).l.procs[p].input, Uncounted(Reached(es), p));
    hide KillOk, DriverOk, Run;
  }
}
