/**
 Every interleaving of the goroutines that share one session: prompts, woken
 turns, MCP restarts, held asks, linger timers, reviews, cancels and the close.
 A step is one critical section, or one local move between two of them.
 */
module SessionRuns {
  import opened Basics
  import opened SessionSteps

  /** Where a prompt stands. `Trying` is also a prompt waiting for a woken turn. */
  datatype Prompt = Trying | Holding | Ended | TurnedAway

  /** Where a woken turn stands; `Closing` has ended its turn and still holds the session. */
  datatype Woken = Running | Closing | Cleared | Announced

  datatype Restart = Working | Released

  /** Where an ask stands; `via` is the window that let it out, if one did. */
  datatype Stage =
    | Looking                                   // counted as waiting, about to look again
    | Parked(channel: nat)
    | LeavingHeld(via: Option<nat>)             // let out, not yet settled
    | GivingUp                                  // its wait is over, not yet settled
    | Unbound(via: Option<nat>)                 // let out, not yet bound to a turn or window
    | Asking(via: Option<nat>, bound: Option<nat>)
    | Gone
  {
    /** Counted in the session's waiting asks. */
    predicate Counted() {
      Looking? || Parked? || LeavingHeld? || GivingUp?
    }

    /** The window that counts it as outstanding. */
    function Window(): Option<nat> {
      if LeavingHeld? || Unbound? || Asking? then via else None
    }
  }

  datatype Ask = Ask(task: Task, stage: Stage)

  datatype World = World(
    s: Session,
    prompts: map<nat, Prompt>,
    wakes: map<nat, Woken>,
    restarts: map<nat, Restart>,
    asks: map<nat, Ask>,
    ran: set<nat>)               // the linger timers whose callback has run

  datatype Event =
    | PromptClaims(id: nat)
    | PromptEnds(id: nat)
    | WokenOpens(id: nat, readOnly: bool)
    | WokenEndsTurn(id: nat)
    | WokenClears(id: nat)
    | WokenAnnounces(id: nat)
    | RestartClaims(id: nat)
    | RestartReleases(id: nat)
    | AskArrives(id: nat, task: Task)
    | AskLooks(id: nat)
    | AskWakes(id: nat)
    | AskGivesUp(id: nat)
    | AskSettles(id: nat)
    | AskBinds(id: nat)
    | AskReturns(id: nat)
    | PersonReviews(task: Task)
    | PersonCancels
    | TimerFires(timer: nat)
    | SessionShuts

  const Start := World(NewSession, map[], map[], map[], map[], {})

  function Via(p: Pass): Option<nat> {
    if p.Through? then Some(p.window) else None
  }

  function SetAsk(w: World, id: nat, ask: Ask): World {
    w.(asks := w.asks[id := ask])
  }

  function Move(w: World, id: nat, stage: Stage): World
    requires id in w.asks
  {
    SetAsk(w, id, w.asks[id].(stage := stage))
  }

  ghost predicate ClaimsKept(w: World, v: World) {
    SameClaims(w.s, v.s) && v.prompts == w.prompts && v.wakes == w.wakes && v.restarts == w.restarts
  }

  /** A step of a prompt. */
  function PromptStep(w: World, e: Event): (v: World)
    requires w.s.WellFormed()
    ensures v.s.WellFormed() && v.s.waiting == w.s.waiting
    ensures v == w.(s := v.s, prompts := v.prompts)
  {
    match e
    case PromptClaims(p) =>
      if p in w.wakes || (p in w.prompts && w.prompts[p] != Trying) then w
      else
        var (s, claim) := ClaimTurn(w.s, p);
        w.(s := s, prompts := w.prompts[p := match claim
                                             case Claimed => Holding
                                             case WaitFor(_) => Trying
                                             case Busy => TurnedAway])
    case PromptEnds(p) =>
      // The end acts once, however often it is called.
      if p in w.prompts && w.prompts[p] == Holding
      then w.(s := EndTurn(w.s), prompts := w.prompts[p := Ended])
      else w
    case _ => w
  }

  /** A step of a woken turn. */
  function WokenStep(w: World, e: Event): (v: World)
    requires w.s.WellFormed()
    ensures v.s.WellFormed() && v.s.waiting == w.s.waiting
    ensures v == w.(s := v.s, wakes := v.wakes)
  {
    match e
    case WokenOpens(k, readOnly) =>
      if k in w.prompts || k in w.wakes then w
      else
        var (s, started) := OpenWoken(w.s, k, readOnly);
        if started then w.(s := s, wakes := w.wakes[k := Running]) else w
    case WokenEndsTurn(k) =>
      if k in w.wakes && w.wakes[k] == Running
      then w.(s := EndTurn(w.s), wakes := w.wakes[k := Closing])
      else w
    case WokenClears(k) =>
      if k in w.wakes && w.wakes[k] == Closing
      then w.(s := ClearWoken(w.s), wakes := w.wakes[k := Cleared])
      else w
    case WokenAnnounces(k) =>
      if k in w.wakes && w.wakes[k] == Cleared then w.(wakes := w.wakes[k := Announced]) else w
    case _ => w
  }

  /** A step of an MCP restart. */
  function RestartStep(w: World, e: Event): (v: World)
    requires w.s.WellFormed()
    ensures v.s.WellFormed() && v.s.waiting == w.s.waiting
    ensures v == w.(s := v.s, restarts := v.restarts)
  {
    match e
    case RestartClaims(r) =>
      if r in w.restarts then w
      else
        var (s, claimed) := ClaimRestart(w.s);
        if claimed then w.(s := s, restarts := w.restarts[r := Working]) else w
    case RestartReleases(r) =>
      // The release acts once too.
      if r in w.restarts && w.restarts[r] == Working
      then w.(s := ReleaseRestart(w.s), restarts := w.restarts[r := Released])
      else w
    case _ => w
  }

  function ClaimStep(w: World, e: Event): (v: World)
    requires w.s.WellFormed()
    ensures v.s.WellFormed() && v.asks == w.asks && v.ran == w.ran && v.s.waiting == w.s.waiting
  {
    if e.PromptClaims? || e.PromptEnds? then PromptStep(w, e)
    else if e.RestartClaims? || e.RestartReleases? then RestartStep(w, e)
    else WokenStep(w, e)
  }

  /** An ask comes, and goes out at once or is held. */
  function ArriveStep(w: World, a: nat, task: Task): (v: World)
    requires w.s.WellFormed()
    ensures v.s.WellFormed() && ClaimsKept(w, v) && v.ran == w.ran
  {
    if a in w.asks then w
    else
      var (s, pass) := Arrive(w.s, task);
      SetAsk(w.(s := s), a, Ask(task, if pass == Held then Looking else Unbound(Via(pass))))
  }

  /** A held ask looks again, and goes out or parks. */
  function LookStep(w: World, a: nat): (v: World)
    requires w.s.WellFormed()
    ensures v.s.WellFormed() && ClaimsKept(w, v) && v.ran == w.ran
  {
    if a in w.asks && w.asks[a].stage == Looking then
      var (s, pass, channel) := Look(w.s, w.asks[a].task);
      Move(w.(s := s), a, if pass == Held then Parked(channel) else LeavingHeld(Via(pass)))
    else w
  }

  /** An ask is answered, at the window that let it out. */
  function ReturnStep(w: World, a: nat): (v: World)
    requires w.s.WellFormed()
    ensures v.s.WellFormed() && ClaimsKept(w, v) && v.ran == w.ran
  {
    if a in w.asks && w.asks[a].stage.Asking? then
      var via := w.asks[a].stage.via;
      if via.Some? && via.value < |w.s.windows|
      then Move(w.(s := WindowAnswered(w.s, via.value)), a, Gone)
      else Move(w, a, Gone)
    else w
  }

  /** A move of an ask by itself. */
  predicate PlainEvent(e: Event) {
    e.AskWakes? || e.AskGivesUp? || e.AskSettles? || e.AskBinds?
  }

  /** Where an ask that moves by itself goes, if it can. */
  function PlainNext(w: World, e: Event): Option<Stage>
    requires PlainEvent(e) && e.id in w.asks
  {
    var stage := w.asks[e.id].stage;
    match e
    case AskWakes(_) => if stage.Parked? && stage.channel in w.s.closedWakes then Some(Looking) else None
    case AskGivesUp(_) => if stage.Parked? then Some(GivingUp) else None
    case AskSettles(_) =>
      if stage.LeavingHeld? then Some(Unbound(stage.via)) else if stage.GivingUp? then Some(Gone) else None
    case _ =>
      if stage.Unbound? then Some(Asking(stage.via, if stage.via.Some? then stage.via else w.s.turn)) else None
  }

  function PlainStep(w: World, e: Event): (v: World)
    requires w.s.WellFormed()
    ensures v.s.WellFormed() && ClaimsKept(w, v) && v.ran == w.ran
  {
    if PlainEvent(e) && e.id in w.asks && PlainNext(w, e).Some? then
      Move(if e.AskSettles? then w.(s := Settle(w.s, w.asks[e.id].task)) else w, e.id, PlainNext(w, e).value)
    else w
  }

  /** A step of a held ask: every claim stays as it is. */
  function AskStep(w: World, e: Event): (v: World)
    requires w.s.WellFormed()
    ensures v.s.WellFormed() && ClaimsKept(w, v) && v.ran == w.ran
  {
    match e
    case AskArrives(a, task) => ArriveStep(w, a, task)
    case AskLooks(a) => LookStep(w, a)
    case AskReturns(a) => ReturnStep(w, a)
    case _ => PlainStep(w, e)
  }

  /** A step of the person at the editor, of a linger timer, or of the close: every claim stays as it is. */
  function WindowStep(w: World, e: Event): (v: World)
    requires w.s.WellFormed()
    ensures v.s.WellFormed() && ClaimsKept(w, v) && v.asks == w.asks && v.s.waiting == w.s.waiting
  {
    match e
    case PersonReviews(task) => w.(s := Review(w.s, task))
    case PersonCancels => w.(s := CloseWindow(w.s))
    case TimerFires(t) =>
      if t < |w.s.timers| && t !in w.ran
      then w.(s := LingerFired(w.s, w.s.timers[t]), ran := w.ran + {t})
      else w
    case SessionShuts => w.(s := Shut(w.s))
    case _ => w
  }

  predicate OfWindows(e: Event) {
    e.PersonReviews? || e.PersonCancels? || e.TimerFires? || e.SessionShuts?
  }

  predicate OfAsks(e: Event) {
    e.AskArrives? || e.AskLooks? || e.AskWakes? || e.AskGivesUp? || e.AskSettles? || e.AskBinds? || e.AskReturns?
  }

  /** One step; an event that cannot happen now changes nothing. */
  function Step(w: World, e: Event): (v: World)
    requires w.s.WellFormed()
    ensures v.s.WellFormed()
  {
    if OfWindows(e) then WindowStep(w, e)
    else if OfAsks(e) then AskStep(w, e)
    else ClaimStep(w, e)
  }

  // ---------- Who holds the session ----------

  /** The goroutines that hold a claim on the session, by their own account. */
  datatype Holder = ByPrompt(id: nat) | ByWoken(id: nat) | ByRestart(id: nat)

  ghost predicate Holds(w: World, h: Holder) {
    match h
    case ByPrompt(p) => p in w.prompts && w.prompts[p] == Holding
    case ByWoken(k) => k in w.wakes && (w.wakes[k] == Running || w.wakes[k] == Closing)
    case ByRestart(r) => r in w.restarts && w.restarts[r] == Working
  }

  /** The session's fields name exactly the one that holds it. */
  ghost predicate OwnerInv(w: World) {
    && w.s.turn == w.s.cancel
    && w.prompts.Keys !! w.wakes.Keys
    && (forall p :: p in w.prompts && w.prompts[p] == Holding ==>
          w.s.cancel == Some(p) && w.s.woken.None? && !w.s.mcpRestart)
    && (forall k :: k in w.wakes && w.wakes[k] == Running ==>
          w.s.cancel == Some(k) && w.s.woken == Some(k) && !w.s.mcpRestart)
    && (forall k :: k in w.wakes && w.wakes[k] == Closing ==>
          w.s.cancel.None? && w.s.woken == Some(k) && !w.s.mcpRestart)
    && (forall r :: r in w.restarts && w.restarts[r] == Working ==>
          w.s.cancel.None? && w.s.woken.None? && w.s.mcpRestart)
    && (forall r, q :: r in w.restarts && q in w.restarts && w.restarts[r] == Working && w.restarts[q] == Working ==> r == q)
    && (w.s.cancel.Some? ==> Holds(w, ByPrompt(w.s.cancel.value)) || Holds(w, ByWoken(w.s.cancel.value)))
    && (w.s.woken.Some? ==> Holds(w, ByWoken(w.s.woken.value)))
    && (w.s.mcpRestart ==> exists r :: Holds(w, ByRestart(r)))
  }

  // ---------- Review windows ----------

  /** The asks window `i` has let out and that have not returned. */
  ghost function Outstanding(asks: map<nat, Ask>, i: nat): set<nat> {
    set a | a in asks && asks[a].stage.Window() == Some(i)
  }

  /** The asks of `task` between their first refusal and their settling. */
  ghost function Waiters(asks: map<nat, Ask>, task: Task): set<nat> {
    set a | a in asks && asks[a].task == task && asks[a].stage.Counted()
  }

  /** Each window's count is right, and only the current window may be open or linger. */
  ghost predicate CountsOk(s: Session, ran: set<nat>, asks: map<nat, Ask>) {
    && s.WellFormed()
    && (forall t :: t in ran ==> t < |s.timers|)
    && (forall i: nat :: i < |s.windows| ==> s.windows[i].outstanding == |Outstanding(asks, i)|)
    && (forall a :: a in asks && asks[a].stage.Window().Some? ==> asks[a].stage.Window().value < |s.windows|)
    && (forall i: nat :: i < |s.windows| && s.window != Some(i) ==> !s.windows[i].open && s.windows[i].timer.None?)
  }

  ghost predicate WindowsOk(s: Session, ran: set<nat>, asks: map<nat, Ask>) {
    CountsOk(s, ran, asks) && (s.window.Some? ==> CurrentOk(s, ran, s.window.value))
  }

  /** What holds of the current window `i`. */
  ghost predicate CurrentOk(s: Session, ran: set<nat>, i: nat)
    requires s.WellFormed() && i < |s.windows|
  {
    var win := s.windows[i];
    && !win.cancelled
    && (win.open ==> s.cancel.None?)
    && (!win.open ==> win.outstanding > 0)
    && (win.timer.Some? ==>
          win.open && win.outstanding == 0 && win.timer.value < |s.timers| && s.timers[win.timer.value] == i
          && win.timer.value !in ran)
    && (win.open && win.outstanding == 0 ==> win.timer.Some?)
  }

  ghost predicate WaitingOk(s: Session, asks: map<nat, Ask>) {
    forall task :: s.Waiting(task) == |Waiters(asks, task)|
  }

  // ---------- Wakeups ----------

  ghost predicate WakesOk(s: Session, asks: map<nat, Ask>)
    requires s.WellFormed()
  {
    && (s.wake.Some? ==> s.wake.value < s.wakesMade && s.wake.value !in s.closedWakes)
    && (forall c :: c in s.closedWakes ==> c < s.wakesMade)
    && (forall a :: a in asks && asks[a].stage.Parked? ==> Waits(s, asks[a]))
  }

  /** A parked ask can be woken, or waits on the current channel with nothing open to it. */
  ghost predicate Waits(s: Session, ask: Ask)
    requires s.WellFormed() && ask.stage.Parked?
  {
    ask.stage.channel in s.closedWakes
    || (s.wake == Some(ask.stage.channel) && !Askable(s, ask.task).0)
  }

  ghost predicate Inv(w: World) {
    WindowsOk(w.s, w.ran, w.asks) && OwnerInv(w) && WaitingOk(w.s, w.asks) && WakesOk(w.s, w.asks)
  }

  // ---------- Counting ----------

  lemma OutstandingUpdate(asks: map<nat, Ask>, a: nat, ask: Ask, i: nat)
    ensures Outstanding(asks[a := ask], i) ==
            if ask.stage.Window() == Some(i) then Outstanding(asks, i) + {a} else Outstanding(asks, i) - {a}
  {
  }

  lemma WaitersUpdate(asks: map<nat, Ask>, a: nat, ask: Ask, task: Task)
    ensures Waiters(asks[a := ask], task) ==
            if ask.task == task && ask.stage.Counted() then Waiters(asks, task) + {a} else Waiters(asks, task) - {a}
  {
  }

  /** 1 when ask `a` is outstanding at window `i`, else 0. */
  ghost function At(asks: map<nat, Ask>, a: nat, i: nat): int {
    if a in asks && asks[a].stage.Window() == Some(i) then 1 else 0
  }

  /** 1 when ask `a` is of `task` and counted as waiting, else 0. */
  ghost function Waiting(asks: map<nat, Ask>, a: nat, task: Task): int {
    if a in asks && asks[a].task == task && asks[a].stage.Counted() then 1 else 0
  }

  /** The count of every window after one ask changed. */
  lemma OutstandingCounts(asks: map<nat, Ask>, a: nat, ask: Ask)
    ensures forall i: nat ::
              |Outstanding(asks[a := ask], i)| == |Outstanding(asks, i)| + At(asks[a := ask], a, i) - At(asks, a, i)
  {
    forall i: nat
      ensures |Outstanding(asks[a := ask], i)| == |Outstanding(asks, i)| + At(asks[a := ask], a, i) - At(asks, a, i)
    {
      OutstandingUpdate(asks, a, ask, i);
    }
  }

  lemma WaiterCounts(asks: map<nat, Ask>, a: nat, ask: Ask)
    ensures forall task ::
              |Waiters(asks[a := ask], task)| == |Waiters(asks, task)| + Waiting(asks[a := ask], a, task) - Waiting(asks, a, task)
  {
    forall task
      ensures |Waiters(asks[a := ask], task)| == |Waiters(asks, task)| + Waiting(asks[a := ask], a, task) - Waiting(asks, a, task)
    {
      WaitersUpdate(asks, a, ask, task);
    }
  }

  // ---------- Each critical section keeps the windows in order ----------

  lemma CloseWindowOk(s: Session, ran: set<nat>, asks: map<nat, Ask>)
    requires CountsOk(s, ran, asks)
    ensures WindowsOk(CloseWindow(s), ran, asks)
  {
    hide Outstanding, CurrentOk;
    if s.window.Some? {
      var i := s.window.value;
      var r := CloseWindow(s);
      assert r.windows == s.windows[i := s.windows[i].(timer := None, open := false, cancelled := true)] && r.timers == s.timers;
      hide CloseWindow;
      assert forall j: nat :: j < |s.windows| ==> r.windows[j].outstanding == s.windows[j].outstanding;
    }
  }

  lemma BeginTurnOk(s: Session, id: nat, ran: set<nat>, asks: map<nat, Ask>)
    requires WindowsOk(s, ran, asks)
    ensures WindowsOk(BeginTurn(s, id), ran, asks)
  {
    if s.window.Some? {
      var i := s.window.value;
      var stopped := s.(cancel := Some(id), turn := Some(id), windows := s.windows[i := s.windows[i].(open := false)]);
      assert CountsOk(stopped, ran, asks);
      if s.windows[i].outstanding == 0 {
        CloseWindowOk(stopped, ran, asks);
      } else {
        assert CurrentOk(stopped, ran, i);
      }
    }
  }

  lemma LingerOk(s: Session, i: nat, ran: set<nat>, asks: map<nat, Ask>)
    requires CountsOk(s, ran, asks) && s.window == Some(i)
    requires s.windows[i].outstanding == 0 && !s.windows[i].cancelled && (s.windows[i].open ==> s.cancel.None?)
    ensures WindowsOk(Linger(s, i), ran, asks)
  {
    if !s.windows[i].open {
      CloseWindowOk(s.(windows := s.windows[i := s.windows[i].(timer := None)]), ran, asks);
    }
  }

  lemma OpenWindowOk(s: Session, ran: set<nat>, asks: map<nat, Ask>)
    requires WindowsOk(s, ran, asks) && s.cancel.None?
    ensures CountsOk(OpenWindow(s), ran, asks)
  {
    assert Outstanding(asks, |s.windows|) == {};
  }

  lemma WidenOk(s: Session, i: nat, task: Task, ran: set<nat>, asks: map<nat, Ask>)
    requires CountsOk(s, ran, asks) && s.window == Some(i)
    ensures CountsOk(s.(windows := s.windows[i := Widen(s.windows[i], task)]), ran, asks)
  {
  }

  /** What no window reads may change, and a turn may end. */
  lemma WindowsFrame(s: Session, s': Session, ran: set<nat>, asks: map<nat, Ask>)
    requires WindowsOk(s, ran, asks)
    requires s'.window == s.window && s'.windows == s.windows && s'.timers == s.timers
    requires s'.cancel == s.cancel || s'.cancel.None?
    ensures WindowsOk(s', ran, asks)
  {
  }

  lemma ReviewOk(s: Session, task: Task, ran: set<nat>, asks: map<nat, Ask>)
    requires WindowsOk(s, ran, asks)
    ensures WindowsOk(Review(s, task), ran, asks)
  {
    if s.cancel.None? {
      OpenWindowOk(s, ran, asks);
      var made := OpenWindow(s);
      var i := made.window.value;
      WidenOk(made, i, task, ran, asks);
      var widened := made.(windows := made.windows[i := Widen(made.windows[i], task)]);
      if widened.windows[i].outstanding == 0 {
        LingerOk(widened, i, ran, asks);
        WindowsFrame(Linger(widened, i), Poke(Linger(widened, i)), ran, asks);
      } else {
        assert CurrentOk(widened, ran, i);
        WindowsFrame(widened, Poke(widened), ran, asks);
      }
    }
  }

  /** The ask that looks is counted where it went. */
  lemma TakeOk(s: Session, ran: set<nat>, asks: map<nat, Ask>, a: nat, ask: Ask)
    requires WindowsOk(s, ran, asks)
    requires a in asks ==> asks[a].stage.Window().None?
    requires ask.stage.Window() == Via(Take(s, ask.task).1)
    ensures WindowsOk(Take(s, ask.task).0, ran, asks[a := ask])
  {
    OutstandingCounts(asks, a, ask);
    hide Outstanding;
    var (r, pass) := Take(s, ask.task);
    TakeShape(s, ask.task);
    hide Take;
    if pass.Through? {
      assert CountsOk(r, ran, asks[a := ask]);
    } else {
      assert CountsOk(s, ran, asks[a := ask]);
    }
  }

  lemma TakeShape(s: Session, task: Task)
    requires s.WellFormed()
    ensures var (r, pass) := Take(s, task);
            if pass.Through? then
              && s.window == Some(pass.window) && s.windows[pass.window].open
              && r == s.(windows := s.windows[pass.window :=
                                              s.windows[pass.window].(outstanding := s.windows[pass.window].outstanding + 1,
                                                                      timer := None)])
            else r == s
  {
  }

  lemma ReturnOk(s: Session, ran: set<nat>, asks: map<nat, Ask>, a: nat, i: nat)
    requires WindowsOk(s, ran, asks)
    requires a in asks && asks[a].stage.Window() == Some(i)
    ensures i < |s.windows| && WindowsOk(WindowAnswered(s, i), ran, asks[a := asks[a].(stage := Gone)])
  {
    hide Outstanding, Linger;
    var after := asks[a := asks[a].(stage := Gone)];
    var counted := s.(windows := s.windows[i := s.windows[i].(outstanding := s.windows[i].outstanding - 1)]);
    CountedDown(s, ran, asks, a, i);
    hide CountsOk;
    if s.window == Some(i) && counted.windows[i].outstanding == 0 {
      LingerOk(counted, i, ran, after);
    } else if s.window.Some? {
      CurrentCounted(s, counted, ran, i);
    }
  }

  /** One ask fewer is out through window `i`, and its count says so. */
  lemma CountedDown(s: Session, ran: set<nat>, asks: map<nat, Ask>, a: nat, i: nat)
    requires CountsOk(s, ran, asks) && a in asks && asks[a].stage.Window() == Some(i)
    ensures i < |s.windows| && s.windows[i].outstanding > 0
    ensures CountsOk(s.(windows := s.windows[i := s.windows[i].(outstanding := s.windows[i].outstanding - 1)]), ran,
                     asks[a := asks[a].(stage := Gone)])
  {
    OutstandingCounts(asks, a, asks[a].(stage := Gone));
    assert a in Outstanding(asks, i);
    hide Outstanding;
  }

  lemma CurrentCounted(s: Session, s': Session, ran: set<nat>, i: nat)
    requires s.WellFormed() && i < |s.windows| && s.window.Some? && CurrentOk(s, ran, s.window.value)
    requires s' == s.(windows := s.windows[i := s.windows[i].(outstanding := s.windows[i].outstanding - 1)])
    requires s.windows[i].outstanding > 0 && (s.window == Some(i) ==> s'.windows[i].outstanding != 0)
    ensures s'.WellFormed() && CurrentOk(s', ran, s'.window.value)
  {
  }

  /** A move that leaves an ask with the window it had, or with none as before. */
  lemma MoveOk(s: Session, ran: set<nat>, asks: map<nat, Ask>, a: nat, stage: Stage)
    requires WindowsOk(s, ran, asks) && a in asks && stage.Window() == asks[a].stage.Window()
    ensures WindowsOk(s, ran, asks[a := asks[a].(stage := stage)])
  {
    OutstandingCounts(asks, a, asks[a].(stage := stage));
  }

  /** The step begins a turn. */
  predicate Begins(w: World, e: Event) {
    && w.s.cancel.None? && w.s.woken.None? && !w.s.mcpRestart
    && match e
       case PromptClaims(p) => p !in w.wakes && (p in w.prompts ==> w.prompts[p] == Trying)
       case WokenOpens(k, readOnly) => k !in w.prompts && k !in w.wakes && !w.s.closed && !readOnly
       case _ => false
  }

  /** A session as a turn begins on it. */
  function Beginning(s: Session, e: Event): Session {
    if e.WokenOpens? then s.(woken := Some(e.id)) else s
  }

  /** Windows and wakes as they were; at most a turn has ended. */
  predicate Quiet(s: Session, s': Session) {
    SameWindows(s, s') && SameWakes(s, s') && (s'.cancel == s.cancel || s'.cancel.None?)
  }

  lemma PromptShape(w: World, e: Event)
    requires w.s.WellFormed() && (e.PromptClaims? || e.PromptEnds?)
    ensures if Begins(w, e) then PromptStep(w, e).s == BeginTurn(w.s, e.id) else Quiet(w.s, PromptStep(w, e).s)
  {
    hide BeginTurn;
  }

  lemma WokenShape(w: World, e: Event)
    requires w.s.WellFormed() && !e.PromptClaims?
    ensures if Begins(w, e) then e.WokenOpens? && WokenStep(w, e).s == BeginTurn(Beginning(w.s, e), e.id)
            else Quiet(w.s, WokenStep(w, e).s)
  {
    hide BeginTurn;
  }

  lemma RestartShape(w: World, e: Event)
    requires w.s.WellFormed()
    ensures Quiet(w.s, RestartStep(w, e).s)
  {
  }

  lemma ClaimShape(w: World, e: Event)
    requires w.s.WellFormed()
    ensures Begins(w, e) ==> (e.PromptClaims? || e.WokenOpens?) && ClaimStep(w, e).s == BeginTurn(Beginning(w.s, e), e.id)
    ensures !Begins(w, e) ==> Quiet(w.s, ClaimStep(w, e).s)
  {
    RestartShape(w, e);
    if e.PromptClaims? || e.PromptEnds? {
      PromptShape(w, e);
    } else {
      WokenShape(w, e);
    }
    hide PromptStep, WokenStep, RestartStep, BeginTurn, Quiet;
  }

  lemma ClaimStepWindows(w: World, e: Event)
    requires WindowsOk(w.s, w.ran, w.asks)
    ensures WindowsOk(ClaimStep(w, e).s, w.ran, w.asks)
  {
    ClaimShape(w, e);
    hide ClaimStep, Begins, BeginTurn, CountsOk, CurrentOk;
    if Begins(w, e) {
      var s := Beginning(w.s, e);
      WindowsFrame(w.s, s, w.ran, w.asks);
      BeginTurnOk(s, e.id, w.ran, w.asks);
    } else {
      WindowsFrame(w.s, ClaimStep(w, e).s, w.ran, w.asks);
    }
  }

  lemma ArriveWindows(w: World, a: nat, task: Task)
    requires WindowsOk(w.s, w.ran, w.asks) && a !in w.asks
    ensures var v := AskStep(w, AskArrives(a, task)); WindowsOk(v.s, w.ran, v.asks)
  {
    assert w.s.WellFormed();
    hide CountsOk, CurrentOk, Take;
    var (taken, pass) := Take(w.s, task);
    var ask := Ask(task, if pass == Held then Looking else Unbound(Via(pass)));
    TakeOk(w.s, w.ran, w.asks, a, ask);
    if pass == Held {
      WindowsFrame(taken, CountWaiting(taken, task), w.ran, w.asks[a := ask]);
    }
  }

  lemma LookWindows(w: World, a: nat)
    requires WindowsOk(w.s, w.ran, w.asks) && a in w.asks && w.asks[a].stage == Looking
    ensures var v := AskStep(w, AskLooks(a)); WindowsOk(v.s, w.ran, v.asks)
  {
    var (taken, pass) := Take(w.s, w.asks[a].task);
    var (s, _, channel) := Look(w.s, w.asks[a].task);
    var ask := w.asks[a].(stage := if pass == Held then Parked(channel) else LeavingHeld(Via(pass)));
    TakeOk(w.s, w.ran, w.asks, a, ask);
    WindowsFrame(taken, s, w.ran, w.asks[a := ask]);
  }

  lemma ReturnWindows(w: World, a: nat)
    requires WindowsOk(w.s, w.ran, w.asks) && a in w.asks && w.asks[a].stage.Asking?
    ensures var v := AskStep(w, AskReturns(a)); WindowsOk(v.s, w.ran, v.asks)
  {
    var via := w.asks[a].stage.via;
    if via.Some? {
      ReturnOk(w.s, w.ran, w.asks, a, via.value);
    } else {
      MoveOk(w.s, w.ran, w.asks, a, Gone);
    }
  }

  /** It keeps the window it has, parks nowhere, and settles what it was counted for. */
  ghost predicate PlainlyMoved(w: World, v: World, a: nat, stage: Stage, settles: bool)
    requires a in w.asks
  {
    && v.asks == w.asks[a := w.asks[a].(stage := stage)]
    && stage.Window() == w.asks[a].stage.Window() && !stage.Parked?
    && stage.Counted() == (w.asks[a].stage.Counted() && !settles)
    && (settles ==> w.asks[a].stage.Counted())
    && v.s == if settles then Settle(w.s, w.asks[a].task) else w.s
  }

  lemma PlainMove(w: World, e: Event) returns (stage: Stage)
    requires w.s.WellFormed() && PlainEvent(e)
    ensures AskStep(w, e) == w || (e.id in w.asks && PlainlyMoved(w, AskStep(w, e), e.id, stage, e.AskSettles?))
  {
    assert AskStep(w, e) == PlainStep(w, e) by {
      hide PlainStep, ArriveStep, LookStep, ReturnStep;
    }
    hide AskStep, Settle, PlainNext, PlainEvent;
    stage := Gone;
    if e.id in w.asks && PlainNext(w, e).Some? {
      stage := PlainNext(w, e).value;
      PlainKeeps(w, e);
    }
  }

  lemma PlainKeeps(w: World, e: Event)
    requires PlainEvent(e) && e.id in w.asks && PlainNext(w, e).Some?
    ensures var was, stage := w.asks[e.id].stage, PlainNext(w, e).value;
            && stage.Window() == was.Window() && !stage.Parked?
            && stage.Counted() == (was.Counted() && !e.AskSettles?) && (e.AskSettles? ==> was.Counted())
  {
  }

  lemma MoveStepWindows(w: World, e: Event)
    requires WindowsOk(w.s, w.ran, w.asks) && PlainEvent(e)
    ensures WindowsOk(AskStep(w, e).s, w.ran, AskStep(w, e).asks)
  {
    var stage := PlainMove(w, e);
    hide AskStep, PlainEvent, CountsOk, CurrentOk;
    if AskStep(w, e) != w {
      MoveOk(w.s, w.ran, w.asks, e.id, stage);
      WindowsFrame(w.s, AskStep(w, e).s, w.ran, w.asks[e.id := w.asks[e.id].(stage := stage)]);
    }
  }

  lemma WindowStepWindows(w: World, e: Event)
    requires WindowsOk(w.s, w.ran, w.asks)
    ensures WindowsOk(WindowStep(w, e).s, WindowStep(w, e).ran, w.asks)
  {
    match e
    case PersonReviews(task) =>
      ReviewOk(w.s, task, w.ran, w.asks);
      hide WindowsOk, Review;
    case PersonCancels =>
      CloseWindowOk(w.s, w.ran, w.asks);
      hide CloseWindow, CurrentOk;
    case SessionShuts =>
      CloseWindowOk(w.s.(closed := true), w.ran, w.asks);
      hide CloseWindow, CurrentOk;
    case TimerFires(t) =>
      if t < |w.s.timers| && t !in w.ran {
        TimerWindows(w.s, t, w.ran, w.asks);
      }
      hide WindowsOk, LingerFired;
    case _ =>
  }

  /** A timer that fires closes the window it was set for, if that still lingers, and is spent. */
  lemma TimerWindows(s: Session, t: nat, ran: set<nat>, asks: map<nat, Ask>)
    requires WindowsOk(s, ran, asks) && t < |s.timers| && t !in ran
    ensures WindowsOk(LingerFired(s, s.timers[t]), ran + {t}, asks)
  {
    var i := s.timers[t];
    hide Outstanding, CloseWindow;
    if s.window == Some(i) && s.windows[i].outstanding == 0 {
      CloseWindowOk(s, ran + {t}, asks);
    }
  }

  // ---------- Each step keeps the one holder ----------

  lemma OwnerFrame(w: World, v: World)
    requires OwnerInv(w)
    requires ClaimsKept(w, v)
    ensures OwnerInv(v)
  {
    if w.s.mcpRestart {
      var r :| Holds(w, ByRestart(r));
      assert Holds(v, ByRestart(r));
    }
  }

  lemma SameRestart(w: World, v: World)
    requires OwnerInv(w) && v.restarts == w.restarts
    ensures w.s.mcpRestart ==> exists r :: Holds(v, ByRestart(r))
  {
    if w.s.mcpRestart {
      var r :| Holds(w, ByRestart(r));
      assert Holds(v, ByRestart(r));
    }
  }

  lemma PromptClaimsOwner(w: World, p: nat)
    requires w.s.WellFormed() && OwnerInv(w)
    ensures OwnerInv(ClaimStep(w, PromptClaims(p)))
  {
    var v := ClaimStep(w, PromptClaims(p));
    SameRestart(w, v);
    PromptClaimShape(w, p);
    hide ClaimStep;
    if v != w && v.prompts[p] != Holding {
      PromptMarked(w, v, p);
    }
  }

  /** A prompt gets the session, or only notes that it has not. */
  lemma PromptClaimShape(w: World, p: nat)
    requires w.s.WellFormed()
    ensures var v := ClaimStep(w, PromptClaims(p));
            && v.wakes == w.wakes && v.restarts == w.restarts
            && (v != w ==>
                && p !in w.wakes && (p in w.prompts ==> w.prompts[p] == Trying)
                && p in v.prompts && v.prompts == w.prompts[p := v.prompts[p]]
                && if v.prompts[p] == Holding
                   then w.s.cancel.None? && w.s.woken.None? && !w.s.mcpRestart
                        && v.s.cancel == Some(p) && v.s.turn == Some(p) && v.s.woken.None? && !v.s.mcpRestart
                   else v.s == w.s)
  {
    hide BeginTurn;
  }

  lemma PromptMarked(w: World, v: World, p: nat)
    requires OwnerInv(w) && p !in w.wakes && (p in w.prompts ==> w.prompts[p] == Trying)
    requires p in v.prompts && v.prompts == w.prompts[p := v.prompts[p]] && v.prompts[p] != Holding
    requires v.s == w.s && v.wakes == w.wakes && v.restarts == w.restarts
    ensures OwnerInv(v)
  {
    SameRestart(w, v);
  }

  lemma PromptEndsOwner(w: World, p: nat)
    requires w.s.WellFormed() && OwnerInv(w)
    ensures OwnerInv(ClaimStep(w, PromptEnds(p)))
  {
    hide BeginTurn;
    SameRestart(w, ClaimStep(w, PromptEnds(p)));
  }

  lemma WokenOpensOwner(w: World, k: nat, readOnly: bool)
    requires w.s.WellFormed() && OwnerInv(w)
    ensures OwnerInv(ClaimStep(w, WokenOpens(k, readOnly)))
  {
    hide BeginTurn;
    SameRestart(w, ClaimStep(w, WokenOpens(k, readOnly)));
  }

  lemma WokenEndsTurnOwner(w: World, k: nat)
    requires w.s.WellFormed() && OwnerInv(w)
    ensures OwnerInv(ClaimStep(w, WokenEndsTurn(k)))
  {
    hide BeginTurn;
    SameRestart(w, ClaimStep(w, WokenEndsTurn(k)));
  }

  lemma WokenClearsOwner(w: World, k: nat)
    requires w.s.WellFormed() && OwnerInv(w)
    ensures OwnerInv(ClaimStep(w, WokenClears(k)))
  {
    hide BeginTurn;
    SameRestart(w, ClaimStep(w, WokenClears(k)));
  }

  lemma WokenAnnouncesOwner(w: World, k: nat)
    requires w.s.WellFormed() && OwnerInv(w)
    ensures OwnerInv(ClaimStep(w, WokenAnnounces(k)))
  {
    hide BeginTurn;
    SameRestart(w, ClaimStep(w, WokenAnnounces(k)));
  }

  lemma RestartOwner(w: World, e: Event)
    requires w.s.WellFormed() && OwnerInv(w) && (e.RestartClaims? || e.RestartReleases?)
    ensures OwnerInv(ClaimStep(w, e))
  {
    hide PromptStep, WokenStep;
    var v := ClaimStep(w, e);
    if v.s.mcpRestart {
      if w.s.mcpRestart {
        var r :| Holds(w, ByRestart(r));
        assert Holds(v, ByRestart(r));
      } else {
        assert Holds(v, ByRestart(e.id));
      }
    }
  }

  // ---------- Each step wakes every parked ask that may go out ----------

  /** A section that pokes leaves every parked ask on a closed channel. */
  lemma PokedWakes(s: Session, s': Session, asks: map<nat, Ask>)
    requires s.WellFormed() && s'.WellFormed() && WakesOk(s, asks)
    requires s'.wake.None? && s'.wakesMade == s.wakesMade
    requires s'.closedWakes == s.closedWakes + (if s.wake.Some? then {s.wake.value} else {})
    ensures WakesOk(s', asks)
  {
  }

  /** A section that does not poke makes no task askable. */
  lemma QuietWakes(s: Session, s': Session, asks: map<nat, Ask>)
    requires s.WellFormed() && s'.WellFormed() && WakesOk(s, asks)
    requires s'.wake == s.wake && s'.wakesMade == s.wakesMade && s'.closedWakes == s.closedWakes
    requires forall task :: Askable(s', task).0 ==> Askable(s, task).0
    ensures WakesOk(s', asks)
  {
  }

  /** A moved ask waits for nothing, or on the current channel with nothing open to it. */
  lemma MovedWakes(s: Session, asks: map<nat, Ask>, a: nat, ask: Ask)
    requires s.WellFormed() && WakesOk(s, asks)
    requires ask.stage.Parked? ==> Waits(s, ask)
    ensures WakesOk(s, asks[a := ask])
  {
  }

  lemma ClaimWakes(w: World, e: Event)
    requires w.s.WellFormed() && WakesOk(w.s, w.asks)
    ensures WakesOk(ClaimStep(w, e).s, w.asks)
  {
    ClaimShape(w, e);
    hide ClaimStep, Begins, BeginTurn, WakesOk;
    if Begins(w, e) {
      PokedWakes(w.s, ClaimStep(w, e).s, w.asks);
    } else {
      QuietAskable(w.s, ClaimStep(w, e).s);
      QuietWakes(w.s, ClaimStep(w, e).s, w.asks);
    }
  }

  lemma QuietAskable(s: Session, s': Session)
    requires s.WellFormed() && s'.WellFormed() && Quiet(s, s')
    ensures forall task :: Askable(s', task).0 ==> Askable(s, task).0
  {
  }

  lemma PersonWakes(w: World, e: Event)
    requires w.s.WellFormed() && WakesOk(w.s, w.asks)
    ensures WakesOk(WindowStep(w, e).s, w.asks)
  {
    hide Review, CloseWindow, Shut, LingerFired;
    var v := WindowStep(w, e);
    if v.s.wake.None? {
      PokedWakes(w.s, v.s, w.asks);
    } else {
      QuietWakes(w.s, v.s, w.asks);
    }
  }

  /** An ask that parks does so on the current channel, which its own look left quiet. */
  lemma LookWakes(s: Session, asks: map<nat, Ask>, task: Task)
    requires s.WellFormed() && WakesOk(s, asks)
    ensures var (s', pass, channel) := Look(s, task);
            && s'.WellFormed() && WakesOk(s', asks)
            && (pass == Held ==> s'.wake == Some(channel) && !Askable(s', task).0)
  {
  }

  lemma ArriveWakes(w: World, a: nat, task: Task)
    requires w.s.WellFormed() && WakesOk(w.s, w.asks) && a !in w.asks
    ensures var v := AskStep(w, AskArrives(a, task)); WakesOk(v.s, v.asks)
  {
    var v := AskStep(w, AskArrives(a, task));
    TakeOpensNothing(w.s, task);
    hide WakesOk, Take, Arrive;
    SameAskable(Take(w.s, task).0, v.s);
    QuietWakes(w.s, v.s, w.asks);
    MovedWakes(v.s, w.asks, a, v.asks[a]);
  }

  lemma TakeOpensNothing(s: Session, task: Task)
    requires s.WellFormed()
    ensures forall other :: Askable(Take(s, task).0, other).0 == Askable(s, other).0
  {
  }

  lemma SameAskable(s: Session, s': Session)
    requires s.WellFormed() && s'.WellFormed() && SameWindows(s, s') && s'.cancel == s.cancel
    ensures forall task :: Askable(s', task) == Askable(s, task)
  {
  }

  lemma LookStepWakes(w: World, a: nat)
    requires w.s.WellFormed() && WakesOk(w.s, w.asks) && a in w.asks && w.asks[a].stage == Looking
    ensures var v := AskStep(w, AskLooks(a)); WakesOk(v.s, v.asks)
  {
    var e := AskLooks(a);
    LookWakes(w.s, w.asks, w.asks[a].task);
    MovedWakes(AskStep(w, e).s, w.asks, a, AskStep(w, e).asks[a]);
  }

  lemma ReturnStepWakes(w: World, a: nat)
    requires w.s.WellFormed() && WakesOk(w.s, w.asks) && a in w.asks && w.asks[a].stage.Asking?
    ensures var v := AskStep(w, AskReturns(a)); WakesOk(v.s, v.asks)
  {
    hide WindowAnswered;
    ReturnWakes(w.s, w.asks, w.asks[a].stage.via);
    var v := AskStep(w, AskReturns(a));
    MovedWakes(v.s, w.asks, a, v.asks[a]);
  }

  /** A move that touches no wake and parks nowhere. */
  lemma PlainMoveWakes(w: World, e: Event)
    requires w.s.WellFormed() && WakesOk(w.s, w.asks) && PlainEvent(e)
    ensures var v := AskStep(w, e); WakesOk(v.s, v.asks)
  {
    var stage := PlainMove(w, e);
    hide AskStep, PlainEvent, WakesOk, Waits;
    var v := AskStep(w, e);
    if v != w {
      QuietAskable(w.s, v.s);
      QuietWakes(w.s, v.s, w.asks);
      MovedWakes(v.s, w.asks, e.id, v.asks[e.id]);
    }
  }

  lemma ReturnWakes(s: Session, asks: map<nat, Ask>, via: Option<nat>)
    requires s.WellFormed() && WakesOk(s, asks)
    ensures via.Some? && via.value < |s.windows| ==> WakesOk(WindowAnswered(s, via.value), asks)
  {
    if via.Some? && via.value < |s.windows| {
      if WindowAnswered(s, via.value).wake.None? {
        PokedWakes(s, WindowAnswered(s, via.value), asks);
      } else {
        QuietWakes(s, WindowAnswered(s, via.value), asks);
      }
    }
  }

  // ---------- Each step keeps the waiting counts ----------

  lemma WaitingMoves(s: Session, s': Session, asks: map<nat, Ask>, a: nat, ask: Ask)
    requires WaitingOk(s, asks) && (a in asks ==> asks[a].task == ask.task)
    requires forall task :: s'.Waiting(task) == s.Waiting(task) + Waiting(asks[a := ask], a, task) - Waiting(asks, a, task)
    ensures WaitingOk(s', asks[a := ask])
  {
    WaiterCounts(asks, a, ask);
  }

  lemma ArriveWaiting(w: World, a: nat, task: Task)
    requires w.s.WellFormed() && WaitingOk(w.s, w.asks) && a !in w.asks
    ensures var v := AskStep(w, AskArrives(a, task)); WaitingOk(v.s, v.asks)
  {
    hide Take, Waiters, WaitingOk;
    var v := AskStep(w, AskArrives(a, task));
    WaitingMoves(w.s, v.s, w.asks, a, v.asks[a]);
  }

  lemma SettleCounts(s: Session, asks: map<nat, Ask>, a: nat, ask: Ask)
    requires WaitingOk(s, asks) && a in asks && asks[a].task == ask.task
    requires asks[a].stage.Counted() && !ask.stage.Counted()
    ensures WaitingOk(Settle(s, ask.task), asks[a := ask])
  {
    hide Waiters;
    WaitingMoves(s, Settle(s, ask.task), asks, a, ask);
  }

  lemma SettleWaiting(w: World, a: nat)
    requires w.s.WellFormed() && WaitingOk(w.s, w.asks) && a in w.asks
    ensures var v := AskStep(w, AskSettles(a)); WaitingOk(v.s, v.asks)
  {
    var stage := w.asks[a].stage;
    if stage.LeavingHeld? {
      SettleCounts(w.s, w.asks, a, w.asks[a].(stage := Unbound(stage.via)));
    } else if stage.GivingUp? {
      SettleCounts(w.s, w.asks, a, w.asks[a].(stage := Gone));
    }
    hide WaitingOk, Settle;
  }

  /** The other moves keep an ask counted or uncounted, and the counts themselves. */
  lemma OtherAskWaiting(w: World, e: Event)
    requires w.s.WellFormed() && WaitingOk(w.s, w.asks) && (e.AskLooks? || e.AskReturns?)
    ensures var v := AskStep(w, e); WaitingOk(v.s, v.asks)
  {
    hide Look, WindowAnswered, Waiters, WaitingOk, PlainStep, ArriveStep;
    var v := AskStep(w, e);
    if e.id in w.asks && (if e.AskLooks? then w.asks[e.id].stage == Looking else w.asks[e.id].stage.Asking?) {
      assert v.asks == w.asks[e.id := v.asks[e.id]];
      WaitingMoves(w.s, v.s, w.asks, e.id, v.asks[e.id]);
    }
  }

  lemma PlainWaiting(w: World, e: Event)
    requires w.s.WellFormed() && WaitingOk(w.s, w.asks) && PlainEvent(e) && !e.AskSettles?
    ensures var v := AskStep(w, e); WaitingOk(v.s, v.asks)
  {
    var stage := PlainMove(w, e);
    hide AskStep, Waiters;
    var v := AskStep(w, e);
    if v != w {
      WaitingMoves(w.s, v.s, w.asks, e.id, v.asks[e.id]);
    }
  }

  // ---------- Every reachable state ----------

  lemma ClaimOwner(w: World, e: Event)
    requires w.s.WellFormed() && OwnerInv(w) && !OfWindows(e) && !OfAsks(e)
    ensures OwnerInv(ClaimStep(w, e))
  {
    match e
    case PromptClaims(p) => PromptClaimsOwner(w, p);
    case PromptEnds(p) => PromptEndsOwner(w, p);
    case WokenOpens(k, readOnly) => WokenOpensOwner(w, k, readOnly);
    case WokenEndsTurn(k) => WokenEndsTurnOwner(w, k);
    case WokenClears(k) => WokenClearsOwner(w, k);
    case WokenAnnounces(k) => WokenAnnouncesOwner(w, k);
    case RestartClaims(_) => RestartOwner(w, e);
    case RestartReleases(_) => RestartOwner(w, e);
    hide OwnerInv, ClaimStep;
  }

  lemma ClaimStepInv(w: World, e: Event)
    requires Inv(w) && !OfWindows(e) && !OfAsks(e)
    ensures Inv(ClaimStep(w, e))
  {
    assert w.s.WellFormed();
    hide WindowsOk, WakesOk, OwnerInv, ClaimStep;
    ClaimStepWindows(w, e);
    ClaimOwner(w, e);
    ClaimWakes(w, e);
  }

  lemma WindowStepInv(w: World, e: Event)
    requires Inv(w)
    ensures Inv(WindowStep(w, e))
  {
    WindowStepWindows(w, e);
    OwnerFrame(w, WindowStep(w, e));
    PersonWakes(w, e);
    hide Review, CloseWindow, Shut, LingerFired, WindowsOk, WakesOk, OwnerInv;
  }

  lemma AskStepInv(w: World, e: Event)
    requires Inv(w)
    ensures Inv(AskStep(w, e))
  {
    assert w.s.WellFormed();
    hide WindowsOk, WakesOk, OwnerInv, WaitingOk, ArriveStep, LookStep, ReturnStep, PlainStep;
    OwnerFrame(w, AskStep(w, e));
    match e
    case AskArrives(a, task) => ArriveInv(w, a, task);
    case AskLooks(a) => LookInv(w, a);
    case AskReturns(a) => ReturnInv(w, a);
    case _ =>
      if PlainEvent(e) {
        PlainInv(w, e);
      } else {
        NoPlainStep(w, e);
      }
  }

  lemma NoPlainStep(w: World, e: Event)
    requires w.s.WellFormed() && !PlainEvent(e)
    ensures PlainStep(w, e) == w
  {
  }

  /** What an ask's step keeps beside the claims. */
  ghost predicate AsksOk(w: World) {
    WindowsOk(w.s, w.ran, w.asks) && WaitingOk(w.s, w.asks) && WakesOk(w.s, w.asks)
  }

  lemma ArriveInv(w: World, a: nat, task: Task)
    requires AsksOk(w)
    ensures AsksOk(AskStep(w, AskArrives(a, task)))
  {
    assert w.s.WellFormed();
    hide WindowsOk, WakesOk, WaitingOk, Arrive;
    if a !in w.asks {
      ArriveWindows(w, a, task);
      ArriveWakes(w, a, task);
      ArriveWaiting(w, a, task);
    }
  }

  lemma LookInv(w: World, a: nat)
    requires AsksOk(w)
    ensures AsksOk(AskStep(w, AskLooks(a)))
  {
    assert w.s.WellFormed();
    hide WindowsOk, WakesOk, WaitingOk, Look;
    if a in w.asks && w.asks[a].stage == Looking {
      LookWindows(w, a);
      LookStepWakes(w, a);
      OtherAskWaiting(w, AskLooks(a));
    }
  }

  lemma ReturnInv(w: World, a: nat)
    requires AsksOk(w)
    ensures AsksOk(AskStep(w, AskReturns(a)))
  {
    assert w.s.WellFormed();
    hide WindowsOk, WakesOk, WaitingOk, WindowAnswered;
    if a in w.asks && w.asks[a].stage.Asking? {
      ReturnWindows(w, a);
      ReturnStepWakes(w, a);
      OtherAskWaiting(w, AskReturns(a));
    }
  }

  lemma PlainInv(w: World, e: Event)
    requires AsksOk(w) && PlainEvent(e)
    ensures AsksOk(AskStep(w, e))
  {
    assert w.s.WellFormed();
    hide WindowsOk, WakesOk, WaitingOk, AskStep;
    MoveStepWindows(w, e);
    PlainMoveWakes(w, e);
    if !e.AskSettles? {
      PlainWaiting(w, e);
    } else if e.id in w.asks {
      SettleWaiting(w, e.id);
    } else {
      SettlesNone(w, e.id);
    }
  }

  lemma SettlesNone(w: World, a: nat)
    requires w.s.WellFormed() && a !in w.asks
    ensures AskStep(w, AskSettles(a)) == w
  {
  }

  lemma InvStep(w: World, e: Event)
    requires Inv(w)
    ensures Inv(Step(w, e))
  {
    if OfWindows(e) {
      WindowStepInv(w, e);
    } else if OfAsks(e) {
      AskStepInv(w, e);
    } else {
      ClaimStepInv(w, e);
    }
  }

  /** The state after a run. */
  function Run(w: World, es: seq<Event>): (v: World)
    requires w.s.WellFormed()
    ensures v.s.WellFormed()
    decreases |es|
  {
    if es == [] then w else Run(Step(w, es[0]), es[1..])
  }

  /** The state a run from the start reaches. */
  function Reached(es: seq<Event>): (w: World)
    ensures w.s.WellFormed()
  {
    Run(Start, es)
  }

  lemma {:induction false} RunSplit(w: World, es: seq<Event>, more: seq<Event>)
    requires w.s.WellFormed()
    ensures Run(w, es + more) == Run(Run(w, es), more)
    decreases |es|
  {
    if es == [] {
      assert es + more == more;
    } else {
      assert (es + more)[0] == es[0] && (es + more)[1..] == es[1..] + more;
      RunSplit(Step(w, es[0]), es[1..], more);
    }
  }

  lemma {:induction false} RunInv(w: World, es: seq<Event>)
    requires Inv(w)
    ensures Inv(Run(w, es))
    decreases |es|
  {
    if es != [] {
      InvStep(w, es[0]);
      RunInv(Step(w, es[0]), es[1..]);
    }
  }

  lemma ReachedInv(es: seq<Event>)
    ensures Inv(Reached(es))
  {
    RunInv(Start, es);
  }

  // ---------- What holds over every run ----------

  /** At most one goroutine holds the session, and the fields are clear exactly when none does. */
  lemma SingleOwner(es: seq<Event>)
    ensures var w := Reached(es);
            && (forall h, h' :: Holds(w, h) && Holds(w, h') ==> h == h')
            && ((w.s.cancel.None? && w.s.woken.None? && !w.s.mcpRestart) <==> forall h :: !Holds(w, h))
            // A woken turn a prompt may be told to wait for has not announced its end yet.
            && (w.s.woken.Some? ==> Holds(w, ByWoken(w.s.woken.value)))
  {
    ReachedInv(es);
    var w := Reached(es);
    OneHolder(w);
    hide Inv, OwnerInv, Reached, Holds;
  }

  lemma OneHolder(w: World)
    requires Inv(w)
    ensures forall h, h' :: Holds(w, h) && Holds(w, h') ==> h == h'
    ensures (w.s.cancel.None? && w.s.woken.None? && !w.s.mcpRestart) <==> forall h :: !Holds(w, h)
    ensures w.s.woken.Some? ==> Holds(w, ByWoken(w.s.woken.value))
  {
    assert OwnerInv(w);
    hide Inv;
    forall h, h' | Holds(w, h) && Holds(w, h') ensures h == h' {
      match h
      case ByPrompt(p) =>
      case ByWoken(k) =>
      case ByRestart(r) =>
    }
  }

  /** The event by which `h` lets the session go, or begins to. */
  ghost predicate LetsGo(h: Holder, e: Event) {
    match h
    case ByPrompt(p) => e == PromptEnds(p)
    case ByWoken(k) => e == WokenEndsTurn(k) || e == WokenClears(k)
    case ByRestart(r) => e == RestartReleases(r)
  }

  lemma PromptKeepsHolding(w: World, e: Event, p: nat)
    requires w.s.WellFormed() && OwnerInv(w) && Holds(w, ByPrompt(p)) && e != PromptEnds(p)
    ensures Holds(ClaimStep(w, e), ByPrompt(p)) && SameClaims(w.s, ClaimStep(w, e).s)
  {
    hide BeginTurn;
    if e.PromptClaims? || e.PromptEnds? {
      hide WokenStep, RestartStep;
    } else if e.RestartClaims? || e.RestartReleases? {
      hide PromptStep, WokenStep;
    } else {
      hide PromptStep, RestartStep;
    }
  }

  lemma WokenKeepsHolding(w: World, e: Event, k: nat)
    requires w.s.WellFormed() && OwnerInv(w) && Holds(w, ByWoken(k)) && e != WokenEndsTurn(k) && e != WokenClears(k)
    ensures Holds(ClaimStep(w, e), ByWoken(k)) && SameClaims(w.s, ClaimStep(w, e).s)
  {
    hide BeginTurn;
    if e.PromptClaims? || e.PromptEnds? {
      hide WokenStep, RestartStep;
    } else if e.RestartClaims? || e.RestartReleases? {
      hide PromptStep, WokenStep;
    } else {
      hide PromptStep, RestartStep;
    }
  }

  lemma RestartKeepsHolding(w: World, e: Event, r: nat)
    requires w.s.WellFormed() && OwnerInv(w) && Holds(w, ByRestart(r)) && e != RestartReleases(r)
    ensures Holds(ClaimStep(w, e), ByRestart(r)) && SameClaims(w.s, ClaimStep(w, e).s)
  {
    hide BeginTurn;
    if e.PromptClaims? || e.PromptEnds? {
      hide WokenStep, RestartStep;
    } else if e.RestartClaims? || e.RestartReleases? {
      hide PromptStep, WokenStep;
    } else {
      hide PromptStep, RestartStep;
    }
  }

  /** Only its own end takes a claim away: every other event leaves the holder holding. */
  lemma OnlyOwnEndReleases(es: seq<Event>, h: Holder, e: Event)
    requires Holds(Reached(es), h) && !LetsGo(h, e)
    ensures Holds(Step(Reached(es), e), h)
    ensures SameClaims(Reached(es).s, Step(Reached(es), e).s)
  {
    ReachedInv(es);
    hide Reached, AskStep, WindowStep, ClaimStep, Inv;
    var w := Reached(es);
    HolderKeeps(w, h, e);
  }

  lemma HolderKeeps(w: World, h: Holder, e: Event)
    requires Inv(w) && Holds(w, h) && !LetsGo(h, e)
    ensures var v := ClaimStep(w, e); Holds(v, h) && SameClaims(w.s, v.s)
  {
    match h
    case ByPrompt(p) => PromptKeepsHolding(w, e, p);
    case ByWoken(k) => WokenKeepsHolding(w, e, k);
    case ByRestart(r) => RestartKeepsHolding(w, e, r);
    hide Inv, ClaimStep;
  }

  lemma EndedStep(w: World, e: Event, id: nat)
    requires w.s.WellFormed()
    ensures id in w.prompts && w.prompts[id] == Ended ==> id in Step(w, e).prompts && Step(w, e).prompts[id] == Ended
    ensures id in w.restarts && w.restarts[id] == Released ==> id in Step(w, e).restarts && Step(w, e).restarts[id] == Released
  {
    if !OfWindows(e) && !OfAsks(e) {
      EndedClaim(w, e, id);
      hide ClaimStep;
    } else {
      hide AskStep, WindowStep, OfAsks, OfWindows;
    }
  }

  lemma EndedClaim(w: World, e: Event, id: nat)
    requires w.s.WellFormed()
    ensures var v := ClaimStep(w, e);
            && (id in w.prompts && w.prompts[id] == Ended ==> id in v.prompts && v.prompts[id] == Ended)
            && (id in w.restarts && w.restarts[id] == Released ==> id in v.restarts && v.restarts[id] == Released)
  {
    hide PromptStep, WokenStep, RestartStep;
    if (e.PromptClaims? || e.PromptEnds?) && id in w.prompts && w.prompts[id] == Ended {
      PromptEndedStep(w, e, id);
    }
    if (e.RestartClaims? || e.RestartReleases?) && id in w.restarts && w.restarts[id] == Released {
      RestartEndedStep(w, e, id);
    }
  }

  lemma PromptEndedStep(w: World, e: Event, id: nat)
    requires w.s.WellFormed() && id in w.prompts && w.prompts[id] == Ended
    ensures id in PromptStep(w, e).prompts && PromptStep(w, e).prompts[id] == Ended
  {
    hide ClaimTurn;
  }

  lemma RestartEndedStep(w: World, e: Event, id: nat)
    requires w.s.WellFormed() && id in w.restarts && w.restarts[id] == Released
    ensures id in RestartStep(w, e).restarts && RestartStep(w, e).restarts[id] == Released
  {
    hide ClaimRestart;
  }

  /** A prompt or restart that has ended stays ended. */
  lemma {:induction false} EndedStays(w: World, es: seq<Event>, id: nat)
    requires w.s.WellFormed()
    ensures id in w.prompts && w.prompts[id] == Ended ==>
              id in Run(w, es).prompts && Run(w, es).prompts[id] == Ended
    ensures id in w.restarts && w.restarts[id] == Released ==>
              id in Run(w, es).restarts && Run(w, es).restarts[id] == Released
    decreases |es|
  {
    hide Step;
    if es != [] {
      EndedStep(w, es[0], id);
      EndedStays(Step(w, es[0]), es[1..], id);
    }
  }

  lemma EndActs(w: World, h: Holder, e: Event)
    requires w.s.WellFormed() && Holds(w, h) && LetsGo(h, e) && !h.ByWoken?
    ensures var v := Step(w, e); Over(v, h) && e.id == h.id
  {
  }

  /** The goroutine's one end has acted. */
  ghost predicate Over(w: World, h: Holder) {
    match h
    case ByPrompt(p) => p in w.prompts && w.prompts[p] == Ended
    case ByRestart(r) => r in w.restarts && w.restarts[r] == Released
    case ByWoken(k) => false
  }

  lemma OverIsQuiet(w: World, h: Holder, e: Event)
    requires w.s.WellFormed() && Over(w, h) && LetsGo(h, e)
    ensures Step(w, e) == w
  {
  }

  /** An end or release called again, whatever happened in between, changes nothing. */
  lemma EndingTwice(es: seq<Event>, h: Holder, e: Event, between: seq<Event>)
    requires Holds(Reached(es), h) && LetsGo(h, e) && !h.ByWoken?
    ensures var w := Reached(es + [e] + between); Step(w, e) == w
  {
    hide Step;
    RunSplit(Start, es + [e], between);
    RunSplit(Start, es, [e]);
    var w := Reached(es);
    assert [e][1..] == [] && Run(w, [e]) == Step(w, e);
    EndActs(w, h, e);
    EndedStays(Step(w, e), between, e.id);
    OverIsQuiet(Reached(es + [e] + between), h, e);
  }

  /**
   No wakeup is lost: an ask parked on a channel not yet closed is parked on the
   session's current one, and may not go out now.
   */
  lemma NoLostWakeup(es: seq<Event>, a: nat)
    requires a in Reached(es).asks && Reached(es).asks[a].stage.Parked?
    ensures var w := Reached(es); var ask := w.asks[a];
            ask.stage.channel in w.s.closedWakes || (w.s.wake == Some(ask.stage.channel) && !Askable(w.s, ask.task).0)
    ensures Askable(Reached(es).s, Reached(es).asks[a].task).0 ==>
              Reached(es).asks[a].stage.channel in Reached(es).s.closedWakes
  {
    ReachedInv(es);
    assert Waits(Reached(es).s, Reached(es).asks[a]);
  }

  /** A held ask that may go out does, two steps of its own later. */
  lemma AskableAskLeaves(es: seq<Event>, a: nat)
    requires var w := Reached(es);
             a in w.asks && w.asks[a].stage.Parked? && Askable(w.s, w.asks[a].task).0
    ensures var w := Reached(es); var woke := Step(w, AskWakes(a));
            && woke.s == w.s
            && a in Step(woke, AskLooks(a)).asks
            && Step(woke, AskLooks(a)).asks[a].stage == LeavingHeld(if w.s.cancel.Some? then None else w.s.window)
  {
    hide Inv, Run, Askable;
    NoLostWakeup(es, a);
    AskLeaves(Reached(es), a);
  }

  lemma AskLeaves(w: World, a: nat)
    requires w.s.WellFormed() && a in w.asks && w.asks[a].stage.Parked? && Askable(w.s, w.asks[a].task).0
    requires w.asks[a].stage.channel in w.s.closedWakes
    ensures var woke := Step(w, AskWakes(a));
            && woke.s == w.s
            && a in Step(woke, AskLooks(a)).asks
            && Step(woke, AskLooks(a)).asks[a].stage == LeavingHeld(if w.s.cancel.Some? then None else w.s.window)
  {
  }

  lemma ReviewOpens(s: Session, task: Task, asked: Task)
    requires s.WellFormed() && s.cancel.None? && asked != "" && (task == "" || task == asked)
    ensures Askable(Review(s, task), asked) == (true, true)
  {
  }

  /**
   A review with no turn open makes every ask of the reviewed task askable through the
   current window, and wakes each one parked: it leaves through that window, two steps
   of its own later.
   */
  lemma {:induction false} ReviewReleases(es: seq<Event>, task: Task, asked: Task)
    requires Reached(es).s.cancel.None? && asked != "" && (task == "" || task == asked)
    ensures var v := Step(Reached(es), PersonReviews(task));
            && Askable(v.s, asked) == (true, true)
            && forall a :: a in v.asks && v.asks[a].task == asked && v.asks[a].stage.Parked? ==>
                 var out := Step(Step(v, AskWakes(a)), AskLooks(a));
                 a in out.asks && out.asks[a].stage == LeavingHeld(v.s.window) && v.s.window.Some?
  {
    ReachedInv(es);
    hide Inv, Review, Reached, Step, Askable;
    var w := Reached(es);
    var v := Step(w, PersonReviews(task));
    ReviewLetsOut(w, task, asked);
    InvStep(w, PersonReviews(task));
    forall a | a in v.asks && v.asks[a].task == asked && v.asks[a].stage.Parked?
      ensures var out := Step(Step(v, AskWakes(a)), AskLooks(a));
              a in out.asks && out.asks[a].stage == LeavingHeld(v.s.window)
    {
      ParkedIsWoken(v, a);
      AskLeaves(v, a);
    }
  }

  lemma ReviewLetsOut(w: World, task: Task, asked: Task)
    requires w.s.WellFormed() && w.s.cancel.None? && asked != "" && (task == "" || task == asked)
    ensures var v := Step(w, PersonReviews(task));
            v.s.WellFormed() && Askable(v.s, asked) == (true, true) && v.s.cancel.None? && v.s.window.Some?
  {
    ReviewOpens(w.s, task, asked);
    ReviewEndsNoTurn(w, task);
    hide Review, Askable;
  }

  lemma ReviewEndsNoTurn(w: World, task: Task)
    requires w.s.WellFormed() && w.s.cancel.None?
    ensures var v := Step(w, PersonReviews(task)); v.s.cancel.None? && v.s.window.Some?
  {
  }

  /** A parked ask that may go out has been woken. */
  lemma ParkedIsWoken(w: World, a: nat)
    requires Inv(w) && a in w.asks && w.asks[a].stage.Parked? && Askable(w.s, w.asks[a].task).0
    ensures w.asks[a].stage.channel in w.s.closedWakes
  {
    assert Waits(w.s, w.asks[a]);
    hide WindowsOk, OwnerInv, WaitingOk, Askable;
  }

  /** The review windows are accounted for. */
  lemma WindowAccounting(es: seq<Event>)
    ensures var w := Reached(es);
            && (forall i: nat :: i < |w.s.windows| ==> w.s.windows[i].outstanding == |Outstanding(w.asks, i)|)
            // Only the current window can be open, and then no turn is.
            && (forall i: nat :: i < |w.s.windows| && w.s.windows[i].open ==> w.s.window == Some(i) && w.s.cancel.None?)
            && (w.s.window.Some? ==>
                  w.s.window.value < |w.s.windows|
                  && var win := w.s.windows[w.s.window.value];
                  && !win.cancelled
                  && (!win.open ==> win.outstanding > 0)
                  // A window with nothing out will close: its timer is set and has not run.
                  && (win.open && win.outstanding == 0 ==>
                        win.timer.Some? && win.timer.value !in w.ran
                        && Step(w, TimerFires(win.timer.value)).s.window.None?))
  {
    ReachedInv(es);
    hide Reached, OwnerInv, WaitingOk, WakesOk, Outstanding, CloseWindow;
    var w := Reached(es);
    if w.s.window.Some? && w.s.windows[w.s.window.value].open && w.s.windows[w.s.window.value].outstanding == 0 {
      LingerCloses(w, w.s.window.value);
    }
    hide Step;
  }

  /** The linger of a window with nothing out closes it. */
  lemma LingerCloses(w: World, i: nat)
    requires Inv(w) && w.s.window == Some(i) && w.s.windows[i].open && w.s.windows[i].outstanding == 0
    ensures w.s.windows[i].timer.Some? && Step(w, TimerFires(w.s.windows[i].timer.value)).s.window.None?
  {
    hide OwnerInv, WaitingOk, WakesOk, Outstanding;
    CloseLeavesNone(w.s);
    hide CloseWindow;
  }

  lemma CloseLeavesNone(s: Session)
    requires s.WellFormed()
    ensures CloseWindow(s).window.None?
  {
  }

  lemma WaitingCounts(es: seq<Event>, task: Task)
    ensures Reached(es).s.Waiting(task) == |Waiters(Reached(es).asks, task)|
  {
    ReachedInv(es);
  }

  /** A window that takes no new asks never takes one again. */
  ghost predicate Dwindles(s: Session, s': Session, i: nat) {
    i < |s.windows| && !s.windows[i].open ==>
      i < |s'.windows| && !s'.windows[i].open && s'.windows[i].outstanding <= s.windows[i].outstanding
      && (s.windows[i].cancelled ==> s'.windows[i].cancelled)
  }

  lemma DwindlesClose(s: Session, i: nat)
    requires s.WellFormed()
    ensures Dwindles(s, CloseWindow(s), i)
  {
  }

  lemma DwindlesBegin(s: Session, id: nat, i: nat)
    requires s.WellFormed()
    ensures Dwindles(s, BeginTurn(s, id), i)
  {
  }

  lemma DwindlesReview(s: Session, task: Task, i: nat)
    requires s.WellFormed()
    ensures Dwindles(s, Review(s, task), i)
  {
  }

  lemma DwindlesTake(s: Session, task: Task, i: nat)
    requires s.WellFormed()
    ensures Dwindles(s, Arrive(s, task).0, i) && Dwindles(s, Look(s, task).0, i)
  {
  }

  lemma DwindlesAnswered(s: Session, j: nat, i: nat)
    requires s.WellFormed() && j < |s.windows|
    ensures Dwindles(s, WindowAnswered(s, j), i)
  {
  }

  lemma DwindlesWindowStep(w: World, e: Event, i: nat)
    requires w.s.WellFormed()
    ensures Dwindles(w.s, WindowStep(w, e).s, i)
  {
    DwindlesClose(w.s, i);
    DwindlesClose(w.s.(closed := true), i);
    if e.PersonReviews? {
      DwindlesReview(w.s, e.task, i);
    }
    hide Review, CloseWindow;
  }

  lemma DwindlesAskStep(w: World, e: Event, i: nat)
    requires w.s.WellFormed()
    ensures Dwindles(w.s, AskStep(w, e).s, i)
  {
    hide Arrive, Look, WindowAnswered, Dwindles, PlainStep;
    DwindlesSame(w.s, w.s, i);
    match e
    case AskArrives(_, task) => DwindlesTake(w.s, task, i);
    case AskLooks(a) =>
      if a in w.asks {
        DwindlesTake(w.s, w.asks[a].task, i);
      }
    case AskReturns(a) => DwindlesReturn(w, a, i);
    case _ =>
      PlainWindows(w, e);
      DwindlesSame(w.s, AskStep(w, e).s, i);
  }

  lemma DwindlesReturn(w: World, a: nat, i: nat)
    requires w.s.WellFormed()
    ensures Dwindles(w.s, ReturnStep(w, a).s, i)
  {
    hide WindowAnswered, Dwindles;
    DwindlesSame(w.s, w.s, i);
    if a in w.asks && w.asks[a].stage.Asking? {
      var via := w.asks[a].stage.via;
      if via.Some? && via.value < |w.s.windows| {
        DwindlesAnswered(w.s, via.value, i);
      }
    }
  }

  lemma DwindlesSame(s: Session, s': Session, i: nat)
    requires s'.windows == s.windows
    ensures Dwindles(s, s', i)
  {
  }

  lemma PlainWindows(w: World, e: Event)
    requires w.s.WellFormed() && !e.AskArrives? && !e.AskLooks? && !e.AskReturns?
    ensures AskStep(w, e).s.windows == w.s.windows && AskStep(w, e).s.window == w.s.window
  {
    hide PlainNext;
  }

  lemma DwindlesClaimStep(w: World, e: Event, i: nat)
    requires w.s.WellFormed()
    ensures Dwindles(w.s, ClaimStep(w, e).s, i)
  {
    ClaimShape(w, e);
    hide ClaimStep, Begins, BeginTurn;
    if Begins(w, e) {
      DwindlesBegin(Beginning(w.s, e), e.id, i);
    }
  }

  lemma DwindlesStep(w: World, e: Event, i: nat)
    requires w.s.WellFormed()
    ensures Dwindles(w.s, Step(w, e).s, i)
  {
    DwindlesWindowStep(w, e, i);
    DwindlesAskStep(w, e, i);
    DwindlesClaimStep(w, e, i);
    hide WindowStep, AskStep, ClaimStep, Dwindles;
  }

  lemma ShutWindowNeverGrows(es: seq<Event>, more: seq<Event>, i: nat)
    ensures Dwindles(Reached(es).s, Reached(es + more).s, i)
  {
    hide Dwindles, Step;
    RunSplit(Start, es, more);
    DwindlesRun(Reached(es), more, i);
  }

  lemma {:induction false} DwindlesRun(w: World, es: seq<Event>, i: nat)
    requires w.s.WellFormed()
    ensures Dwindles(w.s, Run(w, es).s, i)
    decreases |es|
  {
    hide Step;
    if es != [] {
      DwindlesStep(w, es[0], i);
      DwindlesRun(Step(w, es[0]), es[1..], i);
    }
  }
}
