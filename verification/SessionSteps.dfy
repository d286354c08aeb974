/**
 The critical sections of one ACP session, as functions on the fields its lock
 guards. A channel, a context or a window is named by a number: a cancel
 function by the turn it ends, a wake channel by the order of its making, a
 review window by its place in `windows`, a linger timer by its place in `timers`.
 */
module SessionSteps {
  import opened Basics

  type Task = string

  /** A review window: the way out for held asks while there is no turn. */
  datatype Window = Window(
    all: bool, tasks: set<Task>, open: bool, outstanding: int, cancelled: bool, timer: Option<nat>)
  {
    predicate Covers(task: Task) {
      all || task in tasks
    }
  }

  datatype Session = Session(
    cancel: Option<nat>,        // the open turn's cancel function
    turn: Option<nat>,          // the open turn's context
    woken: Option<nat>,         // the turn the session started itself
    mcpRestart: bool,
    closed: bool,
    wake: Option<nat>,          // the channel a held ask waits on now
    wakesMade: nat,
    closedWakes: set<nat>,
    window: Option<nat>,        // the current review window
    windows: seq<Window>,       // every window made
    timers: seq<nat>,           // every linger timer made: the window it is for
    waiting: map<Task, int>)
  {
    predicate WellFormed() {
      && (window.Some? ==> window.value < |windows|)
      && (forall t :: 0 <= t < |timers| ==> timers[t] < |windows|)
    }

    function Waiting(task: Task): int {
      if task in waiting then waiting[task] else 0
    }
  }

  const NewSession := Session(None, None, None, false, false, None, 0, {}, None, [], [], map[])

  /** The claims on the session are the same. */
  predicate SameClaims(s: Session, s': Session) {
    s'.cancel == s.cancel && s'.turn == s.turn && s'.woken == s.woken && s'.mcpRestart == s.mcpRestart
  }

  /** Every ask that waited has been woken. */
  predicate Poked(s: Session, s': Session) {
    && s'.wake.None? && s'.wakesMade == s.wakesMade
    && s'.closedWakes == s.closedWakes + (if s.wake.Some? then {s.wake.value} else {})
  }

  predicate SameWakes(s: Session, s': Session) {
    s'.wake == s.wake && s'.wakesMade == s.wakesMade && s'.closedWakes == s.closedWakes
  }

  predicate SameWindows(s: Session, s': Session) {
    s'.window == s.window && s'.windows == s.windows && s'.timers == s.timers
  }

  /** Closes the wake channel, so that whatever waits on it looks again. */
  function Poke(s: Session): (r: Session)
    ensures Poked(s, r) && SameClaims(s, r) && SameWindows(s, r) && r.waiting == s.waiting
  {
    if s.wake.Some? then s.(wake := None, closedWakes := s.closedWakes + {s.wake.value}) else s
  }

  function CloseWindow(s: Session): (r: Session)
    requires s.WellFormed()
    ensures r.WellFormed() && SameClaims(s, r) && r.waiting == s.waiting
    ensures if s.window.Some? then Poked(s, r) else r == s
  {
    if s.window.None? then s
    else
      var i := s.window.value;
      Poke(s.(window := None,
              windows := s.windows[i := s.windows[i].(timer := None, open := false, cancelled := true)]))
  }

  /** A turn's start shuts the window, and closes it when no ask is out through it. */
  function ShutWindow(s: Session): (r: Session)
    requires s.WellFormed()
    ensures r.WellFormed() && SameClaims(s, r) && r.waiting == s.waiting && (SameWakes(s, r) || Poked(s, r))
  {
    if s.window.None? then s
    else
      var i := s.window.value;
      var stopped := s.(windows := s.windows[i := s.windows[i].(open := false)]);
      if s.windows[i].outstanding == 0 then CloseWindow(stopped) else stopped
  }

  function BeginTurn(s: Session, id: nat): (r: Session)
    requires s.WellFormed()
    ensures r.WellFormed() && Poked(s, r) && r.waiting == s.waiting
    ensures r.cancel == Some(id) && r.turn == Some(id) && r.woken == s.woken && r.mcpRestart == s.mcpRestart
  {
    Poke(ShutWindow(s.(cancel := Some(id), turn := Some(id))))
  }

  function EndTurn(s: Session): Session {
    s.(cancel := None, turn := None)
  }

  /** What a prompt finds when it asks for the session. */
  datatype Claim = Claimed | WaitFor(woken: nat) | Busy

  function ClaimTurn(s: Session, id: nat): (Session, Claim)
    requires s.WellFormed()
  {
    if s.woken.Some? then (s, WaitFor(s.woken.value))
    else if s.cancel.Some? || s.mcpRestart then (s, Busy)
    else (BeginTurn(s, id), Claimed)
  }

  /** The part of opening a woken turn done under the lock. */
  function OpenWoken(s: Session, id: nat, readOnly: bool): (Session, bool)
    requires s.WellFormed()
  {
    if s.closed || readOnly || s.cancel.Some? || s.woken.Some? || s.mcpRestart then (s, false)
    else (BeginTurn(s.(woken := Some(id)), id), true)
  }

  function ClearWoken(s: Session): Session {
    s.(woken := None)
  }

  function ClaimRestart(s: Session): (Session, bool) {
    if s.cancel.Some? || s.woken.Some? || s.mcpRestart then (s, false) else (s.(mcpRestart := true), true)
  }

  function ReleaseRestart(s: Session): Session {
    s.(mcpRestart := false)
  }

  /** Whether the asks of `task` are let out in this state, and whether by the window. */
  function Askable(s: Session, task: Task): (r: (bool, bool))
    requires s.WellFormed()
    ensures r.1 ==> r.0 && s.window.Some? && s.windows[s.window.value].open && s.cancel.None?
  {
    if s.cancel.Some? then (true, false)
    else if s.window.Some? && s.windows[s.window.value].open && task != "" && s.windows[s.window.value].Covers(task)
    then (true, true)
    else (false, false)
  }

  /** How an ask that asked to go out fared. */
  datatype Pass = Held | InTurn | Through(window: nat)

  function Take(s: Session, task: Task): (r: (Session, Pass))
    requires s.WellFormed()
    ensures r.0.WellFormed() && SameClaims(s, r.0) && SameWakes(s, r.0) && r.0.waiting == s.waiting
  {
    var (ok, held) := Askable(s, task);
    if held then
      var i := s.window.value;
      var w := s.windows[i];
      (s.(windows := s.windows[i := w.(outstanding := w.outstanding + 1, timer := None)]), Through(i))
    else if ok then (s, InTurn)
    else (s, Held)
  }

  function CountWaiting(s: Session, task: Task): Session {
    s.(waiting := s.waiting[task := s.Waiting(task) + 1])
  }

  function Settle(s: Session, task: Task): Session {
    s.(waiting := s.waiting[task := s.Waiting(task) - 1])
  }

  /** The channel a held ask waits on, made when there is none. */
  function WakeChannel(s: Session): (Session, nat) {
    if s.wake.Some? then (s, s.wake.value)
    else (s.(wake := Some(s.wakesMade), wakesMade := s.wakesMade + 1), s.wakesMade)
  }

  /** The first look of an ask: it goes out, or is counted as waiting, at once. */
  function Arrive(s: Session, task: Task): (r: (Session, Pass))
    requires s.WellFormed()
    ensures r.0.WellFormed() && SameClaims(s, r.0) && SameWakes(s, r.0)
    ensures SameWindows(Take(s, task).0, r.0) && r.1 == Take(s, task).1
  {
    var (taken, pass) := Take(s, task);
    if pass == Held then (CountWaiting(taken, task), Held) else (taken, pass)
  }

  /** A later look: it goes out, or parks on the returned channel. */
  function Look(s: Session, task: Task): (r: (Session, Pass, nat))
    requires s.WellFormed()
    ensures r.0.WellFormed() && SameClaims(s, r.0) && r.0.waiting == s.waiting
    ensures SameWindows(Take(s, task).0, r.0) && r.1 == Take(s, task).1
  {
    var (taken, pass) := Take(s, task);
    if pass == Held then
      var (parked, channel) := WakeChannel(taken);
      (parked, Held, channel)
    else (taken, pass, 0)
  }

  /** Arms the close of the current window `i`, or closes it when it takes no new asks. */
  function Linger(s: Session, i: nat): (r: Session)
    requires s.WellFormed() && i < |s.windows|
    ensures r.WellFormed() && SameClaims(s, r) && r.waiting == s.waiting
    ensures SameWakes(s, r) || Poked(s, r)
  {
    var stopped := s.(windows := s.windows[i := s.windows[i].(timer := None)]);
    if !s.windows[i].open then CloseWindow(stopped)
    else stopped.(windows := stopped.windows[i := stopped.windows[i].(timer := Some(|s.timers|))],
                  timers := s.timers + [i])
  }

  function LingerFired(s: Session, i: nat): (r: Session)
    requires s.WellFormed() && i < |s.windows|
    ensures r.WellFormed() && SameClaims(s, r) && r.waiting == s.waiting
    ensures r == s || Poked(s, r)
  {
    if s.window == Some(i) && s.windows[i].outstanding == 0 then CloseWindow(s) else s
  }

  function WindowAnswered(s: Session, i: nat): (r: Session)
    requires s.WellFormed() && i < |s.windows|
    ensures r.WellFormed() && SameClaims(s, r) && r.waiting == s.waiting
    ensures SameWakes(s, r) || Poked(s, r)
  {
    var counted := s.(windows := s.windows[i := s.windows[i].(outstanding := s.windows[i].outstanding - 1)]);
    if s.window == Some(i) && counted.windows[i].outstanding == 0 then Linger(counted, i) else counted
  }

  const FreshWindow := Window(false, {}, true, 0, false, None)

  /** The session with an open current window: the one it has, or a new one. */
  function OpenWindow(s: Session): (r: Session)
    requires s.WellFormed()
    ensures r.WellFormed() && r.window.Some? && r.windows[r.window.value].open
  {
    if s.window.Some? && s.windows[s.window.value].open then s
    else s.(windows := s.windows + [FreshWindow], window := Some(|s.windows|))
  }

  function Widen(w: Window, task: Task): Window {
    if task == "" then w.(all := true) else w.(tasks := w.tasks + {task})
  }

  /** A person reviews one task's held asks, or every task's for "". */
  function Review(s: Session, task: Task): (r: Session)
    requires s.WellFormed()
    ensures r.WellFormed() && SameClaims(s, r) && r.waiting == s.waiting
    ensures if s.cancel.Some? then r == s else Poked(s, r)
  {
    if s.cancel.Some? then s
    else
      var made := OpenWindow(s);
      var i := made.window.value;
      var widened := made.(windows := made.windows[i := Widen(made.windows[i], task)]);
      Poke(if widened.windows[i].outstanding == 0 then Linger(widened, i) else widened)
  }

  /** The session's close: no new woken turn starts and the window ends. */
  function Shut(s: Session): (r: Session)
    requires s.WellFormed()
    ensures r.WellFormed() && SameClaims(s, r) && r.waiting == s.waiting
    ensures r == s.(closed := true) || Poked(s, r)
  {
    CloseWindow(s.(closed := true))
  }
}
