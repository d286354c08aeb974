/**
 One ACP session as the engine keeps it: its fields are updated in place, each
 method being one critical section. Every method's new state is the one the
 function of the same name in SessionSteps gives, so what SessionRuns proves of
 those functions over every interleaving holds of these methods.
 */
module AcpSessions {
  import opened Basics
  import S = SessionSteps

  /** What a person's review opens: a window through which asks that were held leave. */
  class ReviewWindow {
    var all: bool
    var tasks: set<S.Task>
    var open: bool
    var outstanding: int
    var cancelled: bool          // its context has been cancelled
    var timer: Option<nat>

    ghost function View(): S.Window
      reads this
    {
      S.Window(all, tasks, open, outstanding, cancelled, timer)
    }

    constructor ()
      ensures View() == S.FreshWindow
    {
      all, tasks, open, outstanding, cancelled, timer := false, {}, true, 0, false, None;
    }

    method StopLinger()
      modifies this
      ensures View() == old(View()).(timer := None)
    {
      if timer.Some? {
        timer := None;
      }
    }

    predicate Covers(task: S.Task)
      reads this
    {
      all || task in tasks
    }
  }

  class AcpSession {
    var cancel: Option<nat>
    var turn: Option<nat>
    var woken: Option<nat>
    var mcpRestart: bool
    var closed: bool
    var wake: Option<nat>
    var wakesMade: nat
    var window: ReviewWindow?
    var waiting: map<S.Task, int>
    var timersMade: nat
    ghost var closedWakes: set<nat>
    ghost var windows: seq<ReviewWindow>   // every window made, in order
    ghost var current: nat                 // the place of `window` in them
    ghost var timers: seq<nat>             // every linger timer made: its window's place

    ghost predicate Valid()
      reads this
    {
      && (forall i, j :: 0 <= i < j < |windows| ==> windows[i] != windows[j])
      && (window != null ==> current < |windows| && windows[current] == window)
      && (forall t :: 0 <= t < |timers| ==> timers[t] < |windows|)
      && timersMade == |timers|
    }

    ghost function View(): (s: S.Session)
      requires Valid()
      reads this, windows
      ensures s.WellFormed()
    {
      S.Session(cancel, turn, woken, mcpRestart, closed, wake, wakesMade, closedWakes,
                if window == null then None else Some(current),
                seq(|windows|, i requires 0 <= i < |windows| reads this, windows => windows[i].View()),
                timers, waiting)
    }

    constructor ()
      ensures Valid() && View() == S.NewSession && windows == []
    {
      cancel, turn, woken, mcpRestart, closed := None, None, None, false, false;
      wake, wakesMade, window, waiting := None, 0, null, map[];
      timersMade, closedWakes, windows, current, timers := 0, {}, [], 0, [];
    }

    method PokeLocked()
      requires Valid()
      modifies this`wake, this`closedWakes
      ensures Valid() && View() == S.Poke(old(View()))
    {
      if wake.Some? {
        closedWakes := closedWakes + {wake.value};
        wake := None;
      }
    }

    method CloseWindowLocked()
      requires Valid()
      modifies this`wake, this`closedWakes, this`window, windows
      ensures Valid() && View() == S.CloseWindow(old(View()))
    {
      var w := window;
      if w == null {
        return;
      }
      ghost var s := View();
      w.StopLinger();
      w.open := false;
      w.cancelled := true;
      window := null;
      assert View().windows == s.windows[current := s.windows[current].(timer := None, open := false, cancelled := true)];
      PokeLocked();
    }

    method BeginTurnLocked(id: nat)
      requires Valid()
      modifies this, windows
      ensures Valid() && windows == old(windows) && View() == S.BeginTurn(old(View()), id)
    {
      hide S.CloseWindow, S.Poke;
      ghost var s := View();
      cancel, turn := Some(id), Some(id);
      assert View() == s.(cancel := Some(id), turn := Some(id)) by {
        assert View().windows == s.windows;
      }
      ShutWindow();
      PokeLocked();
    }

    /** Lets no more asks out through the window, and lets it go when none is out. */
    method ShutWindow()
      requires Valid()
      modifies this`wake, this`closedWakes, this`window, windows
      ensures Valid() && View() == S.ShutWindow(old(View()))
    {
      hide S.CloseWindow;
      ghost var s := View();
      var w := window;
      if w != null {
        w.open := false;
        assert View().windows == s.windows[current := s.windows[current].(open := false)];
        if w.outstanding == 0 {
          CloseWindowLocked();
        }
      }
    }

    /** Takes the session for a prompt, unless something else has it. */
    method ClaimTurn(id: nat) returns (claim: S.Claim)
      requires Valid()
      modifies this, windows
      ensures Valid() && windows == old(windows) && (View(), claim) == S.ClaimTurn(old(View()), id)
    {
      if woken.Some? {
        return S.WaitFor(woken.value);
      }
      if cancel.Some? || mcpRestart {
        return S.Busy;
      }
      BeginTurnLocked(id);
      claim := S.Claimed;
    }

    method EndTurn()
      requires Valid()
      modifies this`cancel, this`turn
      ensures Valid() && View() == S.EndTurn(old(View()))
    {
      cancel, turn := None, None;
    }

    /** The part of opening a turn the session starts itself that holds the lock. */
    method OpenWoken(id: nat, readOnly: bool) returns (started: bool)
      requires Valid()
      modifies this, windows
      ensures Valid() && windows == old(windows) && (View(), started) == S.OpenWoken(old(View()), id, readOnly)
    {
      if closed || readOnly || cancel.Some? || woken.Some? || mcpRestart {
        return false;
      }
      woken := Some(id);
      assert View().windows == old(View()).windows;
      hide S.BeginTurn;
      BeginTurnLocked(id);
      started := true;
    }

    method ClearWoken()
      requires Valid()
      modifies this`woken
      ensures Valid() && View() == S.ClearWoken(old(View()))
    {
      woken := None;
    }

    method ClaimRestart() returns (claimed: bool)
      requires Valid()
      modifies this`mcpRestart
      ensures Valid() && (View(), claimed) == S.ClaimRestart(old(View()))
    {
      if cancel.Some? || woken.Some? || mcpRestart {
        return false;
      }
      mcpRestart := true;
      claimed := true;
      assert View().windows == old(View()).windows;
    }

    method ReleaseRestart()
      requires Valid()
      modifies this`mcpRestart
      ensures Valid() && View() == S.ReleaseRestart(old(View()))
    {
      mcpRestart := false;
    }

    method AskableLocked(task: S.Task) returns (ok: bool, held: bool)
      requires Valid()
      ensures (ok, held) == S.Askable(View(), task)
    {
      if cancel.Some? {
        return true, false;
      }
      if window != null && window.open && task != "" && window.Covers(task) {
        return true, true;
      }
      ok, held := false, false;
    }

    /** Lets an ask out if it may go, counting it at the window that does. */
    method Take(task: S.Task) returns (ok: bool, through: ReviewWindow?)
      requires Valid()
      modifies windows
      ensures Valid() && View() == S.Take(old(View()), task).0
      ensures ok == !S.Take(old(View()), task).1.Held?
      ensures through == if S.Take(old(View()), task).1.Through? then window else null
    {
      var held;
      ok, held := AskableLocked(task);
      through := null;
      if ok && held {
        window.outstanding := window.outstanding + 1;
        window.StopLinger();
        through := window;
      }
    }

    /** The first look of an ask. */
    method Arrive(task: S.Task) returns (ok: bool, through: ReviewWindow?)
      requires Valid()
      modifies this`waiting, windows
      ensures Valid() && View() == S.Arrive(old(View()), task).0
      ensures ok == !S.Arrive(old(View()), task).1.Held?
      ensures through == if S.Arrive(old(View()), task).1.Through? then window else null
    {
      hide S.Take;
      ok, through := Take(task);
      if !ok {
        waiting := waiting[task := (if task in waiting then waiting[task] else 0) + 1];
      }
    }

    method WakeLocked() returns (channel: nat)
      requires Valid()
      modifies this`wake, this`wakesMade
      ensures Valid() && (View(), channel) == S.WakeChannel(old(View()))
    {
      if wake.None? {
        wake, wakesMade := Some(wakesMade), wakesMade + 1;
        assert View().windows == old(View()).windows;
      }
      channel := wake.value;
    }

    /** A later look of an ask, which parks on `channel` when it may not go. */
    method Look(task: S.Task) returns (ok: bool, through: ReviewWindow?, channel: nat)
      requires Valid()
      modifies this`wake, this`wakesMade, windows
      ensures Valid() && View() == S.Look(old(View()), task).0
      ensures ok == !S.Look(old(View()), task).1.Held? && channel == S.Look(old(View()), task).2
      ensures through == if S.Look(old(View()), task).1.Through? then window else null
    {
      channel := 0;
      ok, through := Take(task);
      if !ok {
        channel := WakeLocked();
      }
    }

    method Settle(task: S.Task)
      requires Valid()
      modifies this`waiting
      ensures Valid() && View() == S.Settle(old(View()), task)
    {
      waiting := waiting[task := (if task in waiting then waiting[task] else 0) - 1];
    }

    /** Sets the timer of a window that no ask is out through, or closes it when it is shut. */
    method LingerLocked(w: ReviewWindow, ghost i: nat)
      requires Valid() && i < |windows| && windows[i] == w
      modifies this, windows
      ensures Valid() && windows == old(windows) && View() == S.Linger(old(View()), i)
    {
      hide S.CloseWindow;
      ghost var s := View();
      w.StopLinger();
      assert View().windows == s.windows[i := s.windows[i].(timer := None)];
      if !w.open {
        CloseWindowLocked();
        return;
      }
      ghost var stopped := View();
      w.timer := Some(timersMade);
      timersMade, timers := timersMade + 1, timers + [i];
      assert View().windows == stopped.windows[i := stopped.windows[i].(timer := Some(|s.timers|))];
    }

    /** The linger timer's callback. */
    method LingerFired(w: ReviewWindow, ghost i: nat)
      requires Valid() && i < |windows| && windows[i] == w
      modifies this, windows
      ensures Valid() && windows == old(windows) && View() == S.LingerFired(old(View()), i)
    {
      if window == w && w.outstanding == 0 {
        CloseWindowLocked();
      }
    }

    method WindowAnswered(w: ReviewWindow, ghost i: nat)
      requires Valid() && i < |windows| && windows[i] == w
      modifies this, windows
      ensures Valid() && windows == old(windows) && View() == S.WindowAnswered(old(View()), i)
    {
      ghost var s := View();
      w.outstanding := w.outstanding - 1;
      assert View().windows == s.windows[i := s.windows[i].(outstanding := s.windows[i].outstanding - 1)];
      hide S.Linger;
      if window == w && w.outstanding == 0 {
        LingerLocked(w, i);
      }
    }

    /** Opens the review window, or widens the open one, for `task`, or for all for "". */
    method ReviewTasks(task: S.Task)
      requires Valid()
      modifies this, windows
      ensures Valid() && View() == S.Review(old(View()), task)
      ensures old(windows) <= windows && fresh(windows[|old(windows)|..])
    {
      if cancel.Some? {
        return;
      }
      OpenWindow();
      Widen(task);
      hide S.OpenWindow, S.Widen, S.Linger, S.Poke;
      if window.outstanding == 0 {
        LingerLocked(window, current);
      }
      PokeLocked();
    }

    /** Lets `task`'s asks, or every task's for "", out through the current window. */
    method Widen(task: S.Task)
      requires Valid() && window != null
      modifies window`all, window`tasks
      ensures Valid()
      ensures View() == var s := old(View()); s.(windows := s.windows[current := S.Widen(s.windows[current], task)])
    {
      ghost var s := View();
      if task == "" {
        window.all := true;
      } else {
        window.tasks := window.tasks + {task};
      }
      assert View().windows == s.windows[current := S.Widen(s.windows[current], task)];
    }

    /** Makes the session's window an open one. */
    method OpenWindow()
      requires Valid()
      modifies this`window, this`windows, this`current
      ensures Valid() && window != null && View() == S.OpenWindow(old(View()))
      ensures window in old(windows) || fresh(window)
      ensures old(windows) <= windows && fresh(windows[|old(windows)|..])
    {
      if window == null || !window.open {
        AddWindow();
      }
    }

    method AddWindow()
      requires Valid()
      modifies this`window, this`windows, this`current
      ensures Valid() && window != null && fresh(window) && windows == old(windows) + [window]
      ensures View() == var s := old(View()); s.(windows := s.windows + [S.FreshWindow], window := Some(|s.windows|))
    {
      ghost var s := View();
      window := new ReviewWindow();
      windows, current := windows + [window], |windows|;
      assert View().windows == s.windows + [S.FreshWindow];
    }

    method Shut()
      requires Valid()
      modifies this, windows
      ensures Valid() && windows == old(windows) && View() == S.Shut(old(View()))
    {
      hide S.CloseWindow;
      ghost var s := View();
      closed := true;
      assert View().windows == s.windows;
      CloseWindowLocked();
    }
  }
}
