/**
 What an ask is bound to, and when that ends: the window that let it out, which a later
 review may leave behind, or the turn open when it reads it, which may be another.
 */
module SessionBinding {
  import opened Basics
  import opened SessionSteps
  import opened SessionRuns

  // ---------- Windows a review leaves behind ----------

  /** A review that finds the current window `i` shut, with no turn open. */
  ghost predicate Replaces(w: World, e: Event, i: nat)
    requires w.s.WellFormed()
  {
    e.PersonReviews? && w.s.cancel.None? && w.s.window == Some(i) && !w.s.windows[i].open
  }

  /** Window `i` is no longer the session's, and the asks it let out were not ended. */
  predicate LeftBehind(s: Session, i: nat) {
    i < |s.windows| && s.window != Some(i) && !s.windows[i].cancelled
  }

  /** How a section may change window `i`: it stays as it is to the session, or is closed. */
  predicate KeepsOrCloses(s: Session, s': Session, i: nat) {
    && |s'.windows| == |s.windows|
    && (forall j :: 0 <= j < |s.windows| && s.window != Some(j) ==> s'.windows[j].cancelled == s.windows[j].cancelled)
    && (i < |s.windows| && s.window == Some(i) ==>
          if s'.window == Some(i) then s'.windows[i].cancelled == s.windows[i].cancelled
          else s'.window.None? && s'.windows[i].cancelled)
    && (s.window.None? ==> s'.window.None?)
    && (s'.window.Some? ==> s'.window == s.window)
  }

  lemma CloseKeeps(s: Session, i: nat)
    requires s.WellFormed()
    ensures KeepsOrCloses(s, CloseWindow(s), i)
  {
  }

  lemma BeginKeeps(s: Session, id: nat, i: nat)
    requires s.WellFormed()
    ensures KeepsOrCloses(s, BeginTurn(s, id), i)
  {
    if s.window.Some? {
      var j := s.window.value;
      CloseKeeps(s.(cancel := Some(id), turn := Some(id), windows := s.windows[j := s.windows[j].(open := false)]), i);
    }
    hide CloseWindow;
  }

  lemma LingerKeeps(s: Session, j: nat, i: nat)
    requires s.WellFormed() && j < |s.windows|
    ensures KeepsOrCloses(s, Linger(s, j), i)
  {
    CloseKeeps(s.(windows := s.windows[j := s.windows[j].(timer := None)]), i);
    hide CloseWindow;
  }

  lemma AnsweredKeeps(s: Session, j: nat, i: nat)
    requires s.WellFormed() && j < |s.windows|
    ensures KeepsOrCloses(s, WindowAnswered(s, j), i)
  {
    var counted := s.(windows := s.windows[j := s.windows[j].(outstanding := s.windows[j].outstanding - 1)]);
    LingerKeeps(counted, j, i);
    assert WindowAnswered(s, j) == counted || WindowAnswered(s, j) == Linger(counted, j) by {
      hide Linger, KeepsOrCloses;
    }
    hide Linger, WindowAnswered;
  }

  lemma TakeKeeps(s: Session, task: Task, i: nat)
    requires s.WellFormed()
    ensures KeepsOrCloses(s, Take(s, task).0, i)
  {
  }

  lemma KeepsFrame(s: Session, r: Session, s': Session, i: nat)
    requires KeepsOrCloses(s, r, i) && s'.windows == r.windows && s'.window == r.window
    ensures KeepsOrCloses(s, s', i)
  {
  }

  lemma KeepsSame(s: Session, s': Session, i: nat)
    requires s.WellFormed() && s'.windows == s.windows && s'.window == s.window
    ensures KeepsOrCloses(s, s', i)
  {
  }

  lemma ClaimKeeps(w: World, e: Event, i: nat)
    requires w.s.WellFormed()
    ensures KeepsOrCloses(w.s, ClaimStep(w, e).s, i)
  {
    ClaimShape(w, e);
    hide ClaimStep, Begins, BeginTurn, KeepsOrCloses;
    if Begins(w, e) {
      BeginKeeps(Beginning(w.s, e), e.id, i);
      KeepsFrom(w.s, Beginning(w.s, e), ClaimStep(w, e).s, i);
    } else {
      KeepsSame(w.s, ClaimStep(w, e).s, i);
    }
  }

  lemma KeepsFrom(s: Session, t: Session, s': Session, i: nat)
    requires t.windows == s.windows && t.window == s.window && KeepsOrCloses(t, s', i)
    ensures KeepsOrCloses(s, s', i)
  {
  }

  lemma AskKeeps(w: World, e: Event, i: nat)
    requires w.s.WellFormed()
    ensures KeepsOrCloses(w.s, AskStep(w, e).s, i)
  {
    hide KeepsOrCloses, Take, WindowAnswered, Arrive, Look;
    KeepsSame(w.s, w.s, i);
    match e
    case AskArrives(a, task) =>
      TakeKeeps(w.s, task, i);
      KeepsFrame(w.s, Take(w.s, task).0, Arrive(w.s, task).0, i);
    case AskLooks(a) =>
      if a in w.asks {
        var task := w.asks[a].task;
        TakeKeeps(w.s, task, i);
        KeepsFrame(w.s, Take(w.s, task).0, Look(w.s, task).0, i);
      }
    case AskReturns(a) => ReturnKeeps(w, a, i);
    case _ =>
      PlainWindows(w, e);
      hide AskStep;
      KeepsSame(w.s, AskStep(w, e).s, i);
  }

  lemma ReturnKeeps(w: World, a: nat, i: nat)
    requires w.s.WellFormed()
    ensures KeepsOrCloses(w.s, ReturnStep(w, a).s, i)
  {
    hide KeepsOrCloses, WindowAnswered;
    KeepsSame(w.s, w.s, i);
    if a in w.asks && w.asks[a].stage.Asking? {
      var via := w.asks[a].stage.via;
      if via.Some? && via.value < |w.s.windows| {
        AnsweredKeeps(w.s, via.value, i);
      }
    }
  }

  lemma OtherWindowStepKeeps(w: World, e: Event, i: nat)
    requires w.s.WellFormed() && !e.PersonReviews?
    ensures KeepsOrCloses(w.s, WindowStep(w, e).s, i)
  {
    CloseKeeps(w.s, i);
    KeepsSame(w.s, w.s, i);
    var s := w.s.(closed := true);
    CloseKeeps(s, i);
    KeepsFrom(w.s, s, CloseWindow(s), i);
    hide CloseWindow, KeepsOrCloses;
  }

  /** A review opens a window in place of one it finds shut, and otherwise keeps the one open. */
  lemma ReviewReplaces(s: Session, task: Task, i: nat)
    requires s.WellFormed() && i < |s.windows|
    requires s.window == Some(i) ==> !s.windows[i].cancelled
    ensures var r := Review(s, task);
            && |s.windows| <= |r.windows| <= |s.windows| + 1
            && r.windows[i].cancelled == s.windows[i].cancelled
            && (r.window == Some(i) <==> s.window == Some(i) && (s.cancel.Some? || s.windows[i].open))
            && (|r.windows| > |s.windows| ==> r.window == Some(|s.windows|))
  {
    if s.cancel.None? {
      var made := OpenWindow(s);
      var j := made.window.value;
      LingerOpen(made.(windows := made.windows[j := Widen(made.windows[j], task)]), j);
    }
    hide Linger;
  }

  /** An open window's linger is armed; no window is closed for it. */
  lemma LingerOpen(s: Session, j: nat)
    requires s.WellFormed() && j < |s.windows| && s.windows[j].open
    ensures var r := Linger(s, j);
            && r.window == s.window && |r.windows| == |s.windows|
            && forall k :: 0 <= k < |s.windows| ==> r.windows[k].cancelled == s.windows[k].cancelled
  {
    hide CloseWindow;
  }

  lemma FirstReview(s: Session, task: Task)
    requires s.WellFormed()
    ensures var r := Review(s, task);
            && |s.windows| <= |r.windows| <= |s.windows| + 1
            && (|r.windows| > |s.windows| ==> r.window == Some(|s.windows|))
  {
    if s.cancel.None? {
      var made := OpenWindow(s);
      var j := made.window.value;
      LingerOpen(made.(windows := made.windows[j := Widen(made.windows[j], task)]), j);
    }
    hide Linger;
  }

  /** A step leaves a window behind exactly when a review replaces it; one left behind stays so. */
  lemma LeftBehindStep(w: World, e: Event, i: nat)
    requires Inv(w)
    ensures LeftBehind(Step(w, e).s, i) <==> LeftBehind(w.s, i) || Replaces(w, e, i)
  {
    CurrentNotCancelled(w);
    hide Inv;
    if e.PersonReviews? {
      ReviewBehind(w, e.task, i);
    } else {
      OthersKeep(w, e, i);
      hide Step, LeftBehind, KeepsOrCloses;
      KeptBehind(w.s, Step(w, e).s, i);
    }
  }

  lemma OthersKeep(w: World, e: Event, i: nat)
    requires w.s.WellFormed() && !e.PersonReviews?
    ensures KeepsOrCloses(w.s, Step(w, e).s, i)
  {
    hide ClaimStep, AskStep, WindowStep, KeepsOrCloses, OfWindows, OfAsks;
    ClaimKeeps(w, e, i);
    AskKeeps(w, e, i);
    OtherWindowStepKeeps(w, e, i);
  }

  lemma ReviewBehind(w: World, task: Task, i: nat)
    requires w.s.WellFormed() && (w.s.window.Some? ==> !w.s.windows[w.s.window.value].cancelled)
    ensures LeftBehind(Step(w, PersonReviews(task)).s, i) <==> LeftBehind(w.s, i) || Replaces(w, PersonReviews(task), i)
  {
    assert Step(w, PersonReviews(task)).s == Review(w.s, task) by {
      hide Review;
    }
    hide Review, Step;
    FirstReview(w.s, task);
    if i < |w.s.windows| {
      ReviewReplaces(w.s, task, i);
    }
  }

  lemma CurrentNotCancelled(w: World)
    requires Inv(w)
    ensures w.s.window.Some? ==> !w.s.windows[w.s.window.value].cancelled
  {
    hide OwnerInv, WaitingOk, WakesOk, CountsOk;
  }

  lemma KeptBehind(s: Session, s': Session, i: nat)
    requires s.WellFormed() && KeepsOrCloses(s, s', i) && (s.window.Some? ==> !s.windows[s.window.value].cancelled)
    ensures LeftBehind(s', i) <==> LeftBehind(s, i)
  {
  }

  /**
   The session's current window is gone without its asks being ended exactly when a
   review, with no turn open, finds it shut; and then asks are out through it.
   */
  lemma {:induction false} ReviewLeavesBehind(es: seq<Event>, e: Event, i: nat)
    requires Reached(es).s.window == Some(i)
    ensures var w := Reached(es); var v := Step(w, e);
            && i < |w.s.windows| && i < |v.s.windows|
            && (v.s.window != Some(i) && !v.s.windows[i].cancelled
                <==> e.PersonReviews? && w.s.cancel.None? && !w.s.windows[i].open)
            && (!w.s.windows[i].open ==> w.s.windows[i].outstanding > 0)
  {
    var w := Reached(es);
    ReachedInv(es);
    DwindlesOrStays(w, e, i);
    LeftBehindStep(w, e, i);
    hide Step, Run;
  }

  lemma DwindlesOrStays(w: World, e: Event, i: nat)
    requires w.s.WellFormed() && i < |w.s.windows|
    ensures i < |Step(w, e).s.windows|
  {
    if e.PersonReviews? {
      FirstReview(w.s, e.task);
      hide Review;
    } else {
      ClaimKeeps(w, e, i);
      AskKeeps(w, e, i);
      OtherWindowStepKeeps(w, e, i);
    }
    hide ClaimStep, AskStep, WindowStep;
  }

  /**
   Over every run, a window made is neither the session's nor ended exactly when some
   review of the run found it current and shut with no turn open.
   */
  lemma {:induction false} LeftBehindByReview(es: seq<Event>, i: nat)
    ensures LeftBehind(Reached(es).s, i) <==> exists k :: 0 <= k < |es| && Replaces(Reached(es[..k]), es[k], i)
    decreases |es|
  {
    hide Reached, Run, Step, Inv, LeftBehind, Replaces;
    if es == [] {
      NothingBehind(i);
    } else {
      var n := |es| - 1;
      var init := es[..n];
      LeftBehindByReview(init, i);
      ReachedInv(init);
      ReachedOneMore(init, es[n]);
      assert es == init + [es[n]];
      LeftBehindStep(Reached(init), es[n], i);
      forall k | 0 <= k < n ensures Replaces(Reached(es[..k]), es[k], i) == Replaces(Reached(init[..k]), init[k], i) {
        assert init[..k] == es[..k];
      }
      if k :| 0 <= k < |init| && Replaces(Reached(init[..k]), init[k], i) {
        assert Replaces(Reached(es[..k]), es[k], i);
      }
    }
  }

  lemma NothingBehind(i: nat)
    ensures !LeftBehind(Reached([]).s, i)
  {
  }

  lemma ReachedOneMore(es: seq<Event>, e: Event)
    ensures Reached(es + [e]) == Step(Reached(es), e)
  {
    RunSplit(Start, es, [e]);
    assert [e][1..] == [];
    hide Step;
  }

  lemma RunCons(w: World, e: Event, es: seq<Event>)
    requires w.s.WellFormed()
    ensures Run(w, [e] + es) == Run(Step(w, e), es)
  {
    assert ([e] + es)[1..] == es;
    hide Step;
  }

  /** The events by which a window with an ask out is left behind. */
  const LeavingBehind: seq<Event> := [PersonReviews(""), AskArrives(7, "t"), PromptClaims(1), PromptEnds(1), PersonReviews("")]

  /**
   So there is a run after which an ask is out through window 0, which is not ended, while
   window 1 is the session's; and a cancel, which ends the session's window, leaves it so.
   */
  lemma CancelMissesHeldAsk()
    ensures var w := Reached(LeavingBehind); var v := Step(w, PersonCancels);
            && w.s.window == Some(1) && LeftBehind(w.s, 0)
            && v.s.window.None? && LeftBehind(v.s, 0) && v.s.windows[0].outstanding == 1
            && 7 in v.asks && v.asks[7].stage == Unbound(Some(0))
  {
    var w1 := Step(Start, PersonReviews(""));
    var w2 := Step(w1, AskArrives(7, "t"));
    ReviewedThenAsked();
    var w3 := Step(w2, PromptClaims(1));
    var w4 := Step(w3, PromptEnds(1));
    TurnComesAndGoes(w2, 0, 1);
    var w5 := Step(w4, PersonReviews(""));
    ReviewedAgain(w4);
    hide Step;
    LeavingBehindRun(w1, w2, w3, w4, w5);
    hide Reached, Run;
    CancelledAfter(w5);
  }

  lemma ReviewedThenAsked()
    ensures var w := Step(Step(Start, PersonReviews("")), AskArrives(7, "t"));
            && w.s == NewSession.(windows := [Window(true, {}, true, 1, false, None)], window := Some(0), timers := [0])
            && w.prompts == map[] && w.wakes == map[] && w.asks == map[7 := Ask("t", Unbound(Some(0)))]
  {
    FirstReviewed();
    hide Review;
  }

  lemma FirstReviewed()
    ensures Step(Start, PersonReviews(""))
         == Start.(s := NewSession.(windows := [Window(true, {}, true, 0, false, Some(0))], window := Some(0), timers := [0]))
  {
  }

  lemma ReviewedAgain(w: World)
    requires w.s.WellFormed() && w.s.window == Some(0) && w.s.windows == [Window(true, {}, false, 1, false, None)]
    requires w.s.cancel.None?
    ensures var v := Step(w, PersonReviews(""));
            && v.s.window == Some(1) && |v.s.windows| == 2 && v.s.windows[0] == w.s.windows[0] && v.asks == w.asks
  {
  }

  lemma CancelledAfter(w: World)
    requires w.s.WellFormed() && w.s.window == Some(1) && |w.s.windows| == 2
    ensures var v := Step(w, PersonCancels); v.s.window.None? && |v.s.windows| == 2 && v.s.windows[0] == w.s.windows[0] && v.asks == w.asks
  {
  }

  lemma TurnComesAndGoes(w: World, i: nat, p: nat)
    requires w.s.WellFormed() && w.s.window == Some(i) && w.s.windows[i].outstanding > 0
    requires w.s.cancel.None? && w.s.woken.None? && !w.s.mcpRestart && p !in w.prompts && p !in w.wakes
    ensures var v := Step(Step(w, PromptClaims(p)), PromptEnds(p));
            && v.s.window == Some(i) && v.s.windows == w.s.windows[i := w.s.windows[i].(open := false)]
            && v.s.cancel.None? && v.asks == w.asks && v.s.timers == w.s.timers
  {
    hide CloseWindow;
  }

  lemma LeavingBehindRun(w1: World, w2: World, w3: World, w4: World, w5: World)
    requires w1 == Step(Start, PersonReviews("")) && w1.s.WellFormed() && w2 == Step(w1, AskArrives(7, "t")) && w2.s.WellFormed()
    requires w3 == Step(w2, PromptClaims(1)) && w3.s.WellFormed() && w4 == Step(w3, PromptEnds(1)) && w4.s.WellFormed()
    requires w5 == Step(w4, PersonReviews(""))
    ensures Reached(LeavingBehind) == w5
  {
    hide Step, Run;
    RunCons(w4, PersonReviews(""), []);
    RunCons(w3, PromptEnds(1), [PersonReviews("")]);
    RunCons(w2, PromptClaims(1), [PromptEnds(1), PersonReviews("")]);
    RunCons(w1, AskArrives(7, "t"), [PromptClaims(1), PromptEnds(1), PersonReviews("")]);
    RunCons(Start, PersonReviews(""), [AskArrives(7, "t"), PromptClaims(1), PromptEnds(1), PersonReviews("")]);
    RunNone(w5);
    assert [PersonReviews("")] + [] == [PersonReviews("")];
    assert [PromptEnds(1)] + [PersonReviews("")] == [PromptEnds(1), PersonReviews("")];
    assert [PromptClaims(1)] + [PromptEnds(1), PersonReviews("")] == [PromptClaims(1), PromptEnds(1), PersonReviews("")];
    assert [AskArrives(7, "t")] + [PromptClaims(1), PromptEnds(1), PersonReviews("")]
        == [AskArrives(7, "t"), PromptClaims(1), PromptEnds(1), PersonReviews("")];
    assert [PersonReviews("")] + [AskArrives(7, "t"), PromptClaims(1), PromptEnds(1), PersonReviews("")] == LeavingBehind;
  }

  lemma RunNone(w: World)
    requires w.s.WellFormed()
    ensures Run(w, []) == w
  {
  }

  // ---------- The turn an ask binds ----------

  /** The step by which the goroutine whose turn `t` is ends it. */
  function EndOf(w: World, t: nat): Event {
    if t in w.wakes then WokenEndsTurn(t) else PromptEnds(t)
  }

  /** Turn `t` has ended. */
  ghost predicate TurnOver(w: World, t: nat) {
    (t in w.prompts && w.prompts[t] == Ended) || (t in w.wakes && w.wakes[t] != Running)
  }

  lemma TurnHeld(w: World, t: nat)
    requires OwnerInv(w) && w.s.turn == Some(t)
    ensures if t in w.wakes then w.wakes[t] == Running else t in w.prompts && w.prompts[t] == Holding
    ensures !TurnOver(w, t)
  {
  }

  lemma TurnStep(w: World, e: Event, t: nat)
    requires Inv(w) && w.s.turn == Some(t)
    ensures e != EndOf(w, t) ==> Step(w, e).s.turn == Some(t) && EndOf(Step(w, e), t) == EndOf(w, t)
    ensures e == EndOf(w, t) ==> TurnOver(Step(w, e), t)
  {
    if OfWindows(e) || OfAsks(e) {
      OthersKeepTurn(w, e, t);
    } else {
      assert w.s.WellFormed() && OwnerInv(w);
      ClaimTurnStep(w, e, t);
      assert Step(w, e) == ClaimStep(w, e) by {
        hide ClaimStep, OfAsks, OfWindows, Inv;
      }
    }
    hide Inv, Step, EndOf, TurnOver, ClaimStep, OfAsks, OfWindows;
  }

  lemma OthersKeepTurn(w: World, e: Event, t: nat)
    requires w.s.WellFormed() && (OfWindows(e) || OfAsks(e))
    ensures Step(w, e).s.turn == w.s.turn && EndOf(Step(w, e), t) == EndOf(w, t) != e
  {
    hide AskStep, WindowStep, ClaimStep;
  }

  lemma ClaimTurnStep(w: World, e: Event, t: nat)
    requires w.s.WellFormed() && OwnerInv(w) && w.s.turn == Some(t)
    ensures e != EndOf(w, t) ==> ClaimStep(w, e).s.turn == Some(t) && EndOf(ClaimStep(w, e), t) == EndOf(w, t)
    ensures e == EndOf(w, t) ==> TurnOver(ClaimStep(w, e), t)
  {
    hide OwnerInv, TurnOver, ClaimStep;
    if e == EndOf(w, t) {
      TurnEnds(w, t);
    } else {
      TurnKept(w, e, t);
    }
  }

  lemma TurnEnds(w: World, t: nat)
    requires w.s.WellFormed() && OwnerInv(w) && w.s.turn == Some(t)
    ensures TurnOver(ClaimStep(w, EndOf(w, t)), t)
  {
    TurnHeld(w, t);
    hide OwnerInv;
  }

  /** No prompt, woken turn or restart takes or ends a turn that is another's. */
  lemma TurnKept(w: World, e: Event, t: nat)
    requires w.s.WellFormed() && OwnerInv(w) && w.s.turn == Some(t) && e != EndOf(w, t)
    ensures var v := ClaimStep(w, e); v.s.turn == Some(t) && (t in v.wakes <==> t in w.wakes)
  {
    TurnHeld(w, t);
    assert w.s.cancel == Some(t);
    hide BeginTurn;
    if e.PromptClaims? || e.PromptEnds? {
      hide WokenStep, RestartStep;
    } else if e.RestartClaims? || e.RestartReleases? {
      hide PromptStep, WokenStep, OwnerInv;
    } else {
      hide PromptStep, RestartStep;
    }
  }

  lemma OverStays(w: World, e: Event, t: nat)
    requires w.s.WellFormed() && TurnOver(w, t)
    ensures TurnOver(Step(w, e), t)
  {
    hide AskStep, WindowStep, ClaimTurn, OpenWoken, ClaimRestart;
  }

  lemma {:induction false} OverRun(w: World, es: seq<Event>, t: nat)
    requires w.s.WellFormed() && TurnOver(w, t)
    ensures TurnOver(Run(w, es), t)
    decreases |es|
  {
    hide Step, TurnOver;
    if es != [] {
      OverStays(w, es[0], t);
      OverRun(Step(w, es[0]), es[1..], t);
    }
  }

  /** An open turn is still the session's exactly as long as its own end has not come. */
  lemma {:induction false} TurnLasts(w: World, es: seq<Event>, t: nat)
    requires Inv(w) && w.s.turn == Some(t)
    ensures Run(w, es).s.turn == Some(t) <==> EndOf(w, t) !in es
    decreases |es|
  {
    assert w.s.WellFormed();
    hide Inv, Step, EndOf, TurnOver;
    if es != [] {
      TurnStep(w, es[0], t);
      InvStep(w, es[0]);
      assert es == [es[0]] + es[1..];
      if es[0] == EndOf(w, t) {
        TurnLost(Step(w, es[0]), es[1..], t);
      } else {
        TurnLasts(Step(w, es[0]), es[1..], t);
      }
    }
  }

  lemma TurnLost(w: World, es: seq<Event>, t: nat)
    requires Inv(w) && TurnOver(w, t)
    ensures Run(w, es).s.turn != Some(t)
  {
    OverRun(w, es, t);
    RunInv(w, es);
    var v := Run(w, es);
    assert OwnerInv(v);
    hide Inv, Run, OwnerInv, TurnOver;
    if v.s.turn == Some(t) {
      TurnHeld(v, t);
    }
  }

  /** The step lets ask `a` out to a turn, not through a window. */
  ghost predicate LetsOut(w: World, e: Event, a: nat)
    requires w.s.WellFormed()
  {
    && (e.AskArrives? || e.AskLooks?) && e.id == a
    && (a in w.asks ==> w.asks[a].stage == Looking)
    && var v := Step(w, e); a in v.asks && (v.asks[a].stage == Unbound(None) || v.asks[a].stage == LeavingHeld(None))
  }

  lemma LetOutInTurn(w: World, e: Event, a: nat)
    requires Inv(w) && LetsOut(w, e, a)
    ensures w.s.turn.Some? && Step(w, e).s.turn == w.s.turn && EndOf(Step(w, e), w.s.turn.value) == EndOf(w, w.s.turn.value)
  {
    assert w.s.WellFormed() && w.s.turn == w.s.cancel by {
      hide WindowsOk, WaitingOk, WakesOk, LetsOut;
    }
    OthersKeepTurn(w, e, if w.s.turn.Some? then w.s.turn.value else 0);
    LetOutWithTurn(w, e, a);
    hide Inv, LetsOut, Step, EndOf;
  }

  lemma LetOutWithTurn(w: World, e: Event, a: nat)
    requires w.s.WellFormed() && LetsOut(w, e, a)
    ensures w.s.cancel.Some?
  {
    hide Arrive, Look, PlainStep, ReturnStep, WindowStep, ClaimStep, Take;
    LeavesInTurn(w.s, if e.AskArrives? then e.task else w.asks[a].task);
  }

  lemma LeavesInTurn(s: Session, task: Task)
    requires s.WellFormed()
    ensures Take(s, task).1.InTurn? <==> s.cancel.Some?
    ensures Take(s, task).1.Through? ==> s.cancel.None?
  {
  }

  /**
   An ask let out while turn `t` was open, and bound some steps later, is bound to `t`
   exactly when `t`'s own end is not among those steps.
   */
  lemma {:induction false} BindsItsTurn(es: seq<Event>, e: Event, between: seq<Event>, a: nat)
    requires LetsOut(Reached(es), e, a)
    requires var w := Reached(es + [e] + between); a in w.asks && w.asks[a].stage == Unbound(None)
    ensures Reached(es).s.turn.Some?
    ensures var t := Reached(es).s.turn.value;
            var v := Step(Reached(es + [e] + between), AskBinds(a));
            && a in v.asks && v.asks[a].stage.Asking?
            && (v.asks[a].stage.bound == Some(t) <==> EndOf(Reached(es), t) !in between)
  {
    var w := Reached(es);
    ReachedInv(es);
    LetOutInTurn(w, e, a);
    InvStep(w, e);
    ReachedOneMore(es, e);
    RunSplit(Start, es + [e], between);
    var t := w.s.turn.value;
    assert Reached(es + [e] + between) == Run(Step(w, e), between);
    hide Inv, Run, EndOf;
    TurnLasts(Step(w, e), between, t);
    BindsTheTurn(Reached(es + [e] + between), a);
    hide Step;
  }

  lemma BindsTheTurn(w: World, a: nat)
    requires w.s.WellFormed() && a in w.asks && w.asks[a].stage == Unbound(None)
    ensures var v := Step(w, AskBinds(a)); a in v.asks && v.asks[a].stage == Asking(None, w.s.turn)
  {
  }

  /** An ask is let out in turn 1, which then ends. */
  const LetOut: seq<Event> := [PromptClaims(1), AskArrives(7, "t"), PromptEnds(1)]

  /** So an ask let out in one turn may bind the next one. */
  lemma BindsLaterTurn()
    ensures var w := Reached(LetOut + [PromptClaims(2), AskBinds(7)]);
            7 in w.asks && w.asks[7].stage == Asking(None, Some(2))
  {
    var w := Reached(LetOut);
    LetOutThenEnded();
    NextTurn(w);
    BindsTheTurn(Step(w, PromptClaims(2)), 7);
    hide Step, Run, Reached, LetOut;
    RunOne(Step(w, PromptClaims(2)), AskBinds(7));
    RunCons(w, PromptClaims(2), [AskBinds(7)]);
    assert [PromptClaims(2)] + [AskBinds(7)] == [PromptClaims(2), AskBinds(7)];
    ReachedMore(LetOut, [PromptClaims(2), AskBinds(7)]);
  }

  /** Or no turn at all. */
  lemma BindsNoTurn()
    ensures var w := Reached(LetOut + [AskBinds(7)]);
            7 in w.asks && w.asks[7].stage == Asking(None, None)
  {
    LetOutThenEnded();
    BindsTheTurn(Reached(LetOut), 7);
    hide Step, Reached, LetOut;
    ReachedOneMore(LetOut, AskBinds(7));
  }

  lemma ReachedMore(es: seq<Event>, more: seq<Event>)
    ensures Reached(es + more) == Run(Reached(es), more)
  {
    RunSplit(Start, es, more);
    hide Run;
  }

  lemma RunOne(w: World, e: Event)
    requires w.s.WellFormed()
    ensures Run(w, [e]) == Step(w, e)
  {
    RunCons(w, e, []);
    RunNone(Step(w, e));
    assert [e] + [] == [e];
    hide Step;
  }

  lemma LetOutThenEnded()
    ensures var w := Reached(LetOut);
            && 7 in w.asks && w.asks[7].stage == Unbound(None)
            && w.s.turn.None? && w.s.cancel.None? && w.s.woken.None? && !w.s.mcpRestart && 2 !in w.prompts && 2 !in w.wakes
  {
    FirstTurn();
    LetOutOne(Step(Start, PromptClaims(1)));
    hide Step, Run;
    RunCons(Start, PromptClaims(1), [AskArrives(7, "t"), PromptEnds(1)]);
    RunCons(Step(Start, PromptClaims(1)), AskArrives(7, "t"), [PromptEnds(1)]);
    RunOne(Step(Step(Start, PromptClaims(1)), AskArrives(7, "t")), PromptEnds(1));
    assert [PromptClaims(1)] + [AskArrives(7, "t"), PromptEnds(1)] == LetOut;
    assert [AskArrives(7, "t")] + [PromptEnds(1)] == [AskArrives(7, "t"), PromptEnds(1)];
  }

  lemma FirstTurn()
    ensures var w := Step(Start, PromptClaims(1));
            && w.s.cancel == Some(1) && w.s.woken.None? && !w.s.mcpRestart && w.prompts == map[1 := Holding] && w.wakes == map[]
            && w.asks == map[]
  {
  }

  lemma LetOutOne(w: World)
    requires w.s.WellFormed() && w.s.cancel == Some(1) && w.s.woken.None? && !w.s.mcpRestart
    requires w.prompts == map[1 := Holding] && w.wakes == map[] && w.asks == map[]
    ensures var v := Step(Step(w, AskArrives(7, "t")), PromptEnds(1));
            && 7 in v.asks && v.asks[7].stage == Unbound(None)
            && v.s.turn.None? && v.s.cancel.None? && v.s.woken.None? && !v.s.mcpRestart && 2 !in v.prompts && 2 !in v.wakes
  {
  }

  lemma NextTurn(w: World)
    requires w.s.WellFormed() && 7 in w.asks && w.asks[7].stage == Unbound(None)
    requires w.s.cancel.None? && w.s.woken.None? && !w.s.mcpRestart && 2 !in w.prompts && 2 !in w.wakes
    ensures var v := Step(w, PromptClaims(2)); 7 in v.asks && v.asks[7].stage == Unbound(None) && v.s.turn == Some(2)
  {
    hide CloseWindow;
  }
}
