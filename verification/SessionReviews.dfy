/** What a person's reviews let out: with no turn open, the asks of the tasks reviewed and no others. */
module SessionReviews {
  import opened Basics
  import opened SessionSteps
  import opened SessionRuns

  /** The tasks named by the reviews of a run; "" is all of them. */
  function Reviewed(es: seq<Event>): set<Task> {
    if es == [] then {} else (if es[0].PersonReviews? then {es[0].task} else {}) + Reviewed(es[1..])
  }

  ghost predicate WindowNamed(win: Window, named: set<Task>) {
    (win.all ==> "" in named) && win.tasks <= named
  }

  /** Each window takes asks only of tasks named, and each ask a window let out is of one. */
  ghost predicate Named(w: World, named: set<Task>) {
    && (forall i :: 0 <= i < |w.s.windows| ==> WindowNamed(w.s.windows[i], named))
    && (forall a :: a in w.asks && w.asks[a].stage.Window().Some? ==>
          w.asks[a].task != "" && ("" in named || w.asks[a].task in named))
  }

  /** The windows take the asks they took. */
  predicate SameCovers(s: Session, s': Session) {
    |s'.windows| == |s.windows|
    && forall i :: 0 <= i < |s.windows| ==> s'.windows[i].all == s.windows[i].all && s'.windows[i].tasks == s.windows[i].tasks
  }

  lemma CloseCovers(s: Session)
    requires s.WellFormed()
    ensures SameCovers(s, CloseWindow(s))
  {
  }

  lemma LingerCovers(s: Session, i: nat)
    requires s.WellFormed() && i < |s.windows|
    ensures SameCovers(s, Linger(s, i))
  {
    CloseCovers(s.(windows := s.windows[i := s.windows[i].(timer := None)]));
    hide CloseWindow;
  }

  lemma BeginCovers(s: Session, id: nat)
    requires s.WellFormed()
    ensures SameCovers(s, BeginTurn(s, id))
  {
    if s.window.Some? {
      var stopped := s.(cancel := Some(id), turn := Some(id),
                        windows := s.windows[s.window.value := s.windows[s.window.value].(open := false)]);
      CloseCovers(stopped);
      hide CloseWindow;
      assert SameCovers(s, stopped) && SameCovers(s, CloseWindow(stopped));
      hide SameCovers;
      PokeCovers(s, stopped);
      PokeCovers(s, CloseWindow(stopped));
    } else {
      PokeCovers(s, s.(cancel := Some(id), turn := Some(id)));
    }
  }

  lemma PokeCovers(s: Session, s': Session)
    ensures SameCovers(s, s') <==> SameCovers(s, Poke(s'))
    ensures s'.windows == s.windows ==> SameCovers(s, s')
  {
  }

  lemma TakeCovers(s: Session, task: Task)
    requires s.WellFormed()
    ensures var (r, pass) := Take(s, task);
            SameCovers(s, r) && (pass.Through? ==> pass.window < |s.windows| && task != "" && s.windows[pass.window].Covers(task))
  {
  }

  lemma AnsweredCovers(s: Session, i: nat)
    requires s.WellFormed() && i < |s.windows|
    ensures SameCovers(s, WindowAnswered(s, i))
  {
    var counted := s.(windows := s.windows[i := s.windows[i].(outstanding := s.windows[i].outstanding - 1)]);
    LingerCovers(counted, i);
    hide Linger;
  }

  lemma ReviewCovers(s: Session, task: Task, named: set<Task>)
    requires s.WellFormed() && forall i :: 0 <= i < |s.windows| ==> WindowNamed(s.windows[i], named)
    ensures var r := Review(s, task); forall i :: 0 <= i < |r.windows| ==> WindowNamed(r.windows[i], named + {task})
  {
    if s.cancel.None? {
      var made := OpenWindow(s);
      var i := made.window.value;
      var widened := made.(windows := made.windows[i := Widen(made.windows[i], task)]);
      LingerCovers(widened, i);
      assert forall k :: 0 <= k < |widened.windows| ==> WindowNamed(widened.windows[k], named + {task});
      hide Linger, WindowNamed;
      CoversNamed(widened, Linger(widened, i), named + {task});
    } else {
      assert forall i :: 0 <= i < |s.windows| ==> WindowNamed(s.windows[i], named + {task});
    }
  }

  lemma CoversNamed(s: Session, s': Session, named: set<Task>)
    requires SameCovers(s, s') && forall i :: 0 <= i < |s.windows| ==> WindowNamed(s.windows[i], named)
    ensures forall i :: 0 <= i < |s'.windows| ==> WindowNamed(s'.windows[i], named)
  {
  }

  lemma ClaimCovers(w: World, e: Event)
    requires w.s.WellFormed()
    ensures SameCovers(w.s, ClaimStep(w, e).s)
  {
    ClaimShape(w, e);
    hide ClaimStep, Begins, BeginTurn;
    if Begins(w, e) {
      BeginCovers(Beginning(w.s, e), e.id);
    }
  }

  /** An ask that passes through a window is of a task named. */
  lemma PassNamed(s: Session, task: Task, named: set<Task>)
    requires s.WellFormed() && forall i :: 0 <= i < |s.windows| ==> WindowNamed(s.windows[i], named)
    ensures var (r, pass) := Take(s, task);
            && (forall i :: 0 <= i < |r.windows| ==> WindowNamed(r.windows[i], named))
            && (pass.Through? ==> task != "" && ("" in named || task in named))
  {
    TakeCovers(s, task);
    hide Take;
    CoversNamed(s, Take(s, task).0, named);
    if Take(s, task).1.Through? {
      assert WindowNamed(s.windows[Take(s, task).1.window], named);
    }
  }

  lemma AskNamed(w: World, e: Event, named: set<Task>)
    requires w.s.WellFormed() && Named(w, named)
    ensures Named(AskStep(w, e), named)
  {
    match e
    case AskArrives(id, task) =>
      ArriveNamed(w, id, task, named);
      hide AskStep, Named;
    case AskLooks(id) =>
      LookNamed(w, id, named);
      hide AskStep, Named;
    case AskReturns(id) =>
      ReturnNamed(w, id, named);
      hide AskStep, Named;
    case _ =>
      OthersLetNoneOut(w, e);
      hide AskStep, WindowNamed;
  }

  /** No ask is out in the second that was not in the first. */
  predicate LetsNoneOut(asks: map<nat, Ask>, asks': map<nat, Ask>) {
    forall a :: a in asks' && asks'[a].stage.Window().Some? ==>
      a in asks && asks'[a].task == asks[a].task && asks[a].stage.Window().Some?
  }

  lemma OthersLetNoneOut(w: World, e: Event)
    requires w.s.WellFormed() && !e.AskArrives? && !e.AskLooks? && !e.AskReturns?
    ensures AskStep(w, e).s.windows == w.s.windows && LetsNoneOut(w.asks, AskStep(w, e).asks)
  {
    PlainWindows(w, e);
    hide LetsNoneOut;
    SameLetsNoneOut(w.asks);
    if PlainEvent(e) {
      var stage := PlainMove(w, e);
      hide AskStep;
      if AskStep(w, e) != w {
        MoveLetsNoneOut(w.asks, e.id, stage);
      }
    }
  }

  lemma SameLetsNoneOut(asks: map<nat, Ask>)
    ensures LetsNoneOut(asks, asks)
  {
  }

  lemma MoveLetsNoneOut(asks: map<nat, Ask>, a: nat, stage: Stage)
    requires a in asks && stage.Window() == asks[a].stage.Window()
    ensures LetsNoneOut(asks, asks[a := asks[a].(stage := stage)])
  {
  }

  lemma ArriveNamed(w: World, id: nat, task: Task, named: set<Task>)
    requires w.s.WellFormed() && Named(w, named)
    ensures Named(AskStep(w, AskArrives(id, task)), named)
  {
    PassNamed(w.s, task, named);
    hide WindowNamed, Take, Arrive;
  }

  lemma LookNamed(w: World, id: nat, named: set<Task>)
    requires w.s.WellFormed() && Named(w, named)
    ensures Named(AskStep(w, AskLooks(id)), named)
  {
    if id in w.asks {
      PassNamed(w.s, w.asks[id].task, named);
    }
    hide WindowNamed, Take, Look;
  }

  lemma ReturnNamed(w: World, id: nat, named: set<Task>)
    requires w.s.WellFormed() && Named(w, named)
    ensures Named(AskStep(w, AskReturns(id)), named)
  {
    hide WindowNamed, WindowAnswered, SameCovers;
    if id in w.asks && w.asks[id].stage.Asking? {
      var via := w.asks[id].stage.via;
      if via.Some? && via.value < |w.s.windows| {
        AnsweredCovers(w.s, via.value);
        CoversNamed(w.s, WindowAnswered(w.s, via.value), named);
      }
    }
  }

  lemma StepNamed(w: World, e: Event, named: set<Task>)
    requires w.s.WellFormed() && Named(w, named)
    ensures Named(Step(w, e), if e.PersonReviews? then named + {e.task} else named)
  {
    ClaimCovers(w, e);
    AskNamed(w, e, named);
    CoversNamed(w.s, ClaimStep(w, e).s, named);
    WindowNamedStep(w, e, named);
    hide ClaimStep, AskStep, WindowStep, WindowNamed, SameCovers;
  }

  lemma WindowNamedStep(w: World, e: Event, named: set<Task>)
    requires w.s.WellFormed() && Named(w, named)
    ensures Named(WindowStep(w, e), if e.PersonReviews? then named + {e.task} else named)
  {
    match e
    case PersonReviews(task) =>
      ReviewCovers(w.s, task, named);
      hide Review, WindowNamed;
    case PersonCancels =>
      CloseCovers(w.s);
      CoversNamed(w.s, CloseWindow(w.s), named);
      hide CloseWindow, WindowNamed, SameCovers;
    case TimerFires(_) =>
      CloseCovers(w.s);
      CoversNamed(w.s, CloseWindow(w.s), named);
      hide CloseWindow, WindowNamed, SameCovers;
    case SessionShuts =>
      ShutCovers(w.s);
      CoversNamed(w.s, Shut(w.s), named);
      hide Shut, WindowNamed, SameCovers;
    case _ =>
  }

  lemma ShutCovers(s: Session)
    requires s.WellFormed()
    ensures SameCovers(s, Shut(s))
  {
    CloseCovers(s);
    CloseCovers(s.(closed := true));
    hide CloseWindow;
  }

  lemma {:induction false} RunNamed(w: World, es: seq<Event>, named: set<Task>)
    requires w.s.WellFormed() && Named(w, named)
    ensures Named(Run(w, es), named + Reviewed(es))
    decreases |es|
  {
    hide Named, Step;
    if es == [] {
      assert named + Reviewed(es) == named;
    } else {
      var more := if es[0].PersonReviews? then named + {es[0].task} else named;
      StepNamed(w, es[0], named);
      RunNamed(Step(w, es[0]), es[1..], more);
      assert more + Reviewed(es[1..]) == named + Reviewed(es);
    }
  }

  lemma {:induction false} ReviewedAre(es: seq<Event>, task: Task)
    ensures task in Reviewed(es) <==> PersonReviews(task) in es
  {
    if es != [] {
      ReviewedAre(es[1..], task);
      assert es == [es[0]] + es[1..];
    }
  }

  /**
   An ask let out through a review window is of a background task, and a person reviewed
   that task, or all of them, before.
   */
  lemma {:induction false} OnlyReviewedOut(es: seq<Event>, a: nat)
    requires a in Reached(es).asks && Reached(es).asks[a].stage.Window().Some?
    ensures var task := Reached(es).asks[a].task; task != "" && (PersonReviews("") in es || PersonReviews(task) in es)
  {
    hide Run;
    assert Named(Start, {});
    RunNamed(Start, es, {});
    assert {} + Reviewed(es) == Reviewed(es);
    ReviewedAre(es, "");
    ReviewedAre(es, Reached(es).asks[a].task);
  }
}
