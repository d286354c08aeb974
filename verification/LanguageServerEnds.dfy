/** That supervising a language server comes to an end: over any run, and after a stop. */
module LanguageServerEnds {
  import opened Basics
  import opened LanguageServerSteps
  import opened LanguageServerRuns

  /** How many steps the driver can take at most; each restart that is left adds ten. */
  function StepsLeft(d: Driver): nat {
    match d
    case Backoff(n) => 14 + RestartSteps(n)
    case Judging(n) => 13 + RestartSteps(n)
    case Cleared(n) => 12 + RestartSteps(n)
    case Started(n) => 11 + RestartSteps(n)
    case Installed(n, _) => 10 + RestartSteps(n)
    case Initializing(n) => 9 + RestartSteps(n)
    case Waiting(n, _) => 8 + RestartSteps(n)
    case Reaped(n, _) => 7 + RestartSteps(n)
    case Shut(n, _) => 6 + RestartSteps(n)
    case Decided(n, _, _) => 5 + RestartSteps(n)
    case Returned(_) => 3
    case Ending => 2
    case Announcing => 1
    case Over => 0
  }

  function RestartSteps(n: nat): nat {
    if n < MaxRestarts then 10 * (MaxRestarts - n) else 0
  }

  /** How many steps of a run are the driver's, and take it further. */
  function DriverSteps(w: World, es: seq<Event>): nat
    requires WellFormed(w.l)
    decreases |es|
  {
    if es == [] then 0 else (if Step(w, es[0]).driver != w.driver then 1 else 0) + DriverSteps(Step(w, es[0]), es[1..])
  }

  lemma OthersKeepDriver(w: World, e: Event)
    requires WellFormed(w.l) && !OfDriver(e)
    ensures Step(w, e).driver == w.driver && Step(w, e).done == w.done
  {
    OverStop(w, e);
    hide SendStep, FreeStep, StopStep, DriverStep;
  }

  lemma StartGoesOn(w: World, e: Event)
    requires WellFormed(w.l)
    ensures StartStep(w, e).driver == w.driver || StepsLeft(StartStep(w, e).driver) < StepsLeft(w.driver)
  {
    hide Install, Cancelled, SetProc, RestartSteps;
  }

  lemma EndGoesOn(w: World, e: Event)
    requires WellFormed(w.l)
    ensures EndStep(w, e).driver == w.driver || StepsLeft(EndStep(w, e).driver) < StepsLeft(w.driver)
  {
    if e.Follows? {
      FollowsGoesOn(w);
      hide EndStep, StepsLeft;
    } else {
      hide CloseInput, SetProc, RestartSteps;
    }
  }

  lemma FollowsGoesOn(w: World)
    requires WellFormed(w.l)
    ensures var v := EndStep(w, Follows); v.driver == w.driver || StepsLeft(v.driver) < StepsLeft(w.driver)
  {
    hide CloseInput, SetProc, RestartSteps;
    if w.driver.Decided? {
      RestartLess(w.driver.n);
    }
  }

  lemma RestartLess(n: nat)
    ensures n < MaxRestarts ==> RestartSteps(n) == 10 + RestartSteps(n + 1)
  {
  }

  lemma DriverGoesOn(w: World, e: Event)
    requires WellFormed(w.l)
    ensures DriverStep(w, e).driver == w.driver || StepsLeft(DriverStep(w, e).driver) < StepsLeft(w.driver)
  {
    StartGoesOn(w, e);
    EndGoesOn(w, e);
    hide StartStep, EndStep, StepsLeft;
  }

  lemma StepGoesOn(w: World, e: Event)
    requires WellFormed(w.l)
    ensures Step(w, e).driver == w.driver || StepsLeft(Step(w, e).driver) < StepsLeft(w.driver)
  {
    DriverGoesOn(w, e);
    if !OfDriver(e) {
      OthersKeepDriver(w, e);
    }
    hide DriverStep, SendStep, StopStep, FreeStep, StepsLeft;
  }

  lemma {:induction false} RunGoesOn(w: World, es: seq<Event>)
    requires WellFormed(w.l)
    ensures DriverSteps(w, es) + StepsLeft(Run(w, es).driver) <= StepsLeft(w.driver)
    decreases |es|
  {
    hide Step, StepsLeft;
    if es != [] {
      StepGoesOn(w, es[0]);
      RunGoesOn(Step(w, es[0]), es[1..]);
    }
  }

  /**
   In every run, crashes, restarts and stops at any time, the driver takes at most 63
   steps, and when it can take no more `done` is closed.
   */
  lemma DriverEnds(es: seq<Event>)
    ensures DriverSteps(Begin, es) <= 63
    ensures StepsLeft(Reached(es).driver) == 0 <==> Reached(es).done
  {
    RunGoesOn(Begin, es);
    ReachedOk(es);
    hide Run, DriverSteps, KillOk, InputsOk;
  }

  // ---------- After a stop ----------

  /** In the run the process neither answers nor writes, and fails to answer or goes only once cancelled. */
  ghost predicate GoesWhenKilled(w: World, es: seq<Event>)
    requires WellFormed(w.l)
    decreases |es|
  {
    es == [] || (KilledBefore(w, es[0]) && GoesWhenKilled(Step(w, es[0]), es[1..]))
  }

  ghost predicate KilledBefore(w: World, e: Event) {
    && !e.InitWorks? && !e.Writes?
    && (e.InitFails? || e.Reaps? ==> w.l.procs != [] && w.l.procs[|w.l.procs| - 1].cancelled)
  }

  lemma {:induction false} KilledThen(w: World, es: seq<Event>, more: seq<Event>)
    requires WellFormed(w.l) && GoesWhenKilled(w, es) && GoesWhenKilled(Run(w, es), more)
    ensures GoesWhenKilled(w, es + more)
    decreases |es|
  {
    hide Step, KilledBefore;
    if es == [] {
      assert es + more == more;
    } else {
      assert (es + more)[0] == es[0] && (es + more)[1..] == es[1..] + more;
      KilledThen(Step(w, es[0]), es[1..], more);
    }
  }

  /** Steps of neither the driver nor the server, which take no lock for long. */
  predicate Aside(e: Event) {
    OfKill(e) || e.Counts?
  }

  lemma AsideKeeps(w: World, e: Event)
    requires WellFormed(w.l) && Aside(e)
    ensures var v := Step(w, e);
            && v.driver == w.driver && v.done == w.done && |v.l.procs| == |w.l.procs| && (w.adding.None? ==> v.adding.None?)
    ensures KilledBefore(w, e)
  {
    AsideIs(w, e);
    if e.Kills? {
      OverStop(w, e);
      KillKeeps(w, e);
    } else {
      AsideFree(w, e);
      FreeShape(w, e);
    }
    hide Step, StopStep, FreeStep, Aside, KilledBefore;
  }

  lemma AsideIs(w: World, e: Event)
    requires WellFormed(w.l) && Aside(e)
    ensures Step(w, e) == if !e.Kills? then FreeStep(w, e) else if w.adding.Some? then w else StopStep(w, e)
    ensures KilledBefore(w, e)
  {
    hide StopStep, FreeStep, DriverStep, SendStep;
  }

  lemma AsideFree(w: World, e: Event)
    requires WellFormed(w.l)
    ensures w.adding.None? ==> FreeStep(w, e).adding.None?
  {
    hide SetInput, Add, Cancelled, Take, Wrote;
  }

  lemma KillKeeps(w: World, e: Event)
    requires WellFormed(w.l)
    ensures StopStep(w, e).adding == w.adding && (e.Kills? ==> StopStep(w, e).l == w.l)
  {
  }

  lemma {:induction false} AsideOnly(w: World, es: seq<Event>)
    requires WellFormed(w.l) && forall i :: 0 <= i < |es| ==> Aside(es[i])
    ensures var v := Run(w, es);
            && v.driver == w.driver && v.done == w.done && |v.l.procs| == |w.l.procs| && (w.adding.None? ==> v.adding.None?)
            && GoesWhenKilled(w, es)
    decreases |es|
  {
    hide Step, OfKill;
    if es != [] {
      assert Aside(es[0]);
      AsideKeeps(w, es[0]);
      AsideOnly(Step(w, es[0]), es[1..]);
    }
  }

  lemma {:induction false} StaysStopped(w: World, es: seq<Event>)
    requires WellFormed(w.l) && w.l.stopped
    ensures Run(w, es).l.stopped
    decreases |es|
  {
    hide Step;
    if es != [] {
      StopStays(w, es[0]);
      StaysStopped(Step(w, es[0]), es[1..]);
    }
  }

  lemma StopStays(w: World, e: Event)
    requires WellFormed(w.l) && w.l.stopped
    ensures Step(w, e).l.stopped
  {
    hide DriverStep, SendStep, FreeStep, StopStep, SameShape;
    if OfDriver(e) {
      DriverStopStays(w, e);
    } else if e.Sends? || e.SendsNil? {
      SendStopStays(w, e);
    } else if e.Stops? || e.Kills? {
      StopStopStays(w, e);
    } else {
      FreeShape(w, e);
    }
  }

  lemma DriverStopStays(w: World, e: Event)
    requires WellFormed(w.l) && w.l.stopped
    ensures DriverStep(w, e).l.stopped
  {
    if OfStart(e) {
      hide EndStep;
    } else {
      hide StartStep;
    }
  }

  lemma SendStopStays(w: World, e: Event)
    requires WellFormed(w.l) && w.l.stopped
    ensures SendStep(w, e).l.stopped
  {
    hide Push;
  }

  lemma StopStopStays(w: World, e: Event)
    requires WellFormed(w.l) && w.l.stopped
    ensures StopStep(w, e).l.stopped
  {
  }

  /** What the driver does next; a process that has been cancelled fails to answer, and goes. */
  function NextOfDriver(d: Driver, gone: bool): Event {
    match d
    case Backoff(_) => BackoffEnds(gone)
    case Judging(_) => JudgeAllows
    case Cleared(_) => StartWorks
    case Started(_) => Installs
    case Installed(_, _) => Proceeds
    case Initializing(_) => InitFails(false)
    case Waiting(_, _) => Reaps
    case Reaped(_, _) => ClosesInput
    case Shut(_, _) => Decides(gone)
    case Decided(_, _, _) => Follows
    case Returned(_) => Follows
    case Ending => Forgets
    case _ => ClosesDone
  }

  lemma DriverCan(w: World, gone: bool)
    requires DriverOk(w) && w.adding.None? && !w.driver.Over?
    ensures Step(w, NextOfDriver(w.driver, gone)).driver != w.driver
  {
    hide Install, CloseInput, Cancelled, SetProc;
  }

  /** The process waited for, if any, has been cancelled. */
  predicate WaitedKilled(w: World) {
    w.driver.Initializing? || w.driver.Waiting? ==> w.l.procs != [] && w.l.procs[|w.l.procs| - 1].cancelled
  }

  /** Steps aside after which the lock is free, and a process that is waited for has been cancelled. */
  lemma MakesWay(es: seq<Event>) returns (more: seq<Event>)
    requires Reached(es).l.stopped
    ensures forall i :: 0 <= i < |more| ==> Aside(more[i])
    ensures Reached(es + more).adding.None? && WaitedKilled(Reached(es + more))
  {
    var w := Reached(es);
    var frees := if w.adding.Some? then [Counts] else [];
    FreesLock(es);
    hide Step, Run, OfKill;
    AsideOnly(w, frees);
    StaysStopped(w, frees);
    RunSplit(Begin, es, frees);
    var v := Reached(es + frees);
    var kills := [];
    if v.driver.Initializing? || v.driver.Waiting? {
      kills := Kills(es + frees);
    }
    AsideOnly(v, kills);
    more := frees + kills;
    assert es + more == es + frees + kills;
    RunSplit(Begin, es + frees, kills);
    RunNone(v);
  }

  lemma Kills(es: seq<Event>) returns (kills: seq<Event>)
    requires var w := Reached(es); w.l.stopped && w.adding.None? && (w.driver.Initializing? || w.driver.Waiting?)
    ensures forall i :: 0 <= i < |kills| ==> Aside(kills[i])
    ensures WaitedKilled(Run(Reached(es), kills))
  {
    WaitedRuns(es);
    hide Step, Run, OfKill, Reached, WaitedKilled;
    var w := Reached(es);
    var p := |w.l.procs| - 1;
    kills := FreeStopCancels(es, p);
    KillsAside(w, kills);
    hide Aside;
    AsideOnly(w, kills);
    LastKilled(Run(w, kills), p);
  }

  lemma KillsAside(w: World, es: seq<Event>)
    requires !w.driver.Installed?
    requires forall i :: 0 <= i < |es| ==> OfKill(es[i]) || (es[i].Proceeds? && w.driver.Installed?)
    ensures forall i :: 0 <= i < |es| ==> Aside(es[i])
  {
  }

  lemma LastKilled(w: World, p: nat)
    requires |w.l.procs| == p + 1 && w.l.procs[p].cancelled
    ensures WaitedKilled(w)
  {
  }

  lemma WaitedRuns(es: seq<Event>)
    requires Reached(es).driver.Initializing? || Reached(es).driver.Waiting?
    ensures var w := Reached(es); var p := |w.l.procs| - 1; p >= 0 && w.l.out == Some(p) && w.l.procs[p].live
  {
    ReachedOk(es);
    hide Run, KillOk, InputsOk;
  }

  lemma FreesLock(es: seq<Event>)
    ensures var w := Reached(es); Run(w, if w.adding.Some? then [Counts] else []).adding.None?
  {
    var w := Reached(es);
    hide Step;
    if w.adding.Some? {
      CountsFrees(es);
      RunOne(w, Counts);
    }
  }

  /**
   After a stop the supervision can always be ended by the driver, the kill and the
   process's own exit, which comes only once it has been killed: `done` is then closed.
   */
  lemma {:induction false} StopEnds(es: seq<Event>, gone: bool) returns (more: seq<Event>)
    requires Reached(es).l.stopped
    ensures Reached(es + more).done && GoesWhenKilled(Reached(es), more)
    decreases StepsLeft(Reached(es).driver)
  {
    hide Run, Step, DriverOk, KillOk, InputsOk, StepsLeft, GoesWhenKilled, Aside, KilledBefore, NextOfDriver, WaitedKilled;
    var w := Reached(es);
    DriverEnds(es);
    if w.done {
      more := [];
      assert es + more == es;
      NoneKilled(w);
    } else {
      var aside := MakesWay(es);
      AsideOnly(w, aside);
      RunSplit(Begin, es, aside);
      ReachedOk(es + aside);
      StaysStopped(w, aside);
      var v := Reached(es + aside);
      var e := NextOfDriver(v.driver, gone);
      NotOver(v);
      DriverCan(v, gone);
      StepGoesOn(v, e);
      OneKilled(v, gone);
      RunOne(v, e);
      RunSplit(Begin, es + aside, [e]);
      StaysStopped(v, [e]);
      var rest := StopEnds(es + aside + [e], gone);
      more := aside + ([e] + rest);
      KilledThen(v, [e], rest);
      KilledThen(w, aside, [e] + rest);
      assert es + more == es + aside + [e] + rest;
    }
  }

  lemma NoneKilled(w: World)
    requires WellFormed(w.l)
    ensures GoesWhenKilled(w, [])
  {
  }

  lemma NotOver(w: World)
    requires DriverOk(w) && !w.done
    ensures !w.driver.Over?
  {
  }

  lemma OneKilled(w: World, gone: bool)
    requires WellFormed(w.l)
    requires WaitedKilled(w)
    ensures GoesWhenKilled(w, [NextOfDriver(w.driver, gone)])
  {
    hide Step;
    var es := [NextOfDriver(w.driver, gone)];
    assert es[1..] == [];
  }
}
