/**
 Answering a proposed plan: nothing takes effect that has not been recorded, and a plan
 whose acceptance fails part of the way leaves the session planning, in the mode it had.
 */
module PlanAcceptance {
  import opened Basics

  type Mode = string
  type Hash = string

  const AcceptEdits: Mode := "accept-edits"
  const DefaultMode: Mode := "default"

  /** A plan, with the hash of its runbook if it has one, and whether a step of that cannot be undone. */
  datatype Plan = Plan(text: string, runbook: Option<Hash>, risky: bool)

  datatype Entry =
    | Accepted(to: Mode, runbook: Option<Hash>)
    | KeepPlanning
    | ModeChanged(from: Mode, to: Mode)

  /** What happened, in order: an entry the record took or did not, the mode or the bound runbook set. */
  datatype Effect = Recorded(e: Entry) | NotRecorded(e: Entry) | ModeSet(m: Mode) | Bound(b: Option<Hash>)

  /** `tried` counts the writes to the record; `offered` is the runbook last proposed. */
  datatype Loop = Loop(
    mode: Mode, pending: Option<Plan>, off: bool, offered: Option<Hash>, bound: Option<Hash>, approved: string,
    done: seq<Effect>, tried: nat)

  /** The editor's replies, and what else the answer depends on. */
  datatype Ask = Ask(
    cancelled: bool,              // the run failed, or the turn was cancelled
    modes: set<Mode>,             // the modes the session may take
    reply: string,                // the option chosen, if any
    confirmed: bool,              // the steps that cannot be undone were approved
    tasksRunning: bool,
    offLater: bool,               // what is proposed, by when the plan is bound
    offeredLater: Option<Hash>)

  datatype Outcome = Nothing | CarryOut(to: Mode, runbook: Option<Hash>)

  const AcceptEditsReply := "plan:accept-edits"
  const ApproveReply := "plan:approve"

  /** The mode a reply chooses, when it was offered. */
  function Chosen(q: Ask): Option<Mode> {
    if q.reply == AcceptEditsReply && AcceptEdits in q.modes then Some(AcceptEdits)
    else if q.reply == ApproveReply && DefaultMode in q.modes then Some(DefaultMode)
    else None
  }

  function Record(s: Loop, e: Entry, writes: nat -> bool): (r: (Loop, bool))
    ensures r.0.mode == s.mode
  {
    var ok := writes(s.tried);
    (s.(tried := s.tried + 1, done := s.done + [if ok then Recorded(e) else NotRecorded(e)]), ok)
  }

  function SetMode(s: Loop, m: Mode): Loop {
    s.(mode := m, done := s.done + [ModeSet(m)])
  }

  function Bind(s: Loop, b: Option<Hash>): Loop {
    s.(bound := b, done := s.done + [Bound(b)])
  }

  /** The plan's runbook is the one last proposed, or it has none. */
  predicate PlanOffered(off: bool, offered: Option<Hash>, plan: Plan) {
    plan.runbook.None? || (!off && offered == plan.runbook)
  }

  /** Lets go of what was bound, and binds the plan's runbook if it is the one proposed. */
  function AcceptPlan(s: Loop, plan: Plan): (Loop, bool) {
    if !PlanOffered(s.off, s.offered, plan) then (Bind(s, None), false)
    else if plan.runbook.None? then (Bind(s, None), true)
    else (Bind(s, plan.runbook).(offered := None), true)
  }

  function Keep(s: Loop, writes: nat -> bool): Loop {
    Record(s, KeepPlanning, writes).0
  }

  function Withdraw(s: Loop, from: Mode, to: Mode, applied: bool, writes: nat -> bool): Loop {
    var back := if applied then Record(SetMode(s, from), ModeChanged(to, from), writes).0 else s;
    Record(back, KeepPlanning, writes).0
  }

  /** Binding the plan, the mode being set, in what is proposed by then. */
  function BindAccepted(s: Loop, q: Ask, plan: Plan, from: Mode, to: Mode, writes: nat -> bool): (Loop, Outcome) {
    var (b, bound) := AcceptPlan(s.(off := q.offLater, offered := q.offeredLater), plan);
    if !bound then (Withdraw(b, from, to, from != to, writes), Nothing)
    else (b.(approved := plan.text), CarryOut(to, plan.runbook))
  }

  /** Carrying an answer through, the plan taken and `to` chosen. */
  function Carry(s: Loop, q: Ask, plan: Plan, to: Mode, writes: nat -> bool): (Loop, Outcome) {
    var (d, decided) := Record(s, Accepted(to, plan.runbook), writes);
    if !decided then (d.(pending := Some(plan)), Nothing)
    else if s.mode == to then BindAccepted(d, q, plan, s.mode, to, writes)
    else
      var (m, changed) := Record(d, ModeChanged(s.mode, to), writes);
      if !changed then (Withdraw(m, s.mode, to, false, writes), Nothing)
      else BindAccepted(SetMode(m, to), q, plan, s.mode, to, writes)
  }

  function DecidePlan(s: Loop, q: Ask, writes: nat -> bool): (Loop, Outcome) {
    if q.cancelled || s.pending.None? then (s, Nothing)
    else
      var plan, taken, to := s.pending.value, s.(pending := None), Chosen(q);
      if to.None? || (plan.risky && !q.confirmed) || q.tasksRunning || !PlanOffered(s.off, s.offered, plan) then
        (Keep(taken, writes), Nothing)
      else Carry(taken, q, plan, to.value, writes)
  }

  class PlanLoop {
    var mode: Mode
    var pending: Option<Plan>
    var off: bool
    var offered: Option<Hash>
    var bound: Option<Hash>
    var approved: string
    var done: seq<Effect>
    var tried: nat

    function View(): Loop
      reads this
    {
      Loop(mode, pending, off, offered, bound, approved, done, tried)
    }

    method RecordEvent(e: Entry, writes: nat -> bool) returns (ok: bool)
      modifies this
      ensures (View(), ok) == Record(old(View()), e, writes)
    {
      ok := writes(tried);
      tried := tried + 1;
      done := done + [if ok then Recorded(e) else NotRecorded(e)];
    }

    method AcceptTaken(plan: Plan) returns (ok: bool)
      modifies this
      ensures (View(), ok) == AcceptPlan(old(View()), plan)
    {
      if !PlanOffered(off, offered, plan) {
        bound, done := None, done + [Bound(None)];
        return false;
      }
      bound := plan.runbook;
      done := done + [Bound(bound)];
      if plan.runbook.Some? {
        offered := None;
      }
      return true;
    }

    method WithdrawAccepted(from: Mode, to: Mode, applied: bool, writes: nat -> bool)
      modifies this
      ensures View() == Withdraw(old(View()), from, to, applied, writes)
    {
      if applied {
        mode, done := from, done + [ModeSet(from)];
        var _ := RecordEvent(ModeChanged(to, from), writes);
      }
      var _ := RecordEvent(KeepPlanning, writes);
    }

    method Decide(q: Ask, writes: nat -> bool) returns (outcome: Outcome)
      modifies this
      ensures (View(), outcome) == DecidePlan(old(View()), q, writes)
    {
      hide Record, Withdraw, AcceptPlan, PlanOffered, Chosen;
      if q.cancelled || pending.None? {
        return Nothing;
      }
      var plan := pending.value;
      pending := None;
      var chosen := Chosen(q);
      if chosen.None? || (plan.risky && !q.confirmed) || q.tasksRunning || !PlanOffered(off, offered, plan) {
        var _ := RecordEvent(KeepPlanning, writes);
        return Nothing;
      }
      var to := chosen.value;
      var decided := RecordEvent(Accepted(to, plan.runbook), writes);
      if !decided {
        pending := Some(plan);
        return Nothing;
      }
      var from := mode;
      if from != to {
        var changed := RecordEvent(ModeChanged(from, to), writes);
        if !changed {
          WithdrawAccepted(from, to, false, writes);
          return Nothing;
        }
        mode, done := to, done + [ModeSet(to)];
      }
      off, offered := q.offLater, q.offeredLater;
      var accepted := AcceptTaken(plan);
      if !accepted {
        WithdrawAccepted(from, to, from != to, writes);
        return Nothing;
      }
      approved := plan.text;
      return CarryOut(to, plan.runbook);
    }
  }

  // ---------- What the record says ----------

  /** The mode the record gives the session, `start` before any change. */
  function RecordedMode(done: seq<Effect>, start: Mode): Mode
    decreases |done|
  {
    if done == [] then start
    else
      var last := done[|done| - 1];
      if last.Recorded? && last.e.ModeChanged? then last.e.to else RecordedMode(done[..|done| - 1], start)
  }

  /** The last answer to a plan the record holds. */
  function LastDecision(done: seq<Effect>): Option<Entry>
    decreases |done|
  {
    if done == [] then None
    else
      var last := done[|done| - 1];
      if last.Recorded? && !last.e.ModeChanged? then Some(last.e) else LastDecision(done[..|done| - 1])
  }

  lemma Appended(done: seq<Effect>, e: Effect, start: Mode)
    ensures RecordedMode(done + [e], start)
         == if e.Recorded? && e.e.ModeChanged? then e.e.to else RecordedMode(done, start)
    ensures LastDecision(done + [e]) == if e.Recorded? && !e.e.ModeChanged? then Some(e.e) else LastDecision(done)
  {
    assert (done + [e])[..|done|] == done;
  }

  lemma RecordSays(s: Loop, e: Entry, writes: nat -> bool, start: Mode)
    ensures var t := Record(s, e, writes).0;
            && RecordedMode(t.done, start) == (if writes(s.tried) && e.ModeChanged? then e.to else RecordedMode(s.done, start))
            && LastDecision(t.done) == (if writes(s.tried) && !e.ModeChanged? then Some(e) else LastDecision(s.done))
  {
    Appended(s.done, if writes(s.tried) then Recorded(e) else NotRecorded(e), start);
    hide RecordedMode, LastDecision;
  }

  lemma SetModeSays(s: Loop, m: Mode, start: Mode)
    ensures RecordedMode(SetMode(s, m).done, start) == RecordedMode(s.done, start)
    ensures LastDecision(SetMode(s, m).done) == LastDecision(s.done)
  {
    Appended(s.done, ModeSet(m), start);
  }

  lemma AcceptPlanSays(s: Loop, plan: Plan, start: Mode)
    ensures var t := AcceptPlan(s, plan).0;
            RecordedMode(t.done, start) == RecordedMode(s.done, start) && LastDecision(t.done) == LastDecision(s.done)
  {
    Appended(s.done, Bound(None), start);
    Appended(s.done, Bound(plan.runbook), start);
    hide RecordedMode, LastDecision;
  }

  lemma WithdrawSays(s: Loop, from: Mode, to: Mode, applied: bool, writes: nat -> bool, start: Mode)
    ensures var t := Withdraw(s, from, to, applied, writes);
            && t.mode == (if applied then from else s.mode)
            && t.pending == s.pending && t.bound == s.bound && t.approved == s.approved
            && RecordedMode(t.done, start) == (if applied && writes(s.tried) then from else RecordedMode(s.done, start))
            && LastDecision(t.done) == (if writes(s.tried + if applied then 1 else 0) then Some(KeepPlanning) else LastDecision(s.done))
  {
    if applied {
      var m := SetMode(s, from);
      SetModeSays(s, from, start);
      RecordSays(m, ModeChanged(to, from), writes, start);
      RecordSays(Record(m, ModeChanged(to, from), writes).0, KeepPlanning, writes, start);
    } else {
      RecordSays(s, KeepPlanning, writes, start);
    }
    hide RecordedMode, LastDecision;
  }

  /** How binding the plan ends, and what the record says then. */
  lemma BindAcceptedSays(s: Loop, q: Ask, plan: Plan, from: Mode, to: Mode, writes: nat -> bool, start: Mode)
    requires s.mode == to
    ensures var (t, outcome) := BindAccepted(s, q, plan, from, to, writes);
            if PlanOffered(q.offLater, q.offeredLater, plan) then
              && outcome == CarryOut(to, plan.runbook)
              && t.mode == to && t.bound == plan.runbook && t.approved == plan.text && t.pending == s.pending
              && RecordedMode(t.done, start) == RecordedMode(s.done, start) && LastDecision(t.done) == LastDecision(s.done)
            else
              && outcome == Nothing
              && t.mode == from && t.bound == None && t.approved == s.approved
              && RecordedMode(t.done, start)
                 == (if from != to && writes(s.tried) then from else RecordedMode(s.done, start))
              && LastDecision(t.done)
                 == (if writes(s.tried + if from != to then 1 else 0) then Some(KeepPlanning) else LastDecision(s.done))
  {
    hide RecordedMode, LastDecision, Withdraw;
    var p := s.(off := q.offLater, offered := q.offeredLater);
    AcceptPlanSays(p, plan, start);
    WithdrawSays(AcceptPlan(p, plan).0, from, to, from != to, writes, start);
  }

  /** The plan has been put, `to` chosen, nothing stands in its way, and its acceptance is tried. */
  predicate Tries(s: Loop, q: Ask) {
    && !q.cancelled && s.pending.Some? && Chosen(q).Some?
    && !(s.pending.value.risky && !q.confirmed) && !q.tasksRunning && PlanOffered(s.off, s.offered, s.pending.value)
  }

  /** Its mode, if it is another, was recorded and set, with its acceptance on record before. */
  predicate Takes(s: Loop, q: Ask, writes: nat -> bool) {
    Tries(s, q) && writes(s.tried) && (s.mode == Chosen(q).value || writes(s.tried + 1))
  }

  predicate BindsLater(s: Loop, q: Ask) {
    s.pending.Some? && PlanOffered(q.offLater, q.offeredLater, s.pending.value)
  }

  lemma {:induction false} CarriesExactly(s: Loop, q: Ask, writes: nat -> bool, start: Mode)
    requires Takes(s, q, writes) && RecordedMode(s.done, start) == s.mode
    ensures var (t, outcome) := DecidePlan(s, q, writes); var to := Chosen(q).value; var plan := s.pending.value;
            var n := s.tried + if s.mode == to then 1 else 2;
            if BindsLater(s, q) then
              && outcome == CarryOut(to, plan.runbook) && t.mode == to && t.bound == plan.runbook && t.approved == plan.text
              && t.pending == None && RecordedMode(t.done, start) == to
              && LastDecision(t.done) == Some(Accepted(to, plan.runbook))
            else
              && outcome == Nothing && t.mode == s.mode && t.bound == None && t.approved == s.approved
              && RecordedMode(t.done, start) == (if s.mode == to || writes(n) then s.mode else to)
              && LastDecision(t.done)
                 == (if writes(n + if s.mode == to then 0 else 1) then Some(KeepPlanning) else Some(Accepted(to, plan.runbook)))
  {
    hide RecordedMode, LastDecision, BindAccepted, PlanOffered;
    var plan, to := s.pending.value, Chosen(q).value;
    var taken := s.(pending := None);
    var d := Record(taken, Accepted(to, plan.runbook), writes).0;
    RecordSays(taken, Accepted(to, plan.runbook), writes, start);
    if s.mode == to {
      BindAcceptedSays(d, q, plan, s.mode, to, writes, start);
    } else {
      var m := Record(d, ModeChanged(s.mode, to), writes).0;
      RecordSays(d, ModeChanged(s.mode, to), writes, start);
      SetModeSays(m, to, start);
      BindAcceptedSays(SetMode(m, to), q, plan, s.mode, to, writes, start);
    }
  }

  /** A plan put and not carried so far: kept, or its acceptance or its mode's change not recorded. */
  lemma StopsExactly(s: Loop, q: Ask, writes: nat -> bool, start: Mode)
    requires !Takes(s, q, writes) && RecordedMode(s.done, start) == s.mode
    ensures var (t, outcome) := DecidePlan(s, q, writes);
            && outcome == Nothing && t.mode == s.mode && t.bound == s.bound && t.approved == s.approved
            && RecordedMode(t.done, start) == s.mode
            && (Tries(s, q) && !writes(s.tried) ==> t.pending == s.pending && LastDecision(t.done) == LastDecision(s.done))
            && (Tries(s, q) && writes(s.tried) ==>
                  LastDecision(t.done) == Some(if writes(s.tried + 2) then KeepPlanning
                                               else Accepted(Chosen(q).value, s.pending.value.runbook)))
            && (!q.cancelled && s.pending.Some? && !Tries(s, q) ==>
                  LastDecision(t.done) == if writes(s.tried) then Some(KeepPlanning) else LastDecision(s.done))
            && (q.cancelled || s.pending.None? ==> t == s)
  {
    hide RecordedMode, LastDecision, BindAccepted, PlanOffered, Withdraw;
    if !q.cancelled && s.pending.Some? {
      var taken := s.(pending := None);
      RecordSays(taken, KeepPlanning, writes, start);
      if Tries(s, q) {
        var plan, to := s.pending.value, Chosen(q).value;
        var d := Record(taken, Accepted(to, plan.runbook), writes).0;
        RecordSays(taken, Accepted(to, plan.runbook), writes, start);
        var m := Record(d, ModeChanged(s.mode, to), writes).0;
        RecordSays(d, ModeChanged(s.mode, to), writes, start);
        WithdrawSays(m, s.mode, to, false, writes, start);
      }
    }
  }

  /**
   A plan is accepted all or not at all, whichever writes fail and whatever is proposed
   by the time it is bound. Told to carry it out, the session has the mode chosen,
   accept-edits or default and one it may take, in force and on record; the plan's
   runbook is bound, its text approved, and its acceptance is the record's last
   decision. Otherwise the mode and what was approved are as they were.
   */
  lemma AllOrNothing(s: Loop, q: Ask, writes: nat -> bool, start: Mode)
    requires RecordedMode(s.done, start) == s.mode
    ensures var (t, outcome) := DecidePlan(s, q, writes);
            && (outcome.CarryOut? <==> Takes(s, q, writes) && BindsLater(s, q))
            && if outcome.CarryOut? then
                 && outcome.to in { AcceptEdits, DefaultMode } && outcome.to in q.modes
                 && (if outcome.to == AcceptEdits then q.reply == AcceptEditsReply else q.reply == ApproveReply)
                 && t.mode == outcome.to == RecordedMode(t.done, start)
                 && t.bound == outcome.runbook == s.pending.value.runbook && t.approved == s.pending.value.text
                 && LastDecision(t.done) == Some(Accepted(outcome.to, outcome.runbook))
               else
                 t.mode == s.mode && t.approved == s.approved && (t.bound == s.bound || t.bound == None)
  {
    hide RecordedMode, LastDecision, DecidePlan, PlanOffered;
    if Takes(s, q, writes) {
      CarriesExactly(s, q, writes, start);
    } else {
      StopsExactly(s, q, writes, start);
    }
  }

  /**
   A plan not carried out whose every write was taken leaves the record saying so: its
   last decision keeps planning, and its mode is the mode in force.
   */
  lemma {:induction false} KeptOnRecord(s: Loop, q: Ask, writes: nat -> bool, start: Mode)
    requires RecordedMode(s.done, start) == s.mode && !q.cancelled && s.pending.Some?
    requires forall n :: writes(n)
    ensures var (t, outcome) := DecidePlan(s, q, writes);
            outcome == Nothing ==> LastDecision(t.done) == Some(KeepPlanning) && RecordedMode(t.done, start) == t.mode
  {
    hide RecordedMode, LastDecision, DecidePlan, PlanOffered;
    if Takes(s, q, writes) {
      CarriesExactly(s, q, writes, start);
    } else {
      StopsExactly(s, q, writes, start);
    }
  }

  /**
   Where writes fail, the record's mode differs from the mode in force exactly when the
   mode had been changed, the runbook could then not be bound, and the change back was
   not recorded.
   */
  lemma RecordedModeLags(s: Loop, q: Ask, writes: nat -> bool, start: Mode)
    requires RecordedMode(s.done, start) == s.mode
    ensures var t := DecidePlan(s, q, writes).0;
            RecordedMode(t.done, start) != t.mode
            <==> Takes(s, q, writes) && s.mode != Chosen(q).value && !BindsLater(s, q) && !writes(s.tried + 2)
  {
    hide RecordedMode, LastDecision, DecidePlan, PlanOffered;
    if Takes(s, q, writes) {
      CarriesExactly(s, q, writes, start);
    } else {
      StopsExactly(s, q, writes, start);
    }
  }

  // ---------- On record before it takes effect ----------

  /** Among the effects from `n` to `i` the record took the acceptance of `to` and `runbook`. */
  ghost predicate AcceptedIn(done: seq<Effect>, n: nat, i: nat, to: Mode) {
    exists j :: n <= j < i <= |done| && done[j].Recorded? && done[j].e.Accepted? && done[j].e.to == to
  }

  ghost predicate RunbookIn(done: seq<Effect>, n: nat, i: nat, b: Option<Hash>) {
    exists j :: n <= j < i <= |done| && done[j].Recorded? && done[j].e.Accepted? && done[j].e.runbook == b
  }

  ghost predicate ChangeIn(done: seq<Effect>, n: nat, i: nat, from: Mode, to: Mode) {
    exists j :: n <= j < i <= |done| && done[j] == Recorded(ModeChanged(from, to))
  }

  /**
   Of the effects from `n` on: the mode is set to another than `from` only after its
   acceptance and its change are on record, and a runbook bound only after its
   acceptance is.
   */
  ghost predicate RecordedFirst(done: seq<Effect>, n: nat, from: Mode) {
    forall i :: n <= i < |done| ==>
      && (done[i].ModeSet? && done[i].m != from ==> AcceptedIn(done, n, i, done[i].m) && ChangeIn(done, n, i, from, done[i].m))
      && (done[i].Bound? && done[i].b.Some? ==> RunbookIn(done, n, i, done[i].b))
  }

  /** One more effect, which is neither, or has what it needs on record. */
  lemma FirstMore(done: seq<Effect>, n: nat, from: Mode, e: Effect)
    requires RecordedFirst(done, n, from)
    requires e.ModeSet? && e.m != from ==> AcceptedIn(done, n, |done|, e.m) && ChangeIn(done, n, |done|, from, e.m)
    requires e.Bound? && e.b.Some? ==> RunbookIn(done, n, |done|, e.b)
    ensures RecordedFirst(done + [e], n, from)
    ensures forall to :: AcceptedIn(done, n, |done|, to) ==> AcceptedIn(done + [e], n, |done| + 1, to)
    ensures forall to :: ChangeIn(done, n, |done|, from, to) ==> ChangeIn(done + [e], n, |done| + 1, from, to)
    ensures forall b :: RunbookIn(done, n, |done|, b) ==> RunbookIn(done + [e], n, |done| + 1, b)
    ensures n <= |done| && e.Recorded? && e.e.Accepted? ==>
              AcceptedIn(done + [e], n, |done| + 1, e.e.to) && RunbookIn(done + [e], n, |done| + 1, e.e.runbook)
    ensures n <= |done| && e.Recorded? && e.e.ModeChanged? ==> ChangeIn(done + [e], n, |done| + 1, e.e.from, e.e.to)
  {
    var more := done + [e];
    assert more[|done|] == e && forall j :: 0 <= j < |done| ==> more[j] == done[j];
    forall i | n <= i < |more|
      ensures more[i].ModeSet? && more[i].m != from ==> AcceptedIn(more, n, i, more[i].m) && ChangeIn(more, n, i, from, more[i].m)
      ensures more[i].Bound? && more[i].b.Some? ==> RunbookIn(more, n, i, more[i].b)
    {
      if i < |done| {
        assert more[i] == done[i];
        assert forall to :: AcceptedIn(done, n, i, to) ==> AcceptedIn(more, n, i, to);
        assert forall to :: ChangeIn(done, n, i, from, to) ==> ChangeIn(more, n, i, from, to);
        assert forall b :: RunbookIn(done, n, i, b) ==> RunbookIn(more, n, i, b);
      }
    }
  }

  lemma WithdrawFirst(s: Loop, from: Mode, to: Mode, applied: bool, writes: nat -> bool, n: nat)
    requires RecordedFirst(s.done, n, from)
    ensures RecordedFirst(Withdraw(s, from, to, applied, writes).done, n, from)
  {
    hide RecordedFirst;
    if applied {
      var m := SetMode(s, from);
      FirstMore(s.done, n, from, ModeSet(from));
      var r := Record(m, ModeChanged(to, from), writes).0;
      FirstMore(m.done, n, from, r.done[|m.done|]);
      FirstMore(r.done, n, from, Record(r, KeepPlanning, writes).0.done[|r.done|]);
    } else {
      FirstMore(s.done, n, from, Record(s, KeepPlanning, writes).0.done[|s.done|]);
    }
  }

  lemma BindFirst(s: Loop, q: Ask, plan: Plan, from: Mode, to: Mode, writes: nat -> bool, n: nat)
    requires RecordedFirst(s.done, n, from) && RunbookIn(s.done, n, |s.done|, plan.runbook)
    ensures RecordedFirst(BindAccepted(s, q, plan, from, to, writes).0.done, n, from)
  {
    hide RecordedFirst, Withdraw, PlanOffered;
    var p := s.(off := q.offLater, offered := q.offeredLater);
    var b := AcceptPlan(p, plan).0;
    FirstMore(s.done, n, from, b.done[|s.done|]);
    WithdrawFirst(b, from, to, from != to, writes, n);
  }

  lemma CarryFirst(s: Loop, q: Ask, plan: Plan, to: Mode, writes: nat -> bool, n: nat)
    requires RecordedFirst(s.done, n, s.mode) && n <= |s.done|
    ensures RecordedFirst(Carry(s, q, plan, to, writes).0.done, n, s.mode)
  {
    hide RecordedFirst, BindAccepted, Withdraw, AcceptedIn, ChangeIn, RunbookIn;
    var from := s.mode;
    var d := Record(s, Accepted(to, plan.runbook), writes).0;
    FirstMore(s.done, n, from, d.done[|s.done|]);
    if writes(s.tried) {
      if from == to {
        BindFirst(d, q, plan, from, to, writes, n);
      } else {
        var m := Record(d, ModeChanged(from, to), writes).0;
        FirstMore(d.done, n, from, m.done[|d.done|]);
        if writes(d.tried) {
          FirstMore(m.done, n, from, ModeSet(to));
          BindFirst(SetMode(m, to), q, plan, from, to, writes, n);
        } else {
          WithdrawFirst(m, from, to, false, writes, n);
        }
      }
    }
  }

  /** Whichever writes fail, the mode chosen is set, and the runbook bound, only after the record has taken them. */
  lemma OnRecordFirst(s: Loop, q: Ask, writes: nat -> bool)
    ensures RecordedFirst(DecidePlan(s, q, writes).0.done, |s.done|, s.mode)
  {
    assert RecordedFirst(s.done, |s.done|, s.mode);
    hide RecordedFirst, Carry, PlanOffered;
    if !q.cancelled && s.pending.Some? {
      var taken := s.(pending := None);
      FirstMore(taken.done, |s.done|, s.mode, Keep(taken, writes).done[|s.done|]);
      if Chosen(q).Some? {
        CarryFirst(taken, q, s.pending.value, Chosen(q).value, writes, |s.done|);
      }
    }
  }
}
