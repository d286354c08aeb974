/**
 The editor features' rate limits and admission: a token bucket per session inside one
 for the connection, and requests ordered by sequence, a newer one replacing the one in
 flight. Clock readings are reals, in seconds.
 */
module RateLimit {
  import opened Basics

  datatype Limit = Limit(burst: real, every: real)

  const SessionRate := Limit(5.0, 0.2)
  const ConnectionRate := Limit(10.0, 0.1)

  /** A bucket: its tokens when last refilled, or None before its first use. */
  datatype Level = Level(tokens: real, refilled: Option<real>)

  ghost predicate Sound(l: Limit) {
    l.burst >= 1.0 && l.every > 0.0
  }

  function Least(a: real, b: real): real {
    if a < b then a else b
  }

  /** The bucket refilled at `now`. */
  function Refill(b: Level, l: Limit, now: real): Level
    requires l.every > 0.0
  {
    if b.refilled.None? then Level(l.burst, Some(now))
    else Level(Least(l.burst, b.tokens + (now - b.refilled.value) / l.every), Some(now))
  }

  /** The bucket after one token is asked of it at `now`, and whether one was there. */
  function Taken(b: Level, l: Limit, now: real): (Level, bool)
    requires l.every > 0.0
  {
    var r := Refill(b, l, now);
    if r.tokens < 1.0 then (r, false) else (r.(tokens := r.tokens - 1.0), true)
  }

  class Bucket {
    var tokens: real
    var refilled: Option<real>

    constructor ()
      ensures View() == Level(0.0, None)
    {
      tokens, refilled := 0.0, None;
    }

    function View(): Level
      reads this
    {
      Level(tokens, refilled)
    }

    method Take(l: Limit, now: real) returns (ok: bool)
      requires Sound(l)
      modifies this
      ensures (View(), ok) == Taken(old(View()), l, now)
    {
      if refilled.None? {
        tokens, refilled := l.burst, Some(now);
      }
      NothingOver(l.every);
      tokens := Least(l.burst, tokens + (now - refilled.value) / l.every);
      refilled := Some(now);
      if tokens < 1.0 {
        return false;
      }
      tokens := tokens - 1.0;
      return true;
    }
  }

  lemma NothingOver(every: real)
    requires every > 0.0
    ensures 0.0 / every == 0.0
  {
  }

  // ---------- Admission ----------

  const MaxSeq := 0x7fff_ffff_ffff_ffff
  const MinSeq := -0x8000_0000_0000_0000

  newtype int64 = x: int | MinSeq <= x <= MaxSeq

  /** One more, as a 64-bit number has it. */
  function Next(n: int64): int64 {
    if n as int == MaxSeq then MinSeq as int64 else n + 1
  }

  datatype Request = Request(place: int64, name: string, now: real, adapterFails: bool)

  datatype Outcome = Admitted(id: nat) | Closed | Limited | Superseded | AdapterError

  /** One session's completions: `cancel` names the request in flight, `adapter` the provider its adapter is for. */
  datatype Completer = Completer(
    rate: Level, closed: bool, latest: int64, cancel: Option<nat>, adapter: Option<string>,
    refused: nat, superseded: nat)

  const NewCompleter := Completer(Level(0.0, None), false, 0, None, None, 0, 0)

  /** A completer and the connection's bucket after a request, its outcome, and the request it cancels. */
  datatype Admission = Admission(k: Completer, conn: Level, outcome: Outcome, cancels: Option<nat>)

  /** One token of the session's and one of the connection's, the session's given back when the connection has none. */
  function BothTaken(rate: Level, conn: Level, now: real): (Level, Level, bool) {
    var (r, ok) := Taken(rate, SessionRate, now);
    if !ok then (r, conn, false)
    else
      var (c, also) := Taken(conn, ConnectionRate, now);
      if also then (r, c, true) else (r.(tokens := r.tokens + 1.0), c, false)
  }

  function AdmissionOf(k: Completer, conn: Level, q: Request, id: nat): Admission {
    if k.closed then Admission(k, conn, Closed, None)
    else
      var (rate, c, ok) := BothTaken(k.rate, conn, q.now);
      var k1 := k.(rate := rate);
      var place := if q.place == 0 then Next(k.latest) else q.place;
      if !ok then Admission(k1.(refused := k.refused + 1), c, Limited, None)
      else if place <= k.latest then Admission(k1.(superseded := k.superseded + 1), c, Superseded, None)
      else if k.adapter != Some(q.name) && q.adapterFails then
        Admission(k1.(latest := place), c, AdapterError, k.cancel)
      else
        Admission(k1.(latest := place, adapter := Some(q.name), cancel := Some(id)), c, Admitted(id), k.cancel)
  }

  /** A token of the connection's, or the session's given back. */
  method CompRateTake(compRate: Bucket, now: real, session: Bucket) returns (ok: bool)
    requires compRate != session
    modifies compRate, session
    ensures (compRate.View(), ok) == Taken(old(compRate.View()), ConnectionRate, now)
    ensures session.View() == if ok then old(session.View())
                              else old(session.View()).(tokens := old(session.tokens) + 1.0)
  {
    ok := compRate.Take(ConnectionRate, now);
    if !ok {
      session.tokens := session.tokens + 1.0;
    }
  }

  class AcpCompleter {
    const rate: Bucket
    var closed: bool
    var latest: int64
    var cancel: Option<nat>
    var adapter: Option<string>
    var refused: nat
    var superseded: nat

    constructor ()
      ensures View() == NewCompleter && fresh(rate)
    {
      rate := new Bucket();
      closed, latest, cancel, adapter, refused, superseded := false, 0, None, None, 0, 0;
    }

    function View(): Completer
      reads this, rate
    {
      Completer(rate.View(), closed, latest, cancel, adapter, refused, superseded)
    }

    /** `id` is the new context's; `cancels` is the request whose context is cancelled. */
    method Admit(compRate: Bucket, q: Request, id: nat) returns (outcome: Outcome, cancels: Option<nat>)
      requires compRate != rate
      modifies this, rate, compRate
      ensures Admission(View(), compRate.View(), outcome, cancels) == AdmissionOf(old(View()), old(compRate.View()), q, id)
    {
      if closed {
        return Closed, None;
      }
      var ok := rate.Take(SessionRate, q.now);
      if ok {
        ok := CompRateTake(compRate, q.now, rate);
      }
      if !ok {
        refused := refused + 1;
        return Limited, None;
      }
      var place := if q.place == 0 then Next(latest) else q.place;
      if place <= latest {
        superseded := superseded + 1;
        return Superseded, None;
      }
      latest := place;
      cancels := cancel;
      if adapter != Some(q.name) {
        if q.adapterFails {
          return AdapterError, cancels;
        }
        adapter := Some(q.name);
      }
      cancel := Some(id);
      return Admitted(id), cancels;
    }

    method Close() returns (cancels: Option<nat>)
      modifies this
      ensures View() == old(View()).(closed := true) && cancels == old(cancel)
    {
      closed := true;
      return cancel;
    }
  }

  // ---------- What a bucket holds ----------

  lemma OverSum(a: real, b: real, e: real)
    requires e > 0.0
    ensures (a + b) / e == a / e + b / e
  {
  }

  lemma OverOrder(a: real, b: real, e: real)
    requires e > 0.0 && a <= b
    ensures a / e <= b / e
  {
  }

  /** Whatever the clock says a bucket never holds more than its burst, and read in order it never owes. */
  lemma TokensBounded(b: Level, l: Limit, now: real)
    requires Sound(l)
    ensures Taken(b, l, now).0.tokens <= l.burst
    ensures (b.refilled.Some? ==> b.tokens >= 0.0 && b.refilled.value <= now) ==> Taken(b, l, now).0.tokens >= 0.0
  {
    if b.refilled.Some? && b.refilled.value <= now {
      OverOrder(0.0, now - b.refilled.value, l.every);
      NothingOver(l.every);
    }
  }

  /** A bucket not yet used gives a token, and one that owes nothing gives one each `every` at the latest. */
  lemma TokenInTime(b: Level, l: Limit, now: real)
    requires Sound(l)
    requires b.refilled.Some? ==> b.tokens >= 0.0 && now >= b.refilled.value + l.every
    ensures Taken(b, l, now).1
  {
    if b.refilled.Some? {
      OverOrder(l.every, now - b.refilled.value, l.every);
      OverSelf(l.every);
    }
  }

  lemma OverSelf(every: real)
    requires every > 0.0
    ensures every / every == 1.0
  {
  }

  /** A request the connection's bucket refuses leaves the session's as refilling alone would. */
  lemma RefundIsRefill(rate: Level, conn: Level, now: real)
    ensures var (r, c, ok) := BothTaken(rate, conn, now);
            && (!ok ==> r == Refill(rate, SessionRate, now))
            && (ok ==> r == Taken(rate, SessionRate, now).0 && Taken(rate, SessionRate, now).1)
            && (c != conn ==> Taken(rate, SessionRate, now).1)
  {
  }

  /** The most a bucket can still give while the clock reads from `from` to `to`. */
  function Supply(b: Level, l: Limit, from: real, to: real): real
    requires l.every > 0.0
  {
    var full := l.burst + (to - from) / l.every;
    if b.refilled.None? then full else Least(full, b.tokens + (to - b.refilled.value) / l.every)
  }

  /** A token taken comes out of the supply, and a refill adds nothing to it. */
  lemma SupplyKept(b: Level, l: Limit, now: real, from: real, to: real)
    requires Sound(l) && from <= now <= to
    ensures Supply(Refill(b, l, now), l, from, to) <= Supply(b, l, from, to)
    ensures var (t, ok) := Taken(b, l, now);
            && Supply(t, l, from, to) <= Supply(b, l, from, to) - (if ok then 1.0 else 0.0)
            && (ok ==> Supply(t, l, from, to) >= 0.0)
  {
    OverOrder(0.0, to - now, l.every);
    OverOrder(0.0, to - from, l.every);
    OverOrder(to - now, to - from, l.every);
    NothingOver(l.every);
    if b.refilled.Some? {
      OverSum(now - b.refilled.value, to - now, l.every);
    }
  }

  // ---------- Every run of a connection ----------

  /** A session's completer, and the requests it admitted, each with its sequence, oldest first. */
  datatype Session = Session(k: Completer, admitted: seq<(nat, int64)>)

  datatype World = World(conn: Level, sessions: map<nat, Session>, cancelled: set<nat>, next: nat)

  const Start := World(Level(0.0, None), map[], {}, 0)

  datatype Event =
    | Opens(s: nat)
    | Asks(s: nat, q: Request)
    | Cancels(s: nat)
    | Closes(s: nat)
    | Finishes(id: nat)

  /** The sequence a request takes. */
  function Sequence(k: Completer, q: Request): int64 {
    if q.place == 0 then Next(k.latest) else q.place
  }

  function Cancelled(cancelled: set<nat>, c: Option<nat>): set<nat> {
    if c.Some? then cancelled + {c.value} else cancelled
  }

  function Step(w: World, e: Event): World {
    match e
    case Opens(s) =>
      if s in w.sessions then w else w.(sessions := w.sessions[s := Session(NewCompleter, [])])
    case Asks(s, q) =>
      if s !in w.sessions then w
      else
        var v := w.sessions[s];
        var a := AdmissionOf(v.k, w.conn, q, w.next);
        w.(conn := a.conn, cancelled := Cancelled(w.cancelled, a.cancels), next := w.next + 1,
           sessions := w.sessions[s := Session(a.k, if a.outcome.Admitted? then v.admitted + [(w.next, Sequence(v.k, q))]
                                                    else v.admitted)])
    case Cancels(s) =>
      if s in w.sessions then w.(cancelled := Cancelled(w.cancelled, w.sessions[s].k.cancel)) else w
    case Closes(s) =>
      if s !in w.sessions then w
      else
        var v := w.sessions[s];
        w.(cancelled := Cancelled(w.cancelled, v.k.cancel), sessions := w.sessions[s := v.(k := v.k.(closed := true))])
    case Finishes(id) => w.(cancelled := w.cancelled + {id})
  }

  function Run(w: World, es: seq<Event>): World
    decreases |es|
  {
    if es == [] then w else Run(Step(w, es[0]), es[1..])
  }

  /** The event is a request that passes both limits. */
  predicate Passes(w: World, e: Event) {
    && e.Asks? && e.s in w.sessions && !w.sessions[e.s].k.closed
    && BothTaken(w.sessions[e.s].k.rate, w.conn, e.q.now).2
  }

  /** How many requests pass both limits in a stretch: of session `of`, or of all when None. */
  function Passed(w: World, es: seq<Event>, of: Option<nat>): nat
    decreases |es|
  {
    if es == [] then 0
    else (if Passes(w, es[0]) && (of.None? || of.value == es[0].s) then 1 else 0) + Passed(Step(w, es[0]), es[1..], of)
  }

  /** The requests of session `of` (of all when None) read the clock from `from` to `to`. */
  ghost predicate Reads(es: seq<Event>, of: Option<nat>, from: real, to: real) {
    from <= to && forall i :: 0 <= i < |es| && es[i].Asks? && (of.None? || of.value == es[i].s) ==> from <= es[i].q.now <= to
  }

  function RateOf(w: World, s: nat): Level {
    if s in w.sessions then w.sessions[s].k.rate else NewCompleter.rate
  }

  lemma SessionSupply(w: World, e: Event, s: nat, from: real, to: real)
    requires from <= to && (e.Asks? && e.s == s ==> from <= e.q.now <= to)
    ensures var passes := Passes(w, e) && e.s == s;
            && Supply(RateOf(Step(w, e), s), SessionRate, from, to)
               <= Supply(RateOf(w, s), SessionRate, from, to) - (if passes then 1.0 else 0.0)
            && (passes ==> Supply(RateOf(Step(w, e), s), SessionRate, from, to) >= 0.0)
  {
    if e.Asks? && e.s == s && s in w.sessions {
      SupplyKept(w.sessions[s].k.rate, SessionRate, e.q.now, from, to);
      RefundIsRefill(w.sessions[s].k.rate, w.conn, e.q.now);
    }
    hide Supply, Taken, Refill, BothTaken;
  }

  lemma ConnectionSupply(w: World, e: Event, from: real, to: real)
    requires from <= to && (e.Asks? ==> from <= e.q.now <= to)
    ensures var passes := Passes(w, e);
            && Supply(Step(w, e).conn, ConnectionRate, from, to)
               <= Supply(w.conn, ConnectionRate, from, to) - (if passes then 1.0 else 0.0)
            && (passes ==> Supply(Step(w, e).conn, ConnectionRate, from, to) >= 0.0)
  {
    if e.Asks? {
      SupplyKept(w.conn, ConnectionRate, e.q.now, from, to);
    }
    hide Supply, Refill;
  }

  lemma {:induction false} SessionPasses(w: World, es: seq<Event>, s: nat, from: real, to: real)
    requires Reads(es, Some(s), from, to)
    ensures Passed(w, es, Some(s)) == 0 || Passed(w, es, Some(s)) as real <= Supply(RateOf(w, s), SessionRate, from, to)
    decreases |es|
  {
    hide Step, Passes, Supply, RateOf;
    if es != [] {
      SessionSupply(w, es[0], s, from, to);
      SessionPasses(Step(w, es[0]), es[1..], s, from, to);
    }
  }

  lemma {:induction false} ConnectionPasses(w: World, es: seq<Event>, from: real, to: real)
    requires Reads(es, None, from, to)
    ensures Passed(w, es, None) == 0 || Passed(w, es, None) as real <= Supply(w.conn, ConnectionRate, from, to)
    decreases |es|
  {
    hide Step, Passes, Supply;
    if es != [] {
      ConnectionSupply(w, es[0], from, to);
      ConnectionPasses(Step(w, es[0]), es[1..], from, to);
    }
  }

  /**
   In any stretch of any run, whose requests of a session read the clock within `to - from`
   seconds, in whatever order, no more of them pass than the burst and one each `every`.
   */
  lemma SessionRateHolds(before: seq<Event>, es: seq<Event>, s: nat, from: real, to: real)
    requires Reads(es, Some(s), from, to)
    ensures Passed(Run(Start, before), es, Some(s)) as real <= 5.0 + (to - from) / 0.2
  {
    hide Run;
    SessionPasses(Run(Start, before), es, s, from, to);
  }

  /** And over all the sessions of a connection together, no more than the connection's burst and rate. */
  lemma ConnectionRateHolds(before: seq<Event>, es: seq<Event>, from: real, to: real)
    requires Reads(es, None, from, to)
    ensures Passed(Run(Start, before), es, None) as real <= 10.0 + (to - from) / 0.1
  {
    hide Run;
    ConnectionPasses(Run(Start, before), es, from, to);
  }

  // ---------- Buckets never owe ----------

  /** A bucket read no later than `at`: it holds from nothing to its burst. */
  ghost predicate Holds(b: Level, l: Limit, at: real) {
    b.refilled.Some? ==> 0.0 <= b.tokens <= l.burst && b.refilled.value <= at
  }

  /** Each request of the stretch that session `of` (any, when None) makes reads the clock no earlier than the one before it. */
  ghost predicate ReadsInOrder(es: seq<Event>, of: Option<nat>, from: real)
    decreases |es|
  {
    es == [] ||
    (if es[0].Asks? && (of.None? || of.value == es[0].s) then from <= es[0].q.now && ReadsInOrder(es[1..], of, es[0].q.now)
     else ReadsInOrder(es[1..], of, from))
  }

  lemma BothHold(rate: Level, conn: Level, now: real, at: real)
    requires at <= now
    ensures Holds(rate, SessionRate, at) ==> Holds(BothTaken(rate, conn, now).0, SessionRate, now)
    ensures Holds(conn, ConnectionRate, at) ==> Holds(BothTaken(rate, conn, now).1, ConnectionRate, now)
  {
    TokensBounded(rate, SessionRate, now);
    TokensBounded(conn, ConnectionRate, now);
  }

  lemma {:induction false} SessionHolds(w: World, es: seq<Event>, s: nat, at: real) returns (last: real)
    requires ReadsInOrder(es, Some(s), at) && Holds(RateOf(w, s), SessionRate, at)
    ensures Holds(RateOf(Run(w, es), s), SessionRate, last)
    decreases |es|
  {
    hide Holds, BothTaken;
    last := at;
    if es != [] {
      var e := es[0];
      if e.Asks? && e.s == s {
        if s in w.sessions {
          BothHold(w.sessions[s].k.rate, w.conn, e.q.now, at);
        }
        HoldsLater(RateOf(w, s), SessionRate, at, e.q.now);
        last := SessionHolds(Step(w, e), es[1..], s, e.q.now);
      } else {
        last := SessionHolds(Step(w, e), es[1..], s, at);
      }
    }
  }

  lemma HoldsLater(b: Level, l: Limit, at: real, now: real)
    requires Holds(b, l, at) && at <= now
    ensures Holds(b, l, now)
  {
  }

  /** While a session's requests read the clock in order, its bucket holds from no tokens to its burst. */
  lemma SessionNeverOwes(es: seq<Event>, s: nat, from: real)
    requires ReadsInOrder(es, Some(s), from)
    ensures var b := RateOf(Run(Start, es), s); b.refilled.Some? ==> 0.0 <= b.tokens <= 5.0
  {
    hide Run;
    var _ := SessionHolds(Start, es, s, from);
  }

  lemma {:induction false} ConnectionHolds(w: World, es: seq<Event>, at: real) returns (last: real)
    requires ReadsInOrder(es, None, at) && Holds(w.conn, ConnectionRate, at)
    ensures Holds(Run(w, es).conn, ConnectionRate, last)
    decreases |es|
  {
    hide Holds, BothTaken;
    last := at;
    if es != [] {
      var e := es[0];
      if e.Asks? {
        if e.s in w.sessions {
          BothHold(w.sessions[e.s].k.rate, w.conn, e.q.now, at);
        }
        HoldsLater(w.conn, ConnectionRate, at, e.q.now);
        last := ConnectionHolds(Step(w, e), es[1..], e.q.now);
      } else {
        last := ConnectionHolds(Step(w, e), es[1..], at);
      }
    }
  }

  /** While all requests read the clock in order, the connection's bucket does too. */
  lemma ConnectionNeverOwes(es: seq<Event>, from: real)
    requires ReadsInOrder(es, None, from)
    ensures var b := Run(Start, es).conn; b.refilled.Some? ==> 0.0 <= b.tokens <= 10.0
  {
    hide Run;
    var _ := ConnectionHolds(Start, es, from);
  }

  // ---------- Readings out of order ----------

  /**
   A bucket that holds from nothing to its burst owes after a request exactly when that
   reads the clock earlier than the bucket was refilled, by more than what it holds takes to
   refill; the request then gets no token.
   */
  lemma OwesExactly(b: Level, l: Limit, now: real)
    requires Sound(l) && (b.refilled.Some? ==> 0.0 <= b.tokens <= l.burst)
    ensures Taken(b, l, now).0.tokens < 0.0 <==> b.refilled.Some? && b.tokens * l.every < b.refilled.value - now
    ensures Taken(b, l, now).0.tokens < 0.0 ==> !Taken(b, l, now).1
  {
  }

  /** A bucket read between `from` and `to`, which owes nothing once refilled at `to`. */
  ghost predicate OwesLag(b: Level, l: Limit, from: real, to: real)
    requires l.every > 0.0
  {
    b.refilled.Some? ==>
      from <= b.refilled.value <= to && b.tokens <= l.burst && b.tokens + (to - b.refilled.value) / l.every >= 0.0
  }

  lemma LagTaken(b: Level, l: Limit, now: real, from: real, to: real)
    requires Sound(l) && OwesLag(b, l, from, to) && from <= now <= to
    ensures OwesLag(Taken(b, l, now).0, l, from, to)
  {
    OverOrder(0.0, to - now, l.every);
    NothingOver(l.every);
    if b.refilled.Some? {
      OverSum(now - b.refilled.value, to - now, l.every);
    }
  }

  lemma {:induction false} ConnectionLags(w: World, es: seq<Event>, from: real, to: real)
    requires Reads(es, None, from, to) && OwesLag(w.conn, ConnectionRate, from, to)
    ensures OwesLag(Run(w, es).conn, ConnectionRate, from, to)
    decreases |es|
  {
    hide OwesLag, Taken;
    if es != [] {
      if es[0].Asks? {
        LagTaken(w.conn, ConnectionRate, es[0].q.now, from, to);
      }
      ConnectionLags(Step(w, es[0]), es[1..], from, to);
    }
  }

  /**
   In every run, however the sessions' readings are ordered: the connection's bucket owes
   no more than refills over the time its readings span, and once refilled at the latest
   of them owes nothing.
   */
  lemma ConnectionOwesLag(es: seq<Event>, from: real, to: real)
    requires Reads(es, None, from, to)
    ensures var b := Run(Start, es).conn;
            b.refilled.Some? ==> -(to - from) / 0.1 <= b.tokens <= 10.0 && Refill(b, ConnectionRate, to).tokens >= 0.0
  {
    ConnectionLags(Start, es, from, to);
    var b := Run(Start, es).conn;
    hide Run;
    if b.refilled.Some? {
      OverOrder(to - b.refilled.value, to - from, 0.1);
      OverLess(to - from, 0.1);
    }
  }

  lemma OverLess(time: real, every: real)
    requires every > 0.0
    ensures -time / every == -(time / every)
  {
  }

  /** Two sessions' requests reach it: one reads the clock, and another that read it a second and a tenth before is next. */
  lemma ConnectionMayOwe()
    ensures var first, second := Request(1, "m", 10.0, false), Request(1, "m", 8.9, false);
            Run(Start, [Opens(0), Opens(1), Asks(0, first), Asks(1, second)]).conn == Level(-2.0, Some(8.9))
  {
    var first, second := Request(1, "m", 10.0, false), Request(1, "m", 8.9, false);
    var w := Step(Step(Start, Opens(0)), Opens(1));
    var v := Step(w, Asks(0, first));
    RunFirst(Start, Opens(0), [Opens(1), Asks(0, first), Asks(1, second)]);
    RunFirst(Step(Start, Opens(0)), Opens(1), [Asks(0, first), Asks(1, second)]);
    RunFirst(w, Asks(0, first), [Asks(1, second)]);
    RunFirst(v, Asks(1, second), []);
    hide Run;
    assert w.sessions[0].k == NewCompleter && w.sessions[1].k == NewCompleter && w.conn == Start.conn;
    assert v.conn == Level(9.0, Some(10.0)) && v.sessions[1] == w.sessions[1];
  }

  lemma RunFirst(w: World, e: Event, es: seq<Event>)
    ensures Run(w, [e] + es) == Run(Step(w, e), es) && (es == [] ==> Run(w, [e]) == Step(w, e))
  {
    hide Step;
    assert ([e] + es)[1..] == es;
    assert es == [] ==> [e] + es == [e];
  }

  // ---------- Newer requests replace older ones ----------

  /** What a session has admitted: by rising sequence, all but the newest cancelled, and that one too once closed. */
  ghost predicate Ordered(v: Session, cancelled: set<nat>) {
    var n := |v.admitted|;
    && (forall i, j :: 0 <= i < j < n ==> v.admitted[i].1 < v.admitted[j].1)
    && (forall i :: 0 <= i < n ==> v.admitted[i].1 <= v.k.latest)
    && (forall i :: 0 <= i < n - 1 ==> v.admitted[i].0 in cancelled)
    && v.k.cancel == (if n == 0 then None else Some(v.admitted[n - 1].0))
    && (v.k.closed && n > 0 ==> v.admitted[n - 1].0 in cancelled)
  }

  ghost predicate AllOrdered(w: World) {
    forall s :: s in w.sessions ==> Ordered(w.sessions[s], w.cancelled)
  }

  lemma OrderedMore(v: Session, cancelled: set<nat>, more: set<nat>)
    requires Ordered(v, cancelled) && cancelled <= more
    ensures Ordered(v, more)
  {
  }

  lemma AskOrdered(v: Session, conn: Level, q: Request, id: nat, cancelled: set<nat>)
    requires Ordered(v, cancelled)
    ensures var a := AdmissionOf(v.k, conn, q, id);
            Ordered(Session(a.k, if a.outcome.Admitted? then v.admitted + [(id, Sequence(v.k, q))] else v.admitted),
                    Cancelled(cancelled, a.cancels))
  {
    hide BothTaken;
  }

  lemma StepOrdered(w: World, e: Event)
    requires AllOrdered(w)
    ensures AllOrdered(Step(w, e))
  {
    if e.Asks? && e.s in w.sessions {
      AskOrdered(w.sessions[e.s], w.conn, e.q, w.next, w.cancelled);
    } else if e.Closes? && e.s in w.sessions {
      CloseOrdered(w.sessions[e.s], w.cancelled);
    }
    var v := Step(w, e);
    assert w.cancelled <= v.cancelled;
    forall s | s in v.sessions ensures Ordered(v.sessions[s], v.cancelled) {
      if s in w.sessions {
        OrderedMore(w.sessions[s], w.cancelled, v.cancelled);
      } else {
        assert v.sessions[s] == Session(NewCompleter, []);
      }
    }
    hide AdmissionOf;
  }

  lemma CloseOrdered(v: Session, cancelled: set<nat>)
    requires Ordered(v, cancelled)
    ensures Ordered(v.(k := v.k.(closed := true)), Cancelled(cancelled, v.k.cancel))
  {
  }

  lemma {:induction false} RunOrdered(w: World, es: seq<Event>)
    requires AllOrdered(w)
    ensures AllOrdered(Run(w, es))
    decreases |es|
  {
    hide Step, AllOrdered;
    if es != [] {
      StepOrdered(w, es[0]);
      RunOrdered(Step(w, es[0]), es[1..]);
    }
  }

  /**
   Over every run, what a session admits has rising sequences, and every admitted
   request but the newest has been cancelled; once it has closed, that one too.
   */
  lemma NewerReplaces(es: seq<Event>, s: nat)
    ensures var w := Run(Start, es);
            s in w.sessions ==>
              var v := w.sessions[s];
              && (forall i, j :: 0 <= i < j < |v.admitted| ==>
                    v.admitted[i].1 < v.admitted[j].1 && v.admitted[i].0 in w.cancelled)
              && (v.k.closed ==> forall i :: 0 <= i < |v.admitted| ==> v.admitted[i].0 in w.cancelled)
  {
    hide Run;
    RunOrdered(Start, es);
    var w := Run(Start, es);
    if s in w.sessions {
      assert Ordered(w.sessions[s], w.cancelled);
    }
  }
}
