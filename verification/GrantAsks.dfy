/**
 One look for a grant that covers a command, while other goroutines add grants to the
 session's list and take some from it, other processes change the kept grants, and the
 workspace's folder may be made again.
 */
module GrantAsks {
  import opened Basics
  import opened Grants
  import opened GrantStore

  /** What is asked: a command in a folder, of a session with a workspace (`inner`) or without. */
  datatype Ask = Ask(command: string, cwd: string, paths: Paths, key: string, inner: bool)

  /** What the look does next: scan the list, read the file, read the folder's identity, or delete what is not kept. */
  datatype Stage =
    | Scans
    | Reads(g: BashGrant)
    | Compares(g: BashGrant, read: File)
    | Deletes(g: BashGrant)
    | Done(hit: Option<BashGrant>)

  datatype World = World(file: File, folder: string, grants: seq<BashGrant>, stage: Stage)

  /** The look's own next step, or something another goroutine or process does between two of them. */
  datatype Move =
    | Own
    | Adds(g: BashGrant)
    | Removes(g: BashGrant)
    | Changes(e: Event)
    | Remade(folder: string)

  predicate CoversAsk(a: Ask, g: BashGrant) {
    Covers(g, a.command, a.cwd, a.paths)
  }

  function Scanned(a: Ask, grants: seq<BashGrant>): Stage {
    var i := FirstCovering(grants, a.command, a.cwd, a.paths);
    if i == |grants| then Done(None)
    else if grants[i].session || !a.inner then Done(Some(grants[i]))
    else Reads(grants[i])
  }

  function OwnStep(a: Ask, w: World): World {
    match w.stage
    case Scans => w.(stage := Scanned(a, w.grants))
    case Reads(g) => w.(stage := Compares(g, w.file))
    case Compares(g, read) => w.(stage := if StillKept(read, a.key, w.folder, g) then Done(Some(g)) else Deletes(g))
    case Deletes(g) => w.(grants := Without(w.grants, g), stage := Scans)
    case Done(_) => w
  }

  function Then(a: Ask, w: World, m: Move): World {
    match m
    case Own => OwnStep(a, w)
    case Adds(g) => w.(grants := if g in w.grants then w.grants else w.grants + [g])
    case Removes(g) => w.(grants := Without(w.grants, g))
    case Changes(e) => w.(file := Step(w.file, e).0)
    case Remade(folder) => w.(folder := folder)
  }

  function After(a: Ask, w: World, ms: seq<Move>): World
    decreases |ms|
  {
    if ms == [] then w else Then(a, After(a, w, ms[..|ms| - 1]), ms[|ms| - 1])
  }

  /** The world after the first `n` moves. */
  function At(a: Ask, w: World, ms: seq<Move>, n: nat): World
    requires n <= |ms|
  {
    After(a, w, ms[..n])
  }

  lemma AtNext(a: Ask, w: World, ms: seq<Move>, n: nat)
    requires n < |ms|
    ensures At(a, w, ms, n + 1) == Then(a, At(a, w, ms, n), ms[n])
  {
    assert ms[..n + 1][..n] == ms[..n];
    hide Then;
  }

  // ---------- What an answer rests on ----------

  /** Within the first `n` moves the grant was in the list. */
  ghost predicate Listed(a: Ask, w: World, ms: seq<Move>, n: nat, g: BashGrant)
    requires n <= |ms|
  {
    CoversAsk(a, g) && exists i: nat :: i <= n && g in At(a, w, ms, i).grants
  }

  /** Within the first `n` moves the file was as it was read. */
  ghost predicate WasFile(a: Ask, w: World, ms: seq<Move>, n: nat, read: File)
    requires n <= |ms|
  {
    exists j: nat :: j <= n && At(a, w, ms, j).file == read
  }

  /** Within the first `n` moves the file was read, and after it the folder, and the grant found kept, or not. */
  ghost predicate LookedUp(a: Ask, w: World, ms: seq<Move>, n: nat, g: BashGrant, kept: bool)
    requires n <= |ms|
  {
    exists j: nat, k: nat :: j <= k <= n && StillKept(At(a, w, ms, j).file, a.key, At(a, w, ms, k).folder, g) == kept
  }

  /** Within the first `n` moves no grant in the list covered the command. */
  ghost predicate NoneListed(a: Ask, w: World, ms: seq<Move>, n: nat)
    requires n <= |ms|
  {
    exists i: nat :: i <= n && NoneCovers(a, At(a, w, ms, i).grants)
  }

  ghost predicate NoneCovers(a: Ask, grants: seq<BashGrant>) {
    forall g :: g in grants ==> !CoversAsk(a, g)
  }

  ghost predicate Backed(a: Ask, w: World, ms: seq<Move>, n: nat)
    requires n <= |ms|
  {
    match At(a, w, ms, n).stage
    case Scans => true
    case Reads(g) => Listed(a, w, ms, n, g)
    case Compares(g, read) => Listed(a, w, ms, n, g) && WasFile(a, w, ms, n, read)
    case Deletes(g) => Listed(a, w, ms, n, g) && LookedUp(a, w, ms, n, g, false)
    case Done(Some(g)) => Listed(a, w, ms, n, g) && (g.session || !a.inner || LookedUp(a, w, ms, n, g, true))
    case Done(None) => NoneListed(a, w, ms, n)
  }

  lemma StaysTrue(a: Ask, w: World, ms: seq<Move>, n: nat, g: BashGrant)
    requires n < |ms|
    ensures Listed(a, w, ms, n, g) ==> Listed(a, w, ms, n + 1, g)
    ensures forall kept :: LookedUp(a, w, ms, n, g, kept) ==> LookedUp(a, w, ms, n + 1, g, kept)
  {
    hide At, StillKept, CoversAsk;
  }

  lemma NoneStays(a: Ask, w: World, ms: seq<Move>, n: nat)
    requires n < |ms| && NoneListed(a, w, ms, n)
    ensures NoneListed(a, w, ms, n + 1)
  {
    hide At, NoneCovers;
  }

  lemma FileStays(a: Ask, w: World, ms: seq<Move>, n: nat, read: File)
    requires n < |ms|
    ensures WasFile(a, w, ms, n, At(a, w, ms, n).file)
    ensures WasFile(a, w, ms, n, read) ==> WasFile(a, w, ms, n + 1, read)
  {
    hide At;
  }

  lemma ListedNow(a: Ask, w: World, ms: seq<Move>, n: nat, g: BashGrant)
    requires n <= |ms| && CoversAsk(a, g) && g in At(a, w, ms, n).grants
    ensures Listed(a, w, ms, n, g)
  {
    hide At, CoversAsk;
  }

  lemma NoneNow(a: Ask, w: World, ms: seq<Move>, n: nat)
    requires n <= |ms| && NoneCovers(a, At(a, w, ms, n).grants)
    ensures NoneListed(a, w, ms, n)
  {
    hide At, NoneCovers;
  }

  lemma ComparedNow(a: Ask, w: World, ms: seq<Move>, n: nat, g: BashGrant, read: File)
    requires n <= |ms| && WasFile(a, w, ms, n, read)
    ensures LookedUp(a, w, ms, n, g, StillKept(read, a.key, At(a, w, ms, n).folder, g))
  {
    hide At, StillKept;
    var j: nat :| j <= n && At(a, w, ms, j).file == read;
    assert StillKept(At(a, w, ms, j).file, a.key, At(a, w, ms, n).folder, g)
        == StillKept(read, a.key, At(a, w, ms, n).folder, g);
  }

  lemma ScanFinds(a: Ask, grants: seq<BashGrant>)
    ensures match Scanned(a, grants)
            case Done(None) => NoneCovers(a, grants)
            case Done(Some(g)) => g in grants && CoversAsk(a, g) && (g.session || !a.inner)
            case Reads(g) => g in grants && CoversAsk(a, g)
            case _ => false
  {
    hide Covers;
  }

  lemma ScanBacked(a: Ask, w: World, ms: seq<Move>, n: nat)
    requires n < |ms| && ms[n].Own? && At(a, w, ms, n).stage.Scans?
    ensures Backed(a, w, ms, n + 1)
  {
    AtNext(a, w, ms, n);
    var grants := At(a, w, ms, n).grants;
    ScanFinds(a, grants);
    hide At, Scanned, CoversAsk, Listed, NoneListed, LookedUp, WasFile;
    match Scanned(a, grants)
    case Done(Some(g)) => ListedNow(a, w, ms, n + 1, g);
    case Done(None) => NoneNow(a, w, ms, n + 1);
    case Reads(g) => ListedNow(a, w, ms, n + 1, g);
  }

  lemma LookBacked(a: Ask, w: World, ms: seq<Move>, n: nat)
    requires n < |ms| && ms[n].Own? && Backed(a, w, ms, n) && !At(a, w, ms, n).stage.Scans?
    ensures Backed(a, w, ms, n + 1)
  {
    AtNext(a, w, ms, n);
    hide At, StillKept, Listed, NoneListed, LookedUp, WasFile;
    match At(a, w, ms, n).stage
    case Reads(g) =>
      StaysTrue(a, w, ms, n, g);
      FileStays(a, w, ms, n, At(a, w, ms, n).file);
    case Compares(g, read) => CompareBacked(a, w, ms, n, g, read);
    case Deletes(_) =>
    case Done(_) => DoneBacked(a, w, ms, n);
  }

  lemma CompareBacked(a: Ask, w: World, ms: seq<Move>, n: nat, g: BashGrant, read: File)
    requires n < |ms| && Backed(a, w, ms, n) && At(a, w, ms, n).stage == Compares(g, read)
    requires At(a, w, ms, n + 1).stage
          == if StillKept(read, a.key, At(a, w, ms, n).folder, g) then Done(Some(g)) else Deletes(g)
    ensures Backed(a, w, ms, n + 1)
  {
    hide At, StillKept, Listed, NoneListed, LookedUp, WasFile;
    StaysTrue(a, w, ms, n, g);
    ComparedNow(a, w, ms, n, g, read);
  }

  lemma DoneBacked(a: Ask, w: World, ms: seq<Move>, n: nat)
    requires n < |ms| && Backed(a, w, ms, n) && At(a, w, ms, n).stage.Done?
    requires At(a, w, ms, n + 1).stage == At(a, w, ms, n).stage
    ensures Backed(a, w, ms, n + 1)
  {
    hide At, Listed, NoneListed, LookedUp, WasFile;
    match At(a, w, ms, n).stage.hit
    case Some(g) => StaysTrue(a, w, ms, n, g);
    case None => NoneStays(a, w, ms, n);
  }

  lemma OtherBacked(a: Ask, w: World, ms: seq<Move>, n: nat)
    requires n < |ms| && !ms[n].Own? && Backed(a, w, ms, n)
    ensures Backed(a, w, ms, n + 1)
  {
    AtNext(a, w, ms, n);
    assert At(a, w, ms, n + 1).stage == At(a, w, ms, n).stage by {
      hide At, Step, Without;
    }
    hide At, Listed, NoneListed, LookedUp, WasFile, Then;
    match At(a, w, ms, n).stage
    case Scans =>
    case Reads(g) => StaysTrue(a, w, ms, n, g);
    case Compares(g, read) =>
      StaysTrue(a, w, ms, n, g);
      FileStays(a, w, ms, n, read);
    case Deletes(g) => StaysTrue(a, w, ms, n, g);
    case Done(_) => DoneBacked(a, w, ms, n);
  }

  lemma {:induction false} AlwaysBacked(a: Ask, w: World, ms: seq<Move>, n: nat)
    requires w.stage.Scans? && n <= |ms|
    ensures Backed(a, w, ms, n)
  {
    hide Backed, Then;
    if n == 0 {
      assert ms[..0] == [] && At(a, w, ms, 0) == w;
      assert Backed(a, w, ms, 0) by {
        StartBacked(a, w, ms);
      }
    } else {
      AlwaysBacked(a, w, ms, n - 1);
      if !ms[n - 1].Own? {
        OtherBacked(a, w, ms, n - 1);
      } else if At(a, w, ms, n - 1).stage.Scans? {
        ScanBacked(a, w, ms, n - 1);
      } else {
        LookBacked(a, w, ms, n - 1);
      }
    }
  }

  lemma StartBacked(a: Ask, w: World, ms: seq<Move>)
    requires w.stage.Scans?
    ensures Backed(a, w, ms, 0)
  {
  }

  /**
   Whatever others do meanwhile: a grant that answers covers the command and was in the
   list, and unless it is a session's own was kept in the file when that was read, for the
   folder as it was then or later; no answer means there was a time at which no grant in
   the list covered the command.
   */
  lemma AnswerRests(a: Ask, w: World, ms: seq<Move>)
    requires w.stage.Scans? && After(a, w, ms).stage.Done?
    ensures match After(a, w, ms).stage.hit
            case Some(g) => Listed(a, w, ms, |ms|, g) && (g.session || !a.inner || LookedUp(a, w, ms, |ms|, g, true))
            case None => NoneListed(a, w, ms, |ms|)
  {
    AlwaysBacked(a, w, ms, |ms|);
    AtEnd(a, w, ms);
    hide After, At, Backed, Listed, LookedUp, NoneListed;
    match After(a, w, ms).stage.hit
    case Some(g) => BackedSome(a, w, ms, |ms|, g);
    case None => BackedNone(a, w, ms, |ms|);
  }

  lemma AtEnd(a: Ask, w: World, ms: seq<Move>)
    ensures At(a, w, ms, |ms|) == After(a, w, ms)
  {
    assert ms[..|ms|] == ms;
    hide After;
  }

  lemma BackedSome(a: Ask, w: World, ms: seq<Move>, n: nat, g: BashGrant)
    requires n <= |ms| && Backed(a, w, ms, n) && At(a, w, ms, n).stage == Done(Some(g))
    ensures Listed(a, w, ms, n, g) && (g.session || !a.inner || LookedUp(a, w, ms, n, g, true))
  {
    hide At, Listed, LookedUp, NoneListed, WasFile;
  }

  lemma BackedNone(a: Ask, w: World, ms: seq<Move>, n: nat)
    requires n <= |ms| && Backed(a, w, ms, n) && At(a, w, ms, n).stage == Done(None)
    ensures NoneListed(a, w, ms, n)
  {
    hide At, Listed, LookedUp, NoneListed, WasFile;
  }

  // ---------- A revoked grant ----------

  /** No move keeps the grant named `id` for the workspace. */
  predicate NoneKeeps(ms: seq<Move>, key: string, id: GrantId) {
    forall i :: 0 <= i < |ms| ==> !(ms[i].Changes? && KeepsIt(ms[i].e, key, id))
  }

  lemma {:induction false} StaysForgotten(a: Ask, w: World, ms: seq<Move>, n: nat, id: GrantId)
    requires n <= |ms| && Forgotten(w.file, a.key, id) && NoneKeeps(ms, a.key, id)
    ensures Forgotten(At(a, w, ms, n).file, a.key, id)
  {
    hide Forgotten, KeepsIt, Step, Without, StillKept;
    if n == 0 {
      assert At(a, w, ms, 0) == w;
    } else {
      StaysForgotten(a, w, ms, n - 1, id);
      AtNext(a, w, ms, n - 1);
      var m := ms[n - 1];
      if m.Changes? {
        StepForgotten(At(a, w, ms, n - 1).file, m.e, a.key, id);
      }
    }
  }

  /**
   A grant revoked before the look began, and kept by no process since, answers nothing
   unless it is a session's own, even if other goroutines put it in the session's list
   while the look is under way.
   */
  lemma RevokedNeverAnswers(a: Ask, w: World, ms: seq<Move>, es: seq<Event>, id: GrantId, disk: Disk, more: seq<Event>)
    requires a.inner && w.stage.Scans? && NoneKeeps(ms, a.key, id)
    requires !Dropped(Run(Missing, es), a.key, id, disk).1
    requires w.file == Run(Missing, es + [Drops(a.key, id, disk)] + more)
    requires forall i :: 0 <= i < |more| ==> !KeepsIt(more[i], a.key, id)
    ensures var s := After(a, w, ms).stage; s.Done? && s.hit.Some? && Id(s.hit.value) == id ==> s.hit.value.session
  {
    DropHolds(es, a.key, id, disk, more);
    var s := After(a, w, ms).stage;
    hide Run, Dropped, Forgotten, KeepsIt, NoneKeeps, LookedUp, Listed, NoneListed, After;
    if s.Done? && s.hit.Some? && Id(s.hit.value) == id && !s.hit.value.session {
      AnswerRests(a, w, ms);
      NeverKept(a, w, ms, s.hit.value);
      assert false;
    }
  }

  lemma NeverKept(a: Ask, w: World, ms: seq<Move>, g: BashGrant)
    requires Forgotten(w.file, a.key, Id(g)) && NoneKeeps(ms, a.key, Id(g))
    ensures !LookedUp(a, w, ms, |ms|, g, true)
  {
    hide Forgotten, NoneKeeps, StillKept, At;
    forall j: nat, k: nat | j <= k <= |ms| ensures !StillKept(At(a, w, ms, j).file, a.key, At(a, w, ms, k).folder, g) {
      StaysForgotten(a, w, ms, j, Id(g));
      ForgottenNotKept(At(a, w, ms, j).file, a.key, At(a, w, ms, k).folder, g);
    }
  }

  // ---------- A grant given while another look is under way ----------

  /** The look has found the grant not kept, or will when it next compares the folder. */
  predicate Doomed(a: Ask, w: World, g: BashGrant) {
    w.stage == Deletes(g) || (w.stage.Compares? && w.stage.g == g && !StillKept(w.stage.read, a.key, w.folder, g))
  }

  /** The person has given the grant: it is kept for the folder and in the session's list. */
  predicate Given(a: Ask, w: World, g: BashGrant) {
    Holding(w.file, a.key, w.folder, g) && g in w.grants
  }

  /** A move of others that takes the grant from the list or from the file, or the folder from it. */
  predicate TakesAway(a: Ask, folder: string, m: Move, g: BashGrant) {
    match m
    case Removes(h) => h == g
    case Changes(e) => Takes(e, a.key, folder, Id(g))
    case Remade(_) => true
    case _ => false
  }

  lemma HoldingKept(f: File, key: string, folder: string, g: BashGrant)
    requires Holding(f, key, folder, g)
    ensures StillKept(f, key, folder, g)
  {
    hide Has;
  }

  lemma GivenStep(a: Ask, w: World, m: Move, g: BashGrant)
    requires Given(a, w, g) && !Doomed(a, w, g) && !TakesAway(a, w.folder, m, g)
    ensures var t := Then(a, w, m); Given(a, t, g) && !Doomed(a, t, g) && t.folder == w.folder
  {
    HoldingKept(w.file, a.key, w.folder, g);
    hide Holding, StillKept, Step, FirstCovering, Takes;
    if m.Changes? {
      StepHolding(w.file, m.e, a.key, w.folder, g);
    }
  }

  lemma {:induction false} GivenRun(a: Ask, w: World, ms: seq<Move>, g: BashGrant)
    requires Given(a, w, g) && !Doomed(a, w, g) && forall i :: 0 <= i < |ms| ==> !TakesAway(a, w.folder, ms[i], g)
    ensures var t := After(a, w, ms); Given(a, t, g) && !Doomed(a, t, g) && t.folder == w.folder
    decreases |ms|
  {
    hide Given, Doomed, TakesAway, Then;
    if ms != [] {
      GivenRun(a, w, ms[..|ms| - 1], g);
      GivenStep(a, After(a, w, ms[..|ms| - 1]), ms[|ms| - 1], g);
    }
  }

  /**
   A grant given while a look is under way stays in the session's list, whatever that
   look and others that do not take it away do, if and only if the look had not found it
   missing before: then the look deletes what was just given.
   */
  lemma GivenStays(a: Ask, w: World, g: BashGrant)
    requires Given(a, w, g)
    ensures (forall ms :: (forall i :: 0 <= i < |ms| ==> !TakesAway(a, w.folder, ms[i], g)) ==> g in After(a, w, ms).grants)
            <==> !Doomed(a, w, g)
  {
    if !Doomed(a, w, g) {
      forall ms | forall i :: 0 <= i < |ms| ==> !TakesAway(a, w.folder, ms[i], g) ensures g in After(a, w, ms).grants {
        GivenRun(a, w, ms, g);
      }
    } else {
      var ms := if w.stage.Deletes? then [Own] else [Own, Own];
      DoomedGoes(a, w, g);
      hide After, Given, Doomed;
      assert forall i :: 0 <= i < |ms| ==> !TakesAway(a, w.folder, ms[i], g);
    }
  }

  lemma DoomedGoes(a: Ask, w: World, g: BashGrant)
    requires Doomed(a, w, g)
    ensures g !in After(a, w, if w.stage.Deletes? then [Own] else [Own, Own]).grants
  {
    hide StillKept, FirstCovering;
    OneMove(a, w, Own);
    TwoMoves(a, w, Own, Own);
  }

  lemma OneMove(a: Ask, w: World, m: Move)
    ensures After(a, w, [m]) == Then(a, w, m)
  {
    hide Then;
    assert [m][..0] == [] && After(a, w, []) == w;
  }

  lemma TwoMoves(a: Ask, w: World, m: Move, n: Move)
    ensures After(a, w, [m, n]) == Then(a, Then(a, w, m), n)
  {
    hide Then;
    OneMove(a, w, m);
    assert [m, n][..1] == [m];
  }

  /**
   That is reached: with the grant in the list and gone from the file, the look reads the
   file and finds nothing; the person gives the grant again, and it is kept, and in the list
   already; the look deletes it and answers nothing.
   */
  lemma GivenAgainIsLost(a: Ask, folder: string, g: BashGrant, now: Time)
    requires a.inner && !g.session && CoversAsk(a, g)
    ensures var w := World(Missing, folder, [g], Scans);
            var t := After(a, w, [Own, Own, Own] + [Changes(Keeps(a.key, folder, g, now, Works)), Adds(g)] + [Own, Own]);
            t.stage == Done(None) && StillKept(t.file, a.key, folder, g)
  {
    var w := World(Missing, folder, [g], Scans);
    var keeps := Changes(Keeps(a.key, folder, g, now, Works));
    FoundMissing(a, w, g);
    var missed := w.(stage := Deletes(g));
    var kept := missed.(file := Step(Missing, keeps.e).0);
    GivenNow(a, missed, g, now);
    DeletesLast(a, kept, g);
    hide After;
    JoinedTwice(a, w, [Own, Own, Own], [keeps, Adds(g)], [Own, Own]);
  }

  lemma GivenNow(a: Ask, w: World, g: BashGrant, now: Time)
    requires !g.session && w.file.Missing? && g in w.grants
    ensures var e := Keeps(a.key, w.folder, g, now, Works); var f := Step(Missing, e).0;
            After(a, w, [Changes(e), Adds(g)]) == w.(file := f) && StillKept(f, a.key, w.folder, g)
  {
    var e := Keeps(a.key, w.folder, g, now, Works);
    KeepHolding(Missing, a.key, w.folder, g, now, Works);
    assert Step(Missing, e) == Kept(Missing, a.key, w.folder, g, now, Works);
    hide Step, Kept, After, Holding;
    HoldingKept(Step(Missing, e).0, a.key, w.folder, g);
    TwoMoves(a, w, Changes(e), Adds(g));
    hide StillKept;
  }

  /** The look at a grant listed alone, in a file not there. */
  lemma FoundMissing(a: Ask, w: World, g: BashGrant)
    requires a.inner && !g.session && CoversAsk(a, g) && w.grants == [g] && w.stage.Scans? && w.file.Missing?
    ensures After(a, w, [Own, Own, Own]) == w.(stage := Deletes(g))
  {
    hide Covers, After;
    ScanFinds(a, [g]);
    TwoMoves(a, w, Own, Own);
    Moves(a, w, [Own, Own], Own);
    assert [Own, Own] + [Own] == [Own, Own, Own];
    assert !StillKept(Missing, a.key, w.folder, g);
  }

  lemma DeletesLast(a: Ask, w: World, g: BashGrant)
    requires w.grants == [g] && w.stage == Deletes(g)
    ensures After(a, w, [Own, Own]) == w.(grants := [], stage := Done(None))
  {
    hide Covers, After;
    TwoMoves(a, w, Own, Own);
    assert Without([g], g) == [];
    assert Scanned(a, []) == Done(None);
  }

  lemma {:induction false} Joined(a: Ask, w: World, ms: seq<Move>, more: seq<Move>)
    ensures After(a, w, ms + more) == After(a, After(a, w, ms), more)
    decreases |more|
  {
    hide Then;
    if more == [] {
      assert ms + more == ms;
    } else {
      var n := |more| - 1;
      assert (ms + more)[..|ms| + n] == ms + more[..n] && (ms + more)[|ms| + n] == more[n];
      Joined(a, w, ms, more[..n]);
    }
  }

  lemma JoinedTwice(a: Ask, w: World, p: seq<Move>, q: seq<Move>, r: seq<Move>)
    ensures After(a, w, p + q + r) == After(a, After(a, After(a, w, p), q), r)
  {
    Joined(a, w, p, q);
    Joined(a, w, p + q, r);
    hide After;
  }

  lemma Moves(a: Ask, w: World, ms: seq<Move>, m: Move)
    ensures After(a, w, ms + [m]) == Then(a, After(a, w, ms), m)
  {
    hide Then;
    assert (ms + [m])[..|ms|] == ms;
  }
}
