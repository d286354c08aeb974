/**
 The workspaces' kept bash grants: one file every process changes under its lock,
 and each session's own list, whose kept grants are looked up again before they answer.
 */
module GrantStore {
  import opened Basics
  import opened Grants

  type Time = nat

  datatype KeptGrant = KeptGrant(grant: BashGrant, at: Time)

  /** One workspace's grants, and the identity of the folder they were kept for. */
  datatype Entry = Entry(folder: string, grants: seq<KeptGrant>, listenAgreedAt: Option<Time>)

  type Store = map<string, Entry>

  /** The file: not there, holding something else, or holding the workspaces. */
  datatype File = Missing | Unreadable | Holds(store: Store)

  /** How far a change's write gets. */
  datatype Disk = Works | CannotLock | CannotSetAside | CannotWrite

  /** A grant's name, as its hash has it: the same for no two commands, families or folders. */
  datatype GrantId = GrantId(command: string, family: string, folder: string)

  function Id(g: BashGrant): GrantId {
    GrantId(g.command, g.family, g.folder)
  }

  function ReadKeptGrants(f: File): (Store, bool) {
    match f
    case Missing => (map[], false)
    case Unreadable => (map[], true)
    case Holds(store) => (store, false)
  }

  /** The file after a change to `store` is written, and whether the change failed. */
  function Written(f: File, store: Store, disk: Disk): (File, bool) {
    match disk
    case Works => (Holds(store), false)
    case CannotLock => (f, true)
    case CannotSetAside => if f.Unreadable? then (f, true) else (Holds(store), false)
    case CannotWrite => (if f.Unreadable? then Missing else f, true)
  }

  /** A change as the file takes it: None writes nothing. */
  function Changed(f: File, change: Store -> Option<Store>, disk: Disk): (File, bool) {
    if disk.CannotLock? then (f, true)
    else
      match change(ReadKeptGrants(f).0)
      case None => (f, false)
      case Some(store) => Written(f, store, disk)
  }

  predicate Has(grants: seq<KeptGrant>, g: BashGrant) {
    exists i :: 0 <= i < |grants| && grants[i].grant == g
  }

  /** Where the first grant named `id` is; past the end when there is none. */
  function Find(grants: seq<KeptGrant>, id: GrantId): (n: nat)
    ensures n <= |grants|
    ensures forall i :: 0 <= i < n ==> Id(grants[i].grant) != id
    ensures n < |grants| ==> Id(grants[n].grant) == id
  {
    if grants == [] || Id(grants[0].grant) == id then 0 else 1 + Find(grants[1..], id)
  }

  // ---------- The changes ----------

  /** The entry for a workspace whose folder is now `folder`; a folder made again there has an empty one. */
  function EntryFor(k: Store, key: string, folder: string): Entry {
    if key in k && k[key].folder == folder then k[key] else Entry(folder, [], None)
  }

  function Keep(k: Store, key: string, folder: string, g: BashGrant, now: Time): Option<Store> {
    var e := EntryFor(k, key, folder);
    if Has(e.grants, g) then None else Some(k[key := e.(grants := e.grants + [KeptGrant(g, now)])])
  }

  function Drop(k: Store, key: string, id: GrantId): Option<Store> {
    if key !in k then None
    else
      var e := k[key];
      var i := Find(e.grants, id);
      if i == |e.grants| then None
      else
        var left := e.grants[..i] + e.grants[i + 1..];
        Some(if left == [] && e.listenAgreedAt.None? then k - {key} else k[key := e.(grants := left)])
  }

  function Listen(k: Store, key: string, folder: string, on: bool, now: Time): Option<Store> {
    if on then Some(k[key := EntryFor(k, key, folder).(listenAgreedAt := Some(now))])
    else if key !in k || k[key].folder != folder then None
    else if k[key].grants == [] then Some(k - {key})
    else Some(k[key := k[key].(listenAgreedAt := None)])
  }

  /** A workspace's entry, if it was kept for this folder or for one without identity. */
  function KeptFor(f: File, key: string, folder: string): Option<Entry> {
    var k := ReadKeptGrants(f).0;
    if key !in k || (k[key].folder != "" && k[key].folder != folder) then None else Some(k[key])
  }

  predicate StillKept(f: File, key: string, folder: string, g: BashGrant) {
    KeptFor(f, key, folder).Some? && Has(KeptFor(f, key, folder).value.grants, g)
  }

  class GrantsFile {
    var file: File

    constructor ()
      ensures file == Missing
    {
      file := Missing;
    }

    method ChangeKeptGrants(change: Store -> Option<Store>, disk: Disk) returns (failed: bool)
      modifies this
      ensures (file, failed) == Changed(old(file), change, disk)
    {
      if disk.CannotLock? {
        return true;
      }
      var (k, bad) := ReadKeptGrants(file);
      var changed := change(k);
      if changed.None? {
        return false;
      }
      if bad {
        if disk.CannotSetAside? {
          return true;
        }
        file := Missing;
      }
      if disk.CannotWrite? {
        return true;
      }
      file := Holds(changed.value);
      return false;
    }

    method KeepGrant(key: string, folder: string, g: BashGrant, now: Time, disk: Disk) returns (failed: bool)
      modifies this
      ensures (file, failed) == Kept(old(file), key, folder, g, now, disk)
    {
      if g.session {
        return false;
      }
      failed := ChangeKeptGrants(k => Keep(k, key, folder, g, now), disk);
    }

    method DropGrant(key: string, id: GrantId, disk: Disk) returns (gone: Option<BashGrant>, failed: bool)
      modifies this
      ensures (file, failed) == Dropped(old(file), key, id, disk)
      ensures gone.Some? ==> !failed && Id(gone.value) == id
      ensures gone.Some? <==> !failed && Drop(ReadKeptGrants(old(file)).0, key, id).Some?
    {
      var k := ReadKeptGrants(file).0;
      failed := ChangeKeptGrants(store => Drop(store, key, id), disk);
      if failed || key !in k {
        return None, failed;
      }
      var i := 0;
      while i < |k[key].grants| && Id(k[key].grants[i].grant) != id
        invariant 0 <= i <= Find(k[key].grants, id)
      {
        i := i + 1;
      }
      gone := if i < |k[key].grants| then Some(k[key].grants[i].grant) else None;
    }

    method SetListenAgreed(key: string, folder: string, on: bool, now: Time, disk: Disk) returns (failed: bool)
      modifies this
      ensures (file, failed) == Agreed(old(file), key, folder, on, now, disk)
    {
      failed := ChangeKeptGrants(k => Listen(k, key, folder, on, now), disk);
    }
  }

  function Kept(f: File, key: string, folder: string, g: BashGrant, now: Time, disk: Disk): (File, bool) {
    if g.session then (f, false) else Changed(f, k => Keep(k, key, folder, g, now), disk)
  }

  function Dropped(f: File, key: string, id: GrantId, disk: Disk): (File, bool) {
    Changed(f, k => Drop(k, key, id), disk)
  }

  function Agreed(f: File, key: string, folder: string, on: bool, now: Time, disk: Disk): (File, bool) {
    Changed(f, k => Listen(k, key, folder, on, now), disk)
  }

  // ---------- Every run of changes, by any number of processes ----------

  datatype Event =
    | Keeps(key: string, folder: string, g: BashGrant, now: Time, disk: Disk)
    | Drops(key: string, id: GrantId, disk: Disk)
    | Listens(key: string, folder: string, on: bool, now: Time, disk: Disk)

  function Step(f: File, e: Event): (File, bool) {
    match e
    case Keeps(key, folder, g, now, disk) => Kept(f, key, folder, g, now, disk)
    case Drops(key, id, disk) => Dropped(f, key, id, disk)
    case Listens(key, folder, on, now, disk) => Agreed(f, key, folder, on, now, disk)
  }

  function Run(f: File, es: seq<Event>): File
    decreases |es|
  {
    if es == [] then f else Run(Step(f, es[0]).0, es[1..])
  }

  /** An entry as every change leaves it: named grants kept once, none for a session alone, and not empty. */
  ghost predicate GoodEntry(e: Entry) {
    && (forall i, j :: 0 <= i < j < |e.grants| ==> Id(e.grants[i].grant) != Id(e.grants[j].grant))
    && (forall i :: 0 <= i < |e.grants| ==> !e.grants[i].grant.session)
    && (e.grants != [] || e.listenAgreedAt.Some?)
  }

  ghost predicate Good(k: Store) {
    forall key :: key in k ==> GoodEntry(k[key])
  }

  ghost predicate GoodFile(f: File) {
    f.Holds? ==> Good(f.store)
  }

  lemma KeepGood(k: Store, key: string, folder: string, g: BashGrant, now: Time)
    requires Good(k) && !g.session && Keep(k, key, folder, g, now).Some?
    ensures Good(Keep(k, key, folder, g, now).value)
  {
    var e := EntryFor(k, key, folder);
    forall i | 0 <= i < |e.grants| ensures Id(e.grants[i].grant) != Id(g) {
      assert e.grants[i].grant != g;
    }
    assert GoodEntry(e.(grants := e.grants + [KeptGrant(g, now)]));
  }

  lemma DropGood(k: Store, key: string, id: GrantId)
    requires Good(k) && Drop(k, key, id).Some?
    ensures Good(Drop(k, key, id).value)
  {
    var e := k[key];
    var i := Find(e.grants, id);
    var left := e.grants[..i] + e.grants[i + 1..];
    if left != [] || e.listenAgreedAt.Some? {
      assert GoodEntry(e);
      assert GoodEntry(e.(grants := left));
    }
  }

  lemma StepGood(f: File, e: Event)
    requires GoodFile(f)
    ensures GoodFile(Step(f, e).0)
  {
    var k := ReadKeptGrants(f).0;
    hide Keep, Drop, GoodEntry;
    match e
    case Keeps(key, folder, g, now, _) =>
      if !g.session && Keep(k, key, folder, g, now).Some? {
        KeepGood(k, key, folder, g, now);
      }
    case Drops(key, id, _) =>
      if Drop(k, key, id).Some? {
        DropGood(k, key, id);
      }
    case Listens(key, folder, on, now, _) =>
      ListenGood(k, key, folder, on, now);
      hide Listen;
  }

  lemma ListenGood(k: Store, key: string, folder: string, on: bool, now: Time)
    requires Good(k)
    ensures Listen(k, key, folder, on, now).Some? ==> Good(Listen(k, key, folder, on, now).value)
  {
    if key in k {
      assert GoodEntry(k[key]);
    }
  }

  lemma {:induction false} RunGood(f: File, es: seq<Event>)
    requires GoodFile(f)
    ensures GoodFile(Run(f, es))
    decreases |es|
  {
    hide Step, GoodFile;
    if es != [] {
      StepGood(f, es[0]);
      RunGood(Step(f, es[0]).0, es[1..]);
    }
  }

  /**
   From no file, however changes and their failures interleave: a workspace's grants
   have different names, none is a session's own, and no entry is left with neither a
   grant nor an agreement to listen.
   */
  lemma {:induction false} KeptOnce(es: seq<Event>, key: string)
    ensures var k := ReadKeptGrants(Run(Missing, es)).0; key in k ==> GoodEntry(k[key])
  {
    RunGood(Missing, es);
  }

  // ---------- A revoke holds ----------

  /** No grant named `id` is kept for the workspace, whatever folder is there. */
  ghost predicate Forgotten(f: File, key: string, id: GrantId) {
    ForgottenIn(ReadKeptGrants(f).0, key, id)
  }

  ghost predicate ForgottenIn(k: Store, key: string, id: GrantId) {
    key in k ==> forall i :: 0 <= i < |k[key].grants| ==> Id(k[key].grants[i].grant) != id
  }

  /** The event keeps the grant named `id` for the workspace. */
  predicate KeepsIt(e: Event, key: string, id: GrantId) {
    e.Keeps? && e.key == key && Id(e.g) == id
  }

  lemma ForgottenNotKept(f: File, key: string, folder: string, g: BashGrant)
    requires Forgotten(f, key, Id(g))
    ensures !StillKept(f, key, folder, g)
  {
  }

  lemma StepForgotten(f: File, e: Event, key: string, id: GrantId)
    requires Forgotten(f, key, id) && !KeepsIt(e, key, id)
    ensures Forgotten(Step(f, e).0, key, id)
  {
    var k := ReadKeptGrants(f).0;
    match e
    case Keeps(at, folder, g, now, disk) =>
      if !g.session && Keep(k, at, folder, g, now).Some? {
        KeepForgotten(k, at, folder, g, now, key, id);
      }
      hide Keep, ForgottenIn;
    case Drops(at, i, disk) =>
      if Drop(k, at, i).Some? {
        DropForgotten(k, at, i, key, id);
      }
      hide Drop, ForgottenIn;
    case Listens(at, folder, on, now, disk) =>
      ListenForgotten(k, at, folder, on, now, key, id);
      hide Listen, ForgottenIn;
  }

  lemma KeepForgotten(k: Store, at: string, folder: string, g: BashGrant, now: Time, key: string, id: GrantId)
    requires ForgottenIn(k, key, id) && !(at == key && Id(g) == id) && Keep(k, at, folder, g, now).Some?
    ensures ForgottenIn(Keep(k, at, folder, g, now).value, key, id)
  {
    hide Has;
  }

  lemma DropForgotten(k: Store, at: string, i: GrantId, key: string, id: GrantId)
    requires ForgottenIn(k, key, id) && Drop(k, at, i).Some?
    ensures ForgottenIn(Drop(k, at, i).value, key, id)
  {
    hide Find;
  }

  lemma ListenForgotten(k: Store, at: string, folder: string, on: bool, now: Time, key: string, id: GrantId)
    requires ForgottenIn(k, key, id)
    ensures Listen(k, at, folder, on, now).Some? ==> ForgottenIn(Listen(k, at, folder, on, now).value, key, id)
  {
  }

  lemma {:induction false} RunForgotten(f: File, es: seq<Event>, key: string, id: GrantId)
    requires Forgotten(f, key, id)
    requires forall i :: 0 <= i < |es| ==> !KeepsIt(es[i], key, id)
    ensures Forgotten(Run(f, es), key, id)
    decreases |es|
  {
    hide Step, Forgotten, KeepsIt;
    if es != [] {
      StepForgotten(f, es[0], key, id);
      RunForgotten(Step(f, es[0]).0, es[1..], key, id);
    }
  }

  lemma {:induction false} RunSplit(f: File, es: seq<Event>, more: seq<Event>)
    ensures Run(f, es + more) == Run(Run(f, es), more)
    decreases |es|
  {
    hide Step;
    if es == [] {
      assert es + more == more;
    } else {
      assert (es + more)[0] == es[0] && (es + more)[1..] == es[1..] + more;
      RunSplit(Step(f, es[0]).0, es[1..], more);
    }
  }

  lemma DropForgets(f: File, key: string, id: GrantId, disk: Disk)
    requires GoodFile(f) && !Dropped(f, key, id, disk).1
    ensures Forgotten(Dropped(f, key, id, disk).0, key, id)
  {
    var k := ReadKeptGrants(f).0;
    if key in k {
      var e := k[key];
      assert GoodEntry(e);
      var i := Find(e.grants, id);
      if i < |e.grants| {
        var left := e.grants[..i] + e.grants[i + 1..];
        assert forall j :: 0 <= j < |left| ==> left[j] == e.grants[if j < i then j else j + 1];
      }
    }
  }

  lemma {:induction false} DropHolds(es: seq<Event>, key: string, id: GrantId, disk: Disk, more: seq<Event>)
    requires !Dropped(Run(Missing, es), key, id, disk).1
    requires forall i :: 0 <= i < |more| ==> !KeepsIt(more[i], key, id)
    ensures Forgotten(Run(Missing, es + [Drops(key, id, disk)] + more), key, id)
  {
    var f := Run(Missing, es);
    var e := Drops(key, id, disk);
    RunGood(Missing, es);
    DropForgets(f, key, id, disk);
    RunSplit(Missing, es + [e], more);
    RunSplit(Missing, es, [e]);
    assert Run(f, [e]) == Step(f, e).0 by {
      assert [e][1..] == [];
    }
    hide Dropped, Run;
    RunForgotten(Step(f, e).0, more, key, id);
  }

  /**
   A grant dropped without failure is kept no more, for any folder at the workspace,
   whatever any process changes after, until one keeps that grant there again.
   */
  lemma {:induction false} RevokeHolds(es: seq<Event>, key: string, id: GrantId, disk: Disk, more: seq<Event>, folder: string, g: BashGrant)
    requires !Dropped(Run(Missing, es), key, id, disk).1 && Id(g) == id
    requires forall i :: 0 <= i < |more| ==> !KeepsIt(more[i], key, id)
    ensures !StillKept(Run(Missing, es + [Drops(key, id, disk)] + more), key, folder, g)
  {
    hide Dropped, Run;
    DropHolds(es, key, id, disk, more);
    ForgottenNotKept(Run(Missing, es + [Drops(key, id, disk)] + more), key, folder, g);
  }

  // ---------- A grant kept stays kept ----------

  /** An event that can take the grant named `id`, kept for `folder`, from the workspace. */
  predicate Takes(e: Event, key: string, folder: string, id: GrantId) {
    match e
    case Keeps(k, f, g, _, _) => k == key && f != folder && !g.session
    case Drops(k, i, _) => k == key && i == id
    case Listens(k, f, on, _, _) => k == key && f != folder && on
  }

  predicate Holding(f: File, key: string, folder: string, g: BashGrant) {
    var k := ReadKeptGrants(f).0;
    key in k && k[key].folder == folder && Has(k[key].grants, g)
  }

  lemma StepHolding(f: File, e: Event, key: string, folder: string, g: BashGrant)
    requires Holding(f, key, folder, g) && !Takes(e, key, folder, Id(g))
    ensures Holding(Step(f, e).0, key, folder, g)
  {
    var k := ReadKeptGrants(f).0;
    match e
    case Keeps(at, to, h, now, _) =>
      if at == key {
        HasMore(k[key].grants, h, now, g);
      }
      hide Has;
    case Drops(at, id, _) =>
      if at == key {
        HasLeft(k[key].grants, id, g);
      }
      hide Has, Find;
    case Listens(_, _, _, _, _) =>
      HasSome(k[key].grants, g);
      hide Has;
  }

  lemma HasSome(grants: seq<KeptGrant>, g: BashGrant)
    requires Has(grants, g)
    ensures grants != []
  {
  }

  lemma HasMore(grants: seq<KeptGrant>, h: BashGrant, now: Time, g: BashGrant)
    requires Has(grants, g)
    ensures Has(grants + [KeptGrant(h, now)], g)
  {
    var at :| 0 <= at < |grants| && grants[at].grant == g;
    assert (grants + [KeptGrant(h, now)])[at].grant == g;
  }

  lemma HasLeft(grants: seq<KeptGrant>, id: GrantId, g: BashGrant)
    requires Has(grants, g) && id != Id(g)
    ensures var i := Find(grants, id); i < |grants| ==> grants[..i] + grants[i + 1..] != [] && Has(grants[..i] + grants[i + 1..], g)
  {
    var at :| 0 <= at < |grants| && grants[at].grant == g;
    var i := Find(grants, id);
    if i < |grants| {
      assert (grants[..i] + grants[i + 1..])[if at < i then at else at - 1].grant == g;
    }
  }

  lemma {:induction false} RunHolding(f: File, es: seq<Event>, key: string, folder: string, g: BashGrant)
    requires Holding(f, key, folder, g)
    requires forall i :: 0 <= i < |es| ==> !Takes(es[i], key, folder, Id(g))
    ensures Holding(Run(f, es), key, folder, g)
    decreases |es|
  {
    hide Step, Holding, Takes;
    if es != [] {
      StepHolding(f, es[0], key, folder, g);
      RunHolding(Step(f, es[0]).0, es[1..], key, folder, g);
    }
  }

  /**
   A grant kept without failure is found kept for that folder, whatever is changed
   after, until it is dropped or another folder at the workspace keeps something.
   */
  lemma {:induction false} KeepHolds(es: seq<Event>, key: string, folder: string, g: BashGrant, now: Time, disk: Disk, more: seq<Event>)
    requires !g.session && !Kept(Run(Missing, es), key, folder, g, now, disk).1
    requires forall i :: 0 <= i < |more| ==> !Takes(more[i], key, folder, Id(g))
    ensures StillKept(Run(Missing, es + [Keeps(key, folder, g, now, disk)] + more), key, folder, g)
  {
    var f := Run(Missing, es);
    var e := Keeps(key, folder, g, now, disk);
    RunSplit(Missing, es + [e], more);
    RunSplit(Missing, es, [e]);
    assert Run(f, [e]) == Step(f, e).0 by {
      assert [e][1..] == [];
    }
    KeepHolding(f, key, folder, g, now, disk);
    hide Kept, Run;
    RunHolding(Step(f, e).0, more, key, folder, g);
  }

  lemma KeepHolding(f: File, key: string, folder: string, g: BashGrant, now: Time, disk: Disk)
    requires !g.session && !Kept(f, key, folder, g, now, disk).1
    ensures Holding(Kept(f, key, folder, g, now, disk).0, key, folder, g)
  {
    var k := ReadKeptGrants(f).0;
    var e := EntryFor(k, key, folder);
    var more := e.grants + [KeptGrant(g, now)];
    assert more[|e.grants|].grant == g;
  }

  // ---------- The agreement to listen ----------

  /** When the person let commands listen at the workspace, for the folder there now. */
  function ListenAgreed(f: File, key: string, folder: string): Option<Time> {
    var kept := KeptFor(f, key, folder);
    if kept.Some? then kept.value.listenAgreedAt else None
  }

  /** The entry was kept where the folder had no identity, so it answers for any folder there. */
  predicate ForAnyFolder(f: File, key: string) {
    var k := ReadKeptGrants(f).0;
    key in k && k[key].folder == ""
  }

  /** Agreeing without failure is found agreed, and takes no grant kept for that folder away. */
  lemma AgreementKept(f: File, key: string, folder: string, now: Time, disk: Disk, g: BashGrant)
    requires !Agreed(f, key, folder, true, now, disk).1
    ensures var t := Agreed(f, key, folder, true, now, disk).0;
            && ListenAgreed(t, key, folder) == Some(now)
            && (Holding(f, key, folder, g) ==> StillKept(t, key, folder, g))
  {
    hide Has;
  }

  /**
   Forgetting the agreement without failure leaves it not found, unless it was kept for
   any folder and the folder there now has an identity: then nothing is forgotten.
   */
  lemma AgreementForgotten(f: File, key: string, folder: string, now: Time, disk: Disk)
    requires !Agreed(f, key, folder, false, now, disk).1
    ensures ListenAgreed(Agreed(f, key, folder, false, now, disk).0, key, folder).None?
            <==> !(ForAnyFolder(f, key) && folder != "" && ListenAgreed(f, key, folder).Some?)
  {
  }

  /** One change reaches it: agreeing where the folder has no identity, then forgetting where it has one. */
  lemma AgreementOutlivesForgetting()
    ensures var f := Run(Missing, [Listens("w", "", true, 0, Works)]);
            && !Agreed(f, "w", "x", false, 1, Works).1
            && ListenAgreed(Agreed(f, "w", "x", false, 1, Works).0, "w", "x") == Some(0)
  {
  }

  // ---------- A session's grants ----------

  /** What one lookup of the workspace finds: the file then, and the identity of the folder then. */
  datatype Look = Look(file: File, folder: string)

  predicate Answers(look: Look, key: string, inner: bool, g: BashGrant) {
    g.session || !inner || StillKept(look.file, key, look.folder, g)
  }

  function Without(grants: seq<BashGrant>, g: BashGrant): (left: seq<BashGrant>)
    ensures |left| <= |grants|
    ensures forall h :: h in left <==> h in grants && h != g
    ensures g in grants ==> |left| < |grants|
  {
    if grants == [] then []
    else if grants[0] == g then Without(grants[1..], g)
    else [grants[0]] + Without(grants[1..], g)
  }

  class SessionGrants {
    var grants: seq<BashGrant>

    method AddGrant(g: BashGrant)
      modifies this
      ensures grants == if g in old(grants) then old(grants) else old(grants) + [g]
    {
      if g !in grants {
        grants := grants + [g];
      }
    }

    /**
     The grant that covers `command`, if any. The file is looked up at each kept grant
     that covers it, and may have been changed by others between one look and the next;
     look number `looked` is the one the answer rests on, those before it found nothing.
     */
    method GrantFor(command: string, cwd: string, paths: Paths, key: string, inner: bool, looks: nat -> Look)
      returns (hit: Option<BashGrant>, looked: nat)
      modifies this
      ensures (hit, grants, looked) == GrantForFrom(old(grants), command, cwd, paths, key, inner, looks, 0)
      ensures hit.Some? ==> hit.value in grants && Covers(hit.value, command, cwd, paths)
                            && Answers(looks(looked), key, inner, hit.value)
      ensures hit.None? ==> forall g :: g in grants ==> !Covers(g, command, cwd, paths)
      ensures forall g :: g in grants ==> g in old(grants)
      ensures forall g :: g in old(grants) && g !in grants ==>
                Covers(g, command, cwd, paths) && exists k: nat :: k < looked && !Answers(looks(k), key, inner, g)
    {
      hide Covers, StillKept, GrantForFrom;
      GrantForAnswers(grants, command, cwd, paths, key, inner, looks, 0);
      looked := 0;
      while true
        invariant GrantForFrom(grants, command, cwd, paths, key, inner, looks, looked)
               == GrantForFrom(old(grants), command, cwd, paths, key, inner, looks, 0)
        decreases |grants|
      {
        GrantForOnce(grants, command, cwd, paths, key, inner, looks, looked);
        var i := 0;
        while i < |grants| && !Covers(grants[i], command, cwd, paths)
          invariant 0 <= i <= FirstCovering(grants, command, cwd, paths)
        {
          i := i + 1;
        }
        if i == |grants| {
          return None, looked;
        }
        var g := grants[i];
        if g.session || !inner {
          return Some(g), looked;
        }
        var look := looks(looked);
        var kept := StillKept(look.file, key, look.folder, g);
        if kept {
          return Some(g), looked;
        }
        grants := Without(grants, g);
        looked := looked + 1;
      }
    }
  }

  /** Where the first grant that counts is; past the end when there is none. */
  function First(grants: seq<BashGrant>, counts: BashGrant -> bool): (n: nat)
    ensures n <= |grants|
    ensures forall i :: 0 <= i < n ==> !counts(grants[i])
    ensures n < |grants| ==> counts(grants[n])
  {
    if grants == [] || counts(grants[0]) then 0 else 1 + First(grants[1..], counts)
  }

  /** Where the first grant covering `command` is; past the end when there is none. */
  function FirstCovering(grants: seq<BashGrant>, command: string, cwd: string, paths: Paths): (n: nat)
    ensures n <= |grants|
    ensures forall i :: 0 <= i < n ==> !Covers(grants[i], command, cwd, paths)
    ensures n < |grants| ==> Covers(grants[n], command, cwd, paths)
  {
    First(grants, g => Covers(g, command, cwd, paths))
  }

  /** The answer, the grants left, and the look it rests on, from look number `n` on. */
  function GrantForFrom(grants: seq<BashGrant>, command: string, cwd: string, paths: Paths, key: string, inner: bool,
                        looks: nat -> Look, n: nat): (Option<BashGrant>, seq<BashGrant>, nat)
    decreases |grants|
  {
    var i := FirstCovering(grants, command, cwd, paths);
    if i == |grants| then (None, grants, n)
    else if Answers(looks(n), key, inner, grants[i]) then (Some(grants[i]), grants, n)
    else GrantForFrom(Without(grants, grants[i]), command, cwd, paths, key, inner, looks, n + 1)
  }

  lemma GrantForOnce(grants: seq<BashGrant>, command: string, cwd: string, paths: Paths, key: string, inner: bool,
                     looks: nat -> Look, n: nat)
    ensures var i := FirstCovering(grants, command, cwd, paths);
            GrantForFrom(grants, command, cwd, paths, key, inner, looks, n)
            == if i == |grants| then (None, grants, n)
               else if Answers(looks(n), key, inner, grants[i]) then (Some(grants[i]), grants, n)
               else GrantForFrom(Without(grants, grants[i]), command, cwd, paths, key, inner, looks, n + 1)
  {
    hide Answers, FirstCovering, Without;
  }

  /**
   The grant that answers is one of the session's, covers the command, and unless it was
   given for the session alone was found kept at the last look made; with no answer no
   grant left covers the command. A grant goes only if it covers the command and was found
   no longer kept at a look before the last.
   */
  lemma {:induction false} GrantForAnswers(grants: seq<BashGrant>, command: string, cwd: string, paths: Paths, key: string,
                                           inner: bool, looks: nat -> Look, n: nat)
    ensures var (hit, left, at) := GrantForFrom(grants, command, cwd, paths, key, inner, looks, n);
            && n <= at <= n + |grants|
            && (hit.Some? ==> hit.value in left && Covers(hit.value, command, cwd, paths) && Answers(looks(at), key, inner, hit.value))
            && (hit.None? ==> forall g :: g in left ==> !Covers(g, command, cwd, paths))
            && (forall g :: g in left ==> g in grants)
            && (forall g :: g in grants && g !in left ==>
                  Covers(g, command, cwd, paths) && exists k :: n <= k < at && !Answers(looks(k), key, inner, g))
    decreases |grants|
  {
    hide Covers, Answers;
    var i := FirstCovering(grants, command, cwd, paths);
    if i < |grants| && !Answers(looks(n), key, inner, grants[i]) {
      var rest := Without(grants, grants[i]);
      GrantForAnswers(rest, command, cwd, paths, key, inner, looks, n + 1);
      GrantForOnce(grants, command, cwd, paths, key, inner, looks, n);
      hide GrantForFrom, FirstCovering;
      assert forall g :: g in grants && g !in rest ==> g == grants[i];
    }
  }

  /**
   A grant dropped without failure answers nothing, at whatever points of whatever
   changes come after the file is looked up, unless it is a session's own, or some process
   has kept it there again.
   */
  lemma RevokedAnswersNothing(grants: seq<BashGrant>, command: string, cwd: string, paths: Paths, looks: nat -> Look,
                              es: seq<Event>, key: string, id: GrantId, disk: Disk, more: nat -> seq<Event>)
    requires !Dropped(Run(Missing, es), key, id, disk).1
    requires forall n :: looks(n).file == Run(Missing, es + [Drops(key, id, disk)] + more(n))
    requires forall n, i :: 0 <= i < |more(n)| ==> !KeepsIt(more(n)[i], key, id)
    ensures var hit := GrantForFrom(grants, command, cwd, paths, key, true, looks, 0).0;
            hit.Some? && Id(hit.value) == id ==> hit.value.session
  {
    hide GrantForFrom, Covers, Run, Dropped, KeepsIt, Forgotten;
    GrantForAnswers(grants, command, cwd, paths, key, true, looks, 0);
    var (hit, _, at) := GrantForFrom(grants, command, cwd, paths, key, true, looks, 0);
    DropHolds(es, key, id, disk, more(at));
    if hit.Some? && Id(hit.value) == id {
      ForgottenNotKept(looks(at).file, key, looks(at).folder, hit.value);
      hide StillKept;
    }
  }

  /** With the file and the folder as they are throughout, the answer is the first grant that covers the command and answers. */
  lemma {:induction false} GrantForFirst(grants: seq<BashGrant>, command: string, cwd: string, paths: Paths, key: string,
                                         inner: bool, look: Look, n: nat)
    ensures var hit := GrantForFrom(grants, command, cwd, paths, key, inner, _ => look, n).0;
            var i := First(grants, g => Covers(g, command, cwd, paths) && Answers(look, key, inner, g));
            hit == if i == |grants| then None else Some(grants[i])
    decreases |grants|
  {
    hide Covers, Answers;
    var i := FirstCovering(grants, command, cwd, paths);
    var counts := g => Covers(g, command, cwd, paths) && Answers(look, key, inner, g);
    GrantForOnce(grants, command, cwd, paths, key, inner, _ => look, n);
    if i < |grants| && !Answers(look, key, inner, grants[i]) {
      var rest := Without(grants, grants[i]);
      GrantForFirst(rest, command, cwd, paths, key, inner, look, n + 1);
      FirstKept(grants, grants[i], counts);
    } else {
      FirstIs(grants, i, counts);
    }
    hide GrantForFrom, FirstCovering, First, Without;
  }

  lemma FirstIs(grants: seq<BashGrant>, i: nat, counts: BashGrant -> bool)
    requires i <= |grants| && (forall j :: 0 <= j < i ==> !counts(grants[j])) && (i < |grants| ==> counts(grants[i]))
    ensures First(grants, counts) == i
  {
  }

  /** Leaving out a grant that does not count changes no first one that does. */
  lemma {:induction false} FirstKept(grants: seq<BashGrant>, out: BashGrant, counts: BashGrant -> bool)
    requires !counts(out)
    ensures var rest := Without(grants, out); var i, j := First(grants, counts), First(rest, counts);
            if i == |grants| then j == |rest| else j < |rest| && rest[j] == grants[i]
  {
    hide First;
    if grants != [] {
      var g, more := grants[0], grants[1..];
      assert grants == [g] + more;
      FirstKept(more, out, counts);
      FirstNext(g, more, counts);
      WithoutNext(g, more, out);
      hide Without;
      if g != out {
        FirstNext(g, Without(more, out), counts);
      }
    }
  }

  lemma WithoutNext(g: BashGrant, tail: seq<BashGrant>, out: BashGrant)
    ensures Without([g] + tail, out) == if g == out then Without(tail, out) else [g] + Without(tail, out)
  {
    assert ([g] + tail)[1..] == tail;
  }

  lemma FirstNext(g: BashGrant, tail: seq<BashGrant>, counts: BashGrant -> bool)
    ensures First([g] + tail, counts) == if counts(g) then 0 else 1 + First(tail, counts)
  {
    assert ([g] + tail)[1..] == tail;
  }
}
