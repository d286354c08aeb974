/**
 The work panel's tree: jobs listed under the jobs that started them, depth first. A
 parent that is the conversation, or not among the jobs, is the root; parents may form
 cycles, which never reach it.
 */
module WorkTree {

  datatype Job = Job(id: string, parent: string)

  datatype Row = Row(job: Job, depth: nat)

  /** The root's name, which no job has. */
  const Root := ""

  /** Jobs as they come: each with a name of its own, and none the root's. */
  predicate Named(jobs: seq<Job>) {
    && (forall i :: 0 <= i < |jobs| ==> jobs[i].id != Root)
    && (forall i, j :: 0 <= i < j < |jobs| ==> jobs[i].id != jobs[j].id)
  }

  predicate Known(jobs: seq<Job>, id: string) {
    exists i :: 0 <= i < |jobs| && jobs[i].id == id
  }

  /** The job a job is listed under, or the root. */
  function Under(jobs: seq<Job>, mainId: string, j: Job): string {
    if j.parent == mainId || !Known(jobs, j.parent) then Root else j.parent
  }

  /** The jobs among the first `n` listed under `parent`, in order. */
  function ChildrenTo(jobs: seq<Job>, mainId: string, parent: string, n: nat): seq<Job>
    requires n <= |jobs|
  {
    if n == 0 then []
    else ChildrenTo(jobs, mainId, parent, n - 1) + if Under(jobs, mainId, jobs[n - 1]) == parent then [jobs[n - 1]] else []
  }

  function Children(jobs: seq<Job>, mainId: string, parent: string): seq<Job> {
    ChildrenTo(jobs, mainId, parent, |jobs|)
  }

  // ---------- Chains of parents ----------

  /** A job named `id` is listed under `under`. */
  ghost predicate Link(jobs: seq<Job>, mainId: string, id: string, under: string) {
    exists i :: 0 <= i < |jobs| && jobs[i].id == id && Under(jobs, mainId, jobs[i]) == under
  }

  /** What name `k` is listed under: the one before it, or the root. */
  function Before(names: seq<string>, k: nat): string
    requires k <= |names|
  {
    if k == 0 then Root else names[k - 1]
  }

  /** The names from the root down, each a job listed under the one before it. */
  ghost predicate Chain(jobs: seq<Job>, mainId: string, names: seq<string>) {
    forall k :: 0 <= k < |names| ==> Link(jobs, mainId, names[k], Before(names, k))
  }

  /** The job's chain of parents reaches the root. */
  ghost predicate Reaches(jobs: seq<Job>, mainId: string, j: Job) {
    exists above :: Chain(jobs, mainId, above + [j.id])
  }

  lemma LinkUnique(jobs: seq<Job>, mainId: string, id: string, a: string, b: string)
    requires Named(jobs) && Link(jobs, mainId, id, a) && Link(jobs, mainId, id, b)
    ensures a == b && id != Root
  {
    hide Under;
  }

  lemma ChainAt(jobs: seq<Job>, mainId: string, names: seq<string>, k: nat)
    requires Named(jobs) && Chain(jobs, mainId, names) && k < |names|
    ensures Link(jobs, mainId, names[k], Before(names, k)) && names[k] != Root
  {
    hide Under;
  }

  lemma ChainPrefix(jobs: seq<Job>, mainId: string, names: seq<string>, n: nat)
    requires Chain(jobs, mainId, names) && n <= |names|
    ensures Chain(jobs, mainId, names[..n])
  {
    hide Link;
    forall k | 0 <= k < n ensures Link(jobs, mainId, names[..n][k], Before(names[..n], k)) {
      assert Link(jobs, mainId, names[k], Before(names, k));
    }
  }

  /** A chain is the only one to its last job. */
  lemma {:induction false} ChainUnique(jobs: seq<Job>, mainId: string, a: seq<string>, b: seq<string>)
    requires Named(jobs) && Chain(jobs, mainId, a) && Chain(jobs, mainId, b)
    requires a != [] && b != [] && a[|a| - 1] == b[|b| - 1]
    ensures a == b
    decreases |a|
  {
    hide Link, Named, Chain;
    var m, n := |a| - 1, |b| - 1;
    ChainAt(jobs, mainId, a, m);
    ChainAt(jobs, mainId, b, n);
    LinkUnique(jobs, mainId, a[m], Before(a, m), Before(b, n));
    ChainPrefix(jobs, mainId, a, m);
    ChainPrefix(jobs, mainId, b, n);
    if m > 0 {
      ChainAt(jobs, mainId, a, m - 1);
    }
    if n > 0 {
      ChainAt(jobs, mainId, b, n - 1);
    }
    if m > 0 {
      ChainUnique(jobs, mainId, a[..m], b[..n]);
    }
    assert a == a[..m] + [a[m]] && b == b[..n] + [b[n]];
  }

  /** No job is in a chain twice, so a chain is no longer than there are jobs. */
  lemma ChainLength(jobs: seq<Job>, mainId: string, names: seq<string>)
    requires Named(jobs) && Chain(jobs, mainId, names)
    ensures |names| <= |jobs|
  {
    var ids := set i | 0 <= i < |jobs| :: jobs[i].id;
    forall n | n in names ensures n in ids {
      var k :| 0 <= k < |names| && names[k] == n;
      assert Link(jobs, mainId, names[k], Before(names, k));
    }
    hide Chain, Named, Link;
    forall i, j | 0 <= i < j < |names| ensures names[i] != names[j] {
      ChainTwice(jobs, mainId, names, i, j);
    }
    Distinct(names, ids);
    Few(jobs);
  }

  lemma ChainTwice(jobs: seq<Job>, mainId: string, names: seq<string>, i: nat, j: nat)
    requires Named(jobs) && Chain(jobs, mainId, names) && i < j < |names|
    ensures names[i] != names[j]
  {
    hide Chain, Named;
    ChainPrefix(jobs, mainId, names, i + 1);
    ChainPrefix(jobs, mainId, names, j + 1);
    assert |names[..i + 1]| < |names[..j + 1]|;
    if names[i] == names[j] {
      ChainUnique(jobs, mainId, names[..i + 1], names[..j + 1]);
    }
  }

  lemma {:induction false} Distinct(names: seq<string>, ids: set<string>)
    requires forall i, j :: 0 <= i < j < |names| ==> names[i] != names[j]
    requires forall n :: n in names ==> n in ids
    ensures |names| <= |ids|
    decreases |names|
  {
    if names != [] {
      assert names[0] in names;
      assert forall n :: n in names[1..] ==> n in names && n != names[0];
      Distinct(names[1..], ids - {names[0]});
    }
  }

  lemma {:induction false} Few(jobs: seq<Job>)
    ensures |set i | 0 <= i < |jobs| :: jobs[i].id| <= |jobs|
    decreases |jobs|
  {
    var all := set i | 0 <= i < |jobs| :: jobs[i].id;
    if jobs == [] {
      assert all == {};
    } else {
      var init := jobs[..|jobs| - 1];
      var some := set i | 0 <= i < |init| :: init[i].id;
      Few(init);
      assert all == some + {jobs[|jobs| - 1].id} by {
        forall x | x in all ensures x in some + {jobs[|jobs| - 1].id} {
          var i :| 0 <= i < |jobs| && jobs[i].id == x;
          if i < |init| {
            assert init[i].id == x;
          }
        }
        forall x | x in some ensures x in all {
          var i :| 0 <= i < |init| && init[i].id == x;
          assert jobs[i].id == x;
        }
      }
    }
  }

  lemma {:induction false} ChildrenAre(jobs: seq<Job>, mainId: string, parent: string, n: nat)
    requires n <= |jobs|
    ensures forall j :: j in ChildrenTo(jobs, mainId, parent, n)
              <==> exists i :: 0 <= i < n && jobs[i] == j && Under(jobs, mainId, j) == parent
  {
    hide Under;
    if n > 0 {
      ChildrenAre(jobs, mainId, parent, n - 1);
    }
  }

  /** `above` is a chain, and `js` are children of its last (of the root, when it is empty). */
  ghost predicate Listed(jobs: seq<Job>, mainId: string, js: seq<Job>, above: seq<string>) {
    && Named(jobs) && Chain(jobs, mainId, above)
    && forall j :: j in js ==> j in jobs && Under(jobs, mainId, j) == Before(above, |above|)
  }

  lemma JobLink(jobs: seq<Job>, mainId: string, j: Job)
    requires j in jobs
    ensures Link(jobs, mainId, j.id, Under(jobs, mainId, j))
  {
    hide Under;
  }

  lemma ChainMore(jobs: seq<Job>, mainId: string, above: seq<string>, j: Job)
    requires Chain(jobs, mainId, above) && j in jobs && Under(jobs, mainId, j) == Before(above, |above|)
    ensures Chain(jobs, mainId, above + [j.id])
  {
    hide Link, Under, Before;
    JobLink(jobs, mainId, j);
    var names := above + [j.id];
    forall k | 0 <= k < |names| ensures Link(jobs, mainId, names[k], Before(names, k)) {
      BeforeMore(above, j.id, k);
      if k < |above| {
        assert names[k] == above[k] && Link(jobs, mainId, above[k], Before(above, k));
      }
    }
  }

  lemma BeforeMore(above: seq<string>, id: string, k: nat)
    requires k <= |above|
    ensures Before(above + [id], k) == Before(above, k)
  {
  }

  lemma ChainDown(jobs: seq<Job>, mainId: string, js: seq<Job>, above: seq<string>, j: Job)
    requires Listed(jobs, mainId, js, above) && j in js
    ensures Chain(jobs, mainId, above + [j.id]) && |above| < |jobs|
    ensures Listed(jobs, mainId, Children(jobs, mainId, j.id), above + [j.id])
  {
    hide Chain, Under, Named;
    ChainMore(jobs, mainId, above, j);
    ChainLength(jobs, mainId, above + [j.id]);
    ChildrenAre(jobs, mainId, j.id, |jobs|);
  }

  // ---------- The tree ----------

  /** A job with the names of the jobs above it, the root's child first. */
  datatype Entry = Entry(job: Job, above: seq<string>)

  function Rows(entries: seq<Entry>): (rows: seq<Row>)
    ensures |rows| == |entries|
    ensures forall i :: 0 <= i < |rows| ==> rows[i] == Row(entries[i].job, |entries[i].above| + 1)
  {
    seq(|entries|, i requires 0 <= i < |entries| => Row(entries[i].job, |entries[i].above| + 1))
  }

  /** Each of `js` followed by everything under it. */
  function Walk(jobs: seq<Job>, mainId: string, js: seq<Job>, above: seq<string>): seq<Entry>
    requires Listed(jobs, mainId, js, above)
    decreases |jobs| - |above|, |js|
  {
    if js == [] then []
    else
      var j := js[0];
      ChainDown(jobs, mainId, js, above, j);
      assert forall g :: g in js[1..] ==> g in js;
      [Entry(j, above)] + Walk(jobs, mainId, Children(jobs, mainId, j.id), above + [j.id])
      + Walk(jobs, mainId, js[1..], above)
  }

  lemma WalkNone(jobs: seq<Job>, mainId: string, js: seq<Job>, above: seq<string>)
    requires Listed(jobs, mainId, js, above) && js == []
    ensures Rows(Walk(jobs, mainId, js, above)) == []
  {
  }

  lemma WalkStep(jobs: seq<Job>, mainId: string, js: seq<Job>, above: seq<string>)
    requires js != [] && Listed(jobs, mainId, js, above)
    ensures |above| < |jobs|
    ensures Listed(jobs, mainId, js[1..], above) && Listed(jobs, mainId, Children(jobs, mainId, js[0].id), above + [js[0].id])
    ensures Walk(jobs, mainId, js, above)
         == [Entry(js[0], above)] + Walk(jobs, mainId, Children(jobs, mainId, js[0].id), above + [js[0].id])
            + Walk(jobs, mainId, js[1..], above)
  {
    hide Listed, Children;
    ListedTail(jobs, mainId, js, above);
    ChainDown(jobs, mainId, js, above, js[0]);
  }

  /** The rows of one job: its own, those under it, and those of the jobs after it. */
  lemma RowsStep(jobs: seq<Job>, mainId: string, js: seq<Job>, above: seq<string>)
    requires js != [] && Listed(jobs, mainId, js, above)
    ensures |above| < |jobs|
    ensures Listed(jobs, mainId, js[1..], above) && Listed(jobs, mainId, Children(jobs, mainId, js[0].id), above + [js[0].id])
    ensures Rows(Walk(jobs, mainId, js, above))
         == [Row(js[0], |above| + 1)] + Rows(Walk(jobs, mainId, Children(jobs, mainId, js[0].id), above + [js[0].id]))
            + Rows(Walk(jobs, mainId, js[1..], above))
  {
    hide Listed, Children, Walk;
    WalkStep(jobs, mainId, js, above);
    var under := Walk(jobs, mainId, Children(jobs, mainId, js[0].id), above + [js[0].id]);
    RowsJoin([Entry(js[0], above)] + under, Walk(jobs, mainId, js[1..], above));
    RowsJoin([Entry(js[0], above)], under);
  }

  lemma RowsJoin(a: seq<Entry>, b: seq<Entry>)
    ensures Rows(a + b) == Rows(a) + Rows(b)
  {
  }

  lemma ListedTail(jobs: seq<Job>, mainId: string, js: seq<Job>, above: seq<string>)
    requires Listed(jobs, mainId, js, above) && js != []
    ensures Listed(jobs, mainId, js[1..], above)
  {
    hide Named, Chain, Under;
    assert forall g :: g in js[1..] ==> g in js;
  }

  lemma RootListed(jobs: seq<Job>, mainId: string)
    requires Named(jobs)
    ensures Listed(jobs, mainId, Children(jobs, mainId, Root), [])
  {
    ChildrenAre(jobs, mainId, Root, |jobs|);
    hide Under, Named;
  }

  function TreeOf(jobs: seq<Job>, mainId: string): seq<Entry>
    requires Named(jobs)
  {
    RootListed(jobs, mainId);
    Walk(jobs, mainId, Children(jobs, mainId, Root), [])
  }

  class WorkPanel {
    var children: map<string, seq<Job>>
    var out: seq<Row>

    method Tree(jobs: seq<Job>, mainId: string)
      requires Named(jobs)
      modifies this
      ensures out == Rows(TreeOf(jobs, mainId))
    {
      hide Named, Walk, Chain, Listed, ChildrenTo, Known;
      var known := KnownIds(jobs);
      GatherChildren(jobs, mainId, known);
      out := [];
      RootListed(jobs, mainId);
      WalkUnder(jobs, mainId, Root, 1, []);
    }

    method KnownIds(jobs: seq<Job>) returns (known: set<string>)
      ensures forall id :: id in known <==> Known(jobs, id)
    {
      known := {};
      for i := 0 to |jobs|
        invariant forall id :: id in known <==> exists k :: 0 <= k < i && jobs[k].id == id
      {
        known := known + {jobs[i].id};
      }
    }

    method GatherChildren(jobs: seq<Job>, mainId: string, known: set<string>)
      requires forall id :: id in known <==> Known(jobs, id)
      modifies this`children
      ensures forall p :: (if p in children then children[p] else []) == Children(jobs, mainId, p)
    {
      hide Known;
      children := map[];
      for i := 0 to |jobs|
        invariant forall p :: (if p in children then children[p] else []) == ChildrenTo(jobs, mainId, p, i)
      {
        var parent := jobs[i].parent;
        if parent == mainId || parent !in known {
          parent := Root;
        }
        assert parent == Under(jobs, mainId, jobs[i]);
        children := children[parent := (if parent in children then children[parent] else []) + [jobs[i]]];
      }
    }

    method WalkUnder(jobs: seq<Job>, mainId: string, parent: string, depth: nat, ghost above: seq<string>)
      requires Listed(jobs, mainId, Children(jobs, mainId, parent), above) && depth == |above| + 1
      requires forall p :: (if p in children then children[p] else []) == Children(jobs, mainId, p)
      modifies this`out
      ensures out == old(out) + Rows(Walk(jobs, mainId, Children(jobs, mainId, parent), above))
      decreases |jobs| - |above|
    {
      hide Listed, ChildrenTo, Walk, Rows;
      var js := if parent in children then children[parent] else [];
      assert js[0..] == js;
      for i := 0 to |js|
        invariant Listed(jobs, mainId, js[i..], above)
        invariant out + Rows(Walk(jobs, mainId, js[i..], above)) == old(out) + Rows(Walk(jobs, mainId, js, above))
      {
        var j := js[i];
        assert js[i..][1..] == js[i + 1..];
        RowsStep(jobs, mainId, js[i..], above);
        out := out + [Row(j, depth)];
        WalkUnder(jobs, mainId, j.id, depth + 1, above + [j.id]);
      }
      WalkNone(jobs, mainId, js[|js|..], above);
    }
  }

  // ---------- Each job that reaches the root is listed, once ----------

  /** The entry comes down through `j`, under `above`. */
  predicate Through(e: Entry, above: seq<string>, j: Job) {
    above + [j.id] <= e.above + [e.job.id]
  }

  lemma {:induction false} WalkChains(jobs: seq<Job>, mainId: string, js: seq<Job>, above: seq<string>, e: Entry)
    requires Listed(jobs, mainId, js, above) && e in Walk(jobs, mainId, js, above)
    ensures e.job in jobs && Chain(jobs, mainId, e.above + [e.job.id])
    ensures exists j :: j in js && Through(e, above, j)
    decreases |jobs| - |above|, |js|
  {
    if js == [] {
      WalkNone(jobs, mainId, js, above);
    } else {
      var j := js[0];
      WalkStep(jobs, mainId, js, above);
      ChainDown(jobs, mainId, js, above, j);
      assert j in js && j in jobs;
      hide Listed, Walk, Children, Chain;
      var under, rest := Walk(jobs, mainId, Children(jobs, mainId, j.id), above + [j.id]), Walk(jobs, mainId, js[1..], above);
      assert e == Entry(j, above) || e in under || e in rest;
      if e == Entry(j, above) {
        assert Through(e, above, j);
      } else if e in under {
        WalkChains(jobs, mainId, Children(jobs, mainId, j.id), above + [j.id], e);
        var c :| c in Children(jobs, mainId, j.id) && Through(e, above + [j.id], c);
        ThroughUp(e, above, j, c);
      } else {
        WalkChains(jobs, mainId, js[1..], above, e);
        var g :| g in js[1..] && Through(e, above, g);
        assert g in js;
      }
    }
  }

  lemma ThroughUp(e: Entry, above: seq<string>, j: Job, c: Job)
    requires Through(e, above + [j.id], c)
    ensures Through(e, above, j) && |e.above| > |above| && e.above[..|above| + 1] == above + [j.id]
  {
    var names := e.above + [e.job.id];
    var front := above + [j.id] + [c.id];
    assert names[..|above| + 1] == front[..|above| + 1] == above + [j.id];
  }

  lemma {:induction false} WalkComplete(jobs: seq<Job>, mainId: string, js: seq<Job>, above: seq<string>, j: Job, e: Entry)
    requires Listed(jobs, mainId, js, above) && j in js && e.job in jobs
    requires Chain(jobs, mainId, e.above + [e.job.id]) && Through(e, above, j)
    ensures e in Walk(jobs, mainId, js, above)
    decreases |jobs| - |above|, |js|
  {
    WalkStep(jobs, mainId, js, above);
    ChainDown(jobs, mainId, js, above, js[0]);
    if j != js[0] {
      assert j in js[1..];
      hide Listed, Walk, Children, Chain;
      WalkComplete(jobs, mainId, js[1..], above, j, e);
    } else if |e.above| == |above| {
      ThroughSame(jobs, mainId, js, above, j, e);
    } else {
      var c := ThroughChild(jobs, mainId, above, j, e);
      hide Listed, Walk, Children, Chain;
      WalkComplete(jobs, mainId, Children(jobs, mainId, j.id), above + [j.id], c, e);
    }
  }

  lemma ThroughSame(jobs: seq<Job>, mainId: string, js: seq<Job>, above: seq<string>, j: Job, e: Entry)
    requires Listed(jobs, mainId, js, above) && j in js && e.job in jobs && Through(e, above, j) && |e.above| == |above|
    ensures e == Entry(j, above)
  {
    assert (above + [j.id])[|above|] == (e.above + [e.job.id])[|above|];
    assert above == (above + [j.id])[..|above|] == (e.above + [e.job.id])[..|above|] == e.above;
    assert j in jobs;
    hide Chain, Under;
  }

  /** The child of `j` a longer chain through it goes on with. */
  lemma ThroughChild(jobs: seq<Job>, mainId: string, above: seq<string>, j: Job, e: Entry) returns (c: Job)
    requires Named(jobs) && Chain(jobs, mainId, e.above + [e.job.id]) && Through(e, above, j) && |e.above| > |above|
    ensures c in Children(jobs, mainId, j.id) && Through(e, above + [j.id], c)
  {
    hide Under, Link, Chain, Named, Children;
    var names, k := e.above + [e.job.id], |above| + 1;
    ChainAt(jobs, mainId, names, k);
    assert names[k - 1] == (above + [j.id])[k - 1] == j.id;
    c := LinkedJob(jobs, mainId, names[k], j.id);
    assert names[..k + 1] == names[..k] + [names[k]];
    assert names[..k] == above + [j.id];
  }

  lemma LinkedJob(jobs: seq<Job>, mainId: string, id: string, under: string) returns (c: Job)
    requires Link(jobs, mainId, id, under)
    ensures c in Children(jobs, mainId, under) && c.id == id
  {
    hide Under;
    var i :| 0 <= i < |jobs| && jobs[i].id == id && Under(jobs, mainId, jobs[i]) == under;
    c := jobs[i];
    ChildrenAre(jobs, mainId, under, |jobs|);
    hide ChildrenTo;
  }

  /** Where a name is first among the jobs. */
  function IndexOf(jobs: seq<Job>, id: string): (n: nat)
    ensures n <= |jobs|
    ensures n < |jobs| ==> jobs[n].id == id
    ensures forall i :: 0 <= i < n ==> jobs[i].id != id
  {
    if jobs == [] || jobs[0].id == id then 0 else 1 + IndexOf(jobs[1..], id)
  }

  /** Jobs in the order they started. */
  predicate InOrder(jobs: seq<Job>, js: seq<Job>) {
    forall i, k :: 0 <= i < k < |js| ==> IndexOf(jobs, js[i].id) < IndexOf(jobs, js[k].id)
  }

  lemma IndexIs(jobs: seq<Job>, i: nat)
    requires Named(jobs) && i < |jobs|
    ensures IndexOf(jobs, jobs[i].id) == i
  {
    var n := IndexOf(jobs, jobs[i].id);
    hide IndexOf;
    assert n <= i;
  }

  lemma {:induction false} ChildrenInOrder(jobs: seq<Job>, mainId: string, parent: string, n: nat)
    requires Named(jobs) && n <= |jobs|
    ensures InOrder(jobs, ChildrenTo(jobs, mainId, parent, n))
    ensures forall j :: j in ChildrenTo(jobs, mainId, parent, n) ==> IndexOf(jobs, j.id) < n
  {
    hide Under, IndexOf;
    if n > 0 {
      ChildrenInOrder(jobs, mainId, parent, n - 1);
      IndexIs(jobs, n - 1);
      hide Named;
    }
  }

  /** Two jobs listed under the same job have the same above. */
  lemma SameAbove(jobs: seq<Job>, mainId: string, e: Entry, f: Entry)
    requires Named(jobs) && e.job in jobs && f.job in jobs
    requires Chain(jobs, mainId, e.above + [e.job.id]) && Chain(jobs, mainId, f.above + [f.job.id])
    ensures Under(jobs, mainId, e.job) == Before(e.above, |e.above|)
    ensures Under(jobs, mainId, e.job) == Under(jobs, mainId, f.job) || e.job.id == f.job.id ==> e.above == f.above
  {
    hide Chain, Under, Link, Named;
    AboveIs(jobs, mainId, e);
    AboveIs(jobs, mainId, f);
    if e.job.id == f.job.id {
      ChainUnique(jobs, mainId, e.above + [e.job.id], f.above + [f.job.id]);
      assert e.above == (e.above + [e.job.id])[..|e.above|];
      assert f.above == (f.above + [f.job.id])[..|f.above|];
    } else if Under(jobs, mainId, e.job) == Under(jobs, mainId, f.job) && e.above != [] && f.above != [] {
      ChainUnique(jobs, mainId, e.above, f.above);
    }
  }

  lemma AboveIs(jobs: seq<Job>, mainId: string, e: Entry)
    requires Named(jobs) && e.job in jobs && Chain(jobs, mainId, e.above + [e.job.id])
    ensures Under(jobs, mainId, e.job) == Before(e.above, |e.above|) && Chain(jobs, mainId, e.above)
    ensures e.above != [] ==> e.above[|e.above| - 1] != Root
  {
    hide Chain, Under, Link, Named;
    var names, n := e.above + [e.job.id], |e.above|;
    ChainAt(jobs, mainId, names, n);
    JobLink(jobs, mainId, e.job);
    LinkUnique(jobs, mainId, e.job.id, Under(jobs, mainId, e.job), Before(names, n));
    ChainPrefix(jobs, mainId, names, n);
    assert names[..n] == e.above;
    if n > 0 {
      ChainAt(jobs, mainId, e.above, n - 1);
    }
  }

  /** An entry before another: of another job, and before it among the jobs when both are listed under the same. */
  predicate Precedes(jobs: seq<Job>, mainId: string, e: Entry, f: Entry) {
    && e.job.id != f.job.id
    && (Under(jobs, mainId, e.job) == Under(jobs, mainId, f.job) ==> IndexOf(jobs, e.job.id) < IndexOf(jobs, f.job.id))
  }

  /** What comes through one of the jobs listed together precedes what comes through a later one. */
  lemma {:induction false} ThroughPrecedes(jobs: seq<Job>, mainId: string, above: seq<string>, j: Job, g: Job, e: Entry, f: Entry)
    requires Named(jobs) && e.job in jobs && f.job in jobs
    requires Chain(jobs, mainId, e.above + [e.job.id]) && Chain(jobs, mainId, f.above + [f.job.id])
    requires Through(e, above, j) && Through(f, above, g) && IndexOf(jobs, j.id) < IndexOf(jobs, g.id)
    ensures Precedes(jobs, mainId, e, f)
  {
    hide Chain, Under, Named;
    SameAbove(jobs, mainId, e, f);
    var a, b := e.above + [e.job.id], f.above + [f.job.id];
    assert a[|above|] == (above + [j.id])[|above|] == j.id;
    assert b[|above|] == (above + [g.id])[|above|] == g.id;
    assert |e.above| > |above| ==> a[|above|] == e.above[|above|];
    assert |f.above| > |above| ==> b[|above|] == f.above[|above|];
  }

  predicate AllPrecede(jobs: seq<Job>, mainId: string, w: seq<Entry>) {
    forall i, k :: 0 <= i < k < |w| ==> Precedes(jobs, mainId, w[i], w[k])
  }

  lemma PrecedeJoin(jobs: seq<Job>, mainId: string, a: seq<Entry>, b: seq<Entry>)
    requires AllPrecede(jobs, mainId, a) && AllPrecede(jobs, mainId, b)
    requires forall e, f :: e in a && f in b ==> Precedes(jobs, mainId, e, f)
    ensures AllPrecede(jobs, mainId, a + b)
  {
    hide Precedes;
    var w := a + b;
    forall i, k | 0 <= i < k < |w| ensures Precedes(jobs, mainId, w[i], w[k]) {
      if i >= |a| {
        assert w[i] == b[i - |a|] && w[k] == b[k - |a|];
      } else if k >= |a| {
        assert w[i] in a && w[k] in b;
      }
    }
  }

  lemma {:induction false} WalkPrecedes(jobs: seq<Job>, mainId: string, js: seq<Job>, above: seq<string>)
    requires Listed(jobs, mainId, js, above) && InOrder(jobs, js)
    ensures AllPrecede(jobs, mainId, Walk(jobs, mainId, js, above))
    decreases |jobs| - |above|, |js|
  {
    if js == [] {
      WalkNone(jobs, mainId, js, above);
    } else {
      var j := js[0];
      var children := Children(jobs, mainId, j.id);
      assert Named(jobs);
      WalkStep(jobs, mainId, js, above);
      InOrderTail(jobs, js);
      ChildrenInOrder(jobs, mainId, j.id, |jobs|);
      assert InOrder(jobs, children);
      hide Listed, Walk, Children, Named, Precedes, InOrder, IndexOf;
      var head := Entry(j, above);
      var under, rest := Walk(jobs, mainId, children, above + [j.id]), Walk(jobs, mainId, js[1..], above);
      WalkPrecedes(jobs, mainId, children, above + [j.id]);
      WalkPrecedes(jobs, mainId, js[1..], above);
      hide AllPrecede;
      forall f | f in under ensures Precedes(jobs, mainId, head, f) {
        WalkUnderHead(jobs, mainId, js, above, f);
      }
      OnePrecedes(jobs, mainId, head);
      PrecedeJoin(jobs, mainId, [head], under);
      forall e, f | e in [head] + under && f in rest ensures Precedes(jobs, mainId, e, f) {
        HeadBeforeRest(jobs, mainId, js, above, e, f);
      }
      PrecedeJoin(jobs, mainId, [head] + under, rest);
    }
  }

  lemma OnePrecedes(jobs: seq<Job>, mainId: string, e: Entry)
    ensures AllPrecede(jobs, mainId, [e])
  {
  }

  lemma InOrderTail(jobs: seq<Job>, js: seq<Job>)
    requires InOrder(jobs, js) && js != []
    ensures InOrder(jobs, js[1..]) && forall g :: g in js[1..] ==> IndexOf(jobs, js[0].id) < IndexOf(jobs, g.id)
  {
    hide IndexOf;
    forall g | g in js[1..] ensures IndexOf(jobs, js[0].id) < IndexOf(jobs, g.id) {
      var k :| 0 <= k < |js[1..]| && js[1..][k] == g;
      assert js[k + 1] == g;
    }
  }

  /** The first job precedes everything under it. */
  lemma WalkUnderHead(jobs: seq<Job>, mainId: string, js: seq<Job>, above: seq<string>, f: Entry)
    requires js != [] && Listed(jobs, mainId, js, above)
    requires Listed(jobs, mainId, Children(jobs, mainId, js[0].id), above + [js[0].id])
    requires |above| < |jobs| && f in Walk(jobs, mainId, Children(jobs, mainId, js[0].id), above + [js[0].id])
    ensures Precedes(jobs, mainId, Entry(js[0], above), f)
  {
    var j := js[0];
    assert j in jobs && Named(jobs);
    ChainDown(jobs, mainId, js, above, j);
    WalkChains(jobs, mainId, Children(jobs, mainId, j.id), above + [j.id], f);
    hide Listed, Walk, Children, Chain, Named, Through, Under, IndexOf;
    var c :| c in Children(jobs, mainId, j.id) && Through(f, above + [j.id], c);
    ThroughUp(f, above, j, c);
    SameAbove(jobs, mainId, Entry(j, above), f);
  }

  /** The first job and what is under it precede the jobs after it and what is under those. */
  lemma HeadBeforeRest(jobs: seq<Job>, mainId: string, js: seq<Job>, above: seq<string>, e: Entry, f: Entry)
    requires js != [] && Listed(jobs, mainId, js, above) && Listed(jobs, mainId, js[1..], above)
    requires Listed(jobs, mainId, Children(jobs, mainId, js[0].id), above + [js[0].id]) && |above| < |jobs|
    requires forall g :: g in js[1..] ==> IndexOf(jobs, js[0].id) < IndexOf(jobs, g.id)
    requires e == Entry(js[0], above) || e in Walk(jobs, mainId, Children(jobs, mainId, js[0].id), above + [js[0].id])
    requires f in Walk(jobs, mainId, js[1..], above)
    ensures Precedes(jobs, mainId, e, f)
  {
    var j := js[0];
    assert j in jobs && Named(jobs);
    ChainDown(jobs, mainId, js, above, j);
    hide Listed, Walk, Children, Chain, Named, Precedes, Under, IndexOf;
    WalkChains(jobs, mainId, js[1..], above, f);
    var g :| g in js[1..] && Through(f, above, g);
    if e == Entry(j, above) {
      assert Through(e, above, j);
    } else {
      WalkChains(jobs, mainId, Children(jobs, mainId, j.id), above + [j.id], e);
      var c :| c in Children(jobs, mainId, j.id) && Through(e, above + [j.id], c);
      ThroughUp(e, above, j, c);
    }
    ThroughPrecedes(jobs, mainId, above, j, g, e, f);
  }

  // ---------- Each job comes right under its parent ----------

  /** Entry `k` is the parent of entry `i`, and nothing between is as high as `i`'s parent. */
  predicate ParentAt(w: seq<Entry>, k: nat, i: nat)
    requires k < |w| && i < |w|
  {
    w[i].above == w[k].above + [w[k].job.id] && forall m :: k < m < i ==> |w[m].above| >= |w[i].above|
  }

  predicate NestedAt(w: seq<Entry>, i: nat, base: nat)
    requires i < |w|
  {
    |w[i].above| >= base && (|w[i].above| == base || exists k :: 0 <= k < i && ParentAt(w, k, i))
  }

  predicate Nested(w: seq<Entry>, base: nat) {
    forall i :: 0 <= i < |w| ==> NestedAt(w, i, base)
  }

  lemma NestedJoin(a: seq<Entry>, b: seq<Entry>, base: nat)
    requires Nested(a, base) && Nested(b, base)
    ensures Nested(a + b, base)
  {
    var w := a + b;
    forall i | 0 <= i < |w| ensures NestedAt(w, i, base) {
      if i < |a| {
        assert NestedAt(a, i, base);
        if k :| 0 <= k < i && ParentAt(a, k, i) {
          assert ParentAt(w, k, i);
        }
      } else {
        var n := i - |a|;
        assert w[i] == b[n] && NestedAt(b, n, base);
        if k :| 0 <= k < n && ParentAt(b, k, n) {
          assert forall m :: |a| + k < m < i ==> w[m] == b[m - |a|];
          assert ParentAt(w, |a| + k, i);
        }
      }
    }
  }

  lemma NestedUnder(head: Entry, under: seq<Entry>)
    requires Nested(under, |head.above| + 1)
    requires forall e :: e in under ==> |e.above| > |head.above| && e.above[..|head.above| + 1] == head.above + [head.job.id]
    ensures Nested([head] + under, |head.above|)
  {
    hide NestedAt;
    forall i | 0 <= i < |[head] + under| ensures NestedAt([head] + under, i, |head.above|) {
      if i == 0 {
        HeadNested(head, under);
      } else {
        assert under[i - 1] in under;
        UnderNested(head, under, i - 1);
      }
    }
  }

  lemma HeadNested(head: Entry, under: seq<Entry>)
    ensures NestedAt([head] + under, 0, |head.above|)
  {
  }

  lemma UnderNested(head: Entry, under: seq<Entry>, i: nat)
    requires Nested(under, |head.above| + 1) && i < |under|
    requires |under[i].above| > |head.above| && under[i].above[..|head.above| + 1] == head.above + [head.job.id]
    ensures NestedAt([head] + under, i + 1, |head.above|)
  {
    var k := ParentUnder(head, under, i);
    assert ([head] + under)[i + 1] == under[i];
    hide ParentAt, Nested;
  }

  lemma ParentUnder(head: Entry, under: seq<Entry>, i: nat) returns (k: nat)
    requires Nested(under, |head.above| + 1) && i < |under|
    requires |under[i].above| > |head.above| && under[i].above[..|head.above| + 1] == head.above + [head.job.id]
    ensures k <= i && ParentAt([head] + under, k, i + 1)
  {
    var w := [head] + under;
    forall m | 0 < m <= i + 1 ensures w[m] == under[m - 1] && |w[m].above| > |head.above| {
      assert NestedAt(under, m - 1, |head.above| + 1);
    }
    if |under[i].above| == |head.above| + 1 {
      assert under[i].above == under[i].above[..|head.above| + 1];
      k := 0;
    } else {
      assert NestedAt(under, i, |head.above| + 1);
      var n :| 0 <= n < i && ParentAt(under, n, i);
      k := n + 1;
    }
  }

  lemma {:induction false} WalkNested(jobs: seq<Job>, mainId: string, js: seq<Job>, above: seq<string>)
    requires Listed(jobs, mainId, js, above)
    ensures Nested(Walk(jobs, mainId, js, above), |above|)
    decreases |jobs| - |above|, |js|
  {
    if js == [] {
      WalkNone(jobs, mainId, js, above);
    } else {
      var j := js[0];
      WalkStep(jobs, mainId, js, above);
      hide Listed, Walk, Children, Nested;
      var children := Children(jobs, mainId, j.id);
      var under := Walk(jobs, mainId, children, above + [j.id]);
      WalkNested(jobs, mainId, children, above + [j.id]);
      WalkNested(jobs, mainId, js[1..], above);
      forall e | e in under ensures |e.above| > |above| && e.above[..|above| + 1] == above + [j.id] {
        WalkChains(jobs, mainId, children, above + [j.id], e);
        var c :| c in children && Through(e, above + [j.id], c);
        ThroughUp(e, above, j, c);
      }
      NestedUnder(Entry(j, above), under);
      NestedJoin([Entry(j, above)] + under, Walk(jobs, mainId, js[1..], above), |above|);
    }
  }

  // ---------- What the panel shows ----------

  /**
   The rows list the jobs whose chain of parents reaches the root, each exactly once,
   and no other.
   */
  lemma ListsReachable(jobs: seq<Job>, mainId: string)
    requires Named(jobs)
    ensures var rows := Rows(TreeOf(jobs, mainId));
            && (forall j :: j in jobs ==> (Reaches(jobs, mainId, j) <==> exists i :: 0 <= i < |rows| && rows[i].job == j))
            && (forall i :: 0 <= i < |rows| ==> rows[i].job in jobs)
            && (forall i, k :: 0 <= i < k < |rows| ==> rows[i].job.id != rows[k].job.id)
  {
    RootListed(jobs, mainId);
    var top, tree := Children(jobs, mainId, Root), TreeOf(jobs, mainId);
    var rows := Rows(tree);
    assert tree == Walk(jobs, mainId, top, []);
    hide Listed, Walk, TreeOf, Chain, Named, Under;
    forall i | 0 <= i < |tree| ensures tree[i].job in jobs && Reaches(jobs, mainId, tree[i].job) {
      WalkChains(jobs, mainId, top, [], tree[i]);
    }
    forall j | j in jobs && Reaches(jobs, mainId, j) ensures exists i :: 0 <= i < |rows| && rows[i].job == j {
      var above :| Chain(jobs, mainId, above + [j.id]);
      var c := TopOf(jobs, mainId, Entry(j, above));
      WalkComplete(jobs, mainId, top, [], c, Entry(j, above));
      var i :| 0 <= i < |tree| && tree[i] == Entry(j, above);
      assert rows[i].job == j;
    }
    RowsDiffer(jobs, mainId);
  }

  lemma RowsDiffer(jobs: seq<Job>, mainId: string)
    requires Named(jobs)
    ensures var tree := TreeOf(jobs, mainId); forall i, k :: 0 <= i < k < |tree| ==> tree[i].job.id != tree[k].job.id
  {
    RootListed(jobs, mainId);
    var top, tree := Children(jobs, mainId, Root), TreeOf(jobs, mainId);
    assert tree == Walk(jobs, mainId, top, []);
    hide Listed, Walk, TreeOf, Named;
    ChildrenInOrder(jobs, mainId, Root, |jobs|);
    WalkPrecedes(jobs, mainId, top, []);
    assert forall i, k :: 0 <= i < k < |tree| ==> Precedes(jobs, mainId, tree[i], tree[k]);
  }

  /** The child of the root a chain starts with. */
  lemma TopOf(jobs: seq<Job>, mainId: string, e: Entry) returns (c: Job)
    requires Named(jobs) && Chain(jobs, mainId, e.above + [e.job.id])
    ensures c in Children(jobs, mainId, Root) && Through(e, [], c)
  {
    hide Under, Link, Chain, Named, Children;
    var names := e.above + [e.job.id];
    ChainAt(jobs, mainId, names, 0);
    c := LinkedJob(jobs, mainId, names[0], Root);
    assert names[..1] == [] + [c.id];
  }

  /**
   A row at depth one is listed under the root; a deeper one under the nearest row above
   it that is less deep, which is its parent's and just one less. Rows listed under the
   same job come in the order they started.
   */
  lemma {:induction false} RowsUnderParents(jobs: seq<Job>, mainId: string)
    requires Named(jobs)
    ensures var rows := Rows(TreeOf(jobs, mainId));
            && (forall i :: 0 <= i < |rows| ==>
                  if rows[i].depth <= 1 then rows[i].depth == 1 && Under(jobs, mainId, rows[i].job) == Root
                  else exists k :: 0 <= k < i && rows[k].job.id == Under(jobs, mainId, rows[i].job)
                                   && rows[k].depth == rows[i].depth - 1
                                   && forall m :: k < m < i ==> rows[m].depth >= rows[i].depth)
            && (forall i, k :: 0 <= i < k < |rows| && Under(jobs, mainId, rows[i].job) == Under(jobs, mainId, rows[k].job) ==>
                  IndexOf(jobs, rows[i].job.id) < IndexOf(jobs, rows[k].job.id))
  {
    RootListed(jobs, mainId);
    var top, tree := Children(jobs, mainId, Root), TreeOf(jobs, mainId);
    var rows := Rows(tree);
    assert tree == Walk(jobs, mainId, top, []);
    hide Listed, Walk, TreeOf, Chain, Named, Under, IndexOf;
    WalkNested(jobs, mainId, top, []);
    forall i | 0 <= i < |rows|
      ensures if rows[i].depth <= 1 then rows[i].depth == 1 && Under(jobs, mainId, rows[i].job) == Root
              else exists k :: 0 <= k < i && rows[k].job.id == Under(jobs, mainId, rows[i].job)
                               && rows[k].depth == rows[i].depth - 1
                               && forall m :: k < m < i ==> rows[m].depth >= rows[i].depth
    {
      WalkChains(jobs, mainId, top, [], tree[i]);
      AboveIs(jobs, mainId, tree[i]);
      assert NestedAt(tree, i, 0);
      if tree[i].above != [] {
        var k :| 0 <= k < i && ParentAt(tree, k, i);
        assert rows[k].job.id == tree[i].above[|tree[i].above| - 1];
      }
    }
    ChildrenInOrder(jobs, mainId, Root, |jobs|);
    WalkPrecedes(jobs, mainId, top, []);
    forall i, k | 0 <= i < k < |rows| && Under(jobs, mainId, rows[i].job) == Under(jobs, mainId, rows[k].job)
      ensures IndexOf(jobs, rows[i].job.id) < IndexOf(jobs, rows[k].job.id)
    {
      assert Precedes(jobs, mainId, tree[i], tree[k]);
    }
  }

  /** Parents without a cycle: each job ranks below the job it is listed under. */
  ghost predicate Acyclic(jobs: seq<Job>, mainId: string, rank: string -> nat) {
    forall j :: j in jobs && Under(jobs, mainId, j) != Root ==> rank(Under(jobs, mainId, j)) < rank(j.id)
  }

  lemma {:induction false} AcyclicReaches(jobs: seq<Job>, mainId: string, rank: string -> nat, j: Job)
    returns (above: seq<string>)
    requires Named(jobs) && Acyclic(jobs, mainId, rank) && j in jobs
    ensures Chain(jobs, mainId, above + [j.id])
    decreases rank(j.id)
  {
    var under := Under(jobs, mainId, j);
    if under == Root {
      above := [];
      ChainMore(jobs, mainId, [], j);
    } else {
      var i :| 0 <= i < |jobs| && jobs[i].id == under;
      var more := AcyclicReaches(jobs, mainId, rank, jobs[i]);
      above := more + [under];
      hide Chain;
      ChainMore(jobs, mainId, above, j);
    }
  }

  /** A sequence without repeats has each of its elements once. */
  lemma {:induction false} CountOnce(js: seq<Job>, j: Job)
    requires forall i, k :: 0 <= i < k < |js| ==> js[i] != js[k]
    ensures multiset(js)[j] == if j in js then 1 else 0
  {
    if js != [] {
      CountOnce(js[1..], j);
      assert js == [js[0]] + js[1..];
    }
  }

  function JobsOf(rows: seq<Row>): (js: seq<Job>)
    ensures |js| == |rows| && forall i :: 0 <= i < |rows| ==> js[i] == rows[i].job
  {
    seq(|rows|, i requires 0 <= i < |rows| => rows[i].job)
  }

  /** Without a cycle of parents the rows are the jobs, each once, in another order. */
  lemma AcyclicPermutes(jobs: seq<Job>, mainId: string, rank: string -> nat)
    requires Named(jobs) && Acyclic(jobs, mainId, rank)
    ensures multiset(JobsOf(Rows(TreeOf(jobs, mainId)))) == multiset(jobs)
  {
    ListsReachable(jobs, mainId);
    var rows := Rows(TreeOf(jobs, mainId));
    var js := JobsOf(rows);
    forall j | j in jobs ensures j in js {
      var above := AcyclicReaches(jobs, mainId, rank, j);
      assert Reaches(jobs, mainId, j);
      var i :| 0 <= i < |rows| && rows[i].job == j;
      assert js[i] == j;
    }
    hide TreeOf, Rows, Chain, Acyclic, Under, Reaches;
    forall j ensures multiset(js)[j] == multiset(jobs)[j] {
      CountOnce(js, j);
      CountOnce(jobs, j);
    }
  }
}
