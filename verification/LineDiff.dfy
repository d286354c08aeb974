/** The hunks of an edit script: the runs of lines it changes. */
module LineDiff {

  /** One line of a diff: kept, removed from the old lines, or added from the new. */
  datatype Op = Keep | Remove | Add

  /** `oldCount` lines of the old from `oldStart` become `newCount` of the new from `newStart`. */
  datatype Hunk = Hunk(oldStart: nat, oldCount: nat, newStart: nat, newCount: nat) {
    function OldEnd(): nat {
      oldStart + oldCount
    }
    function NewEnd(): nat {
      newStart + newCount
    }
  }

  /** `ops` turn the old lines from `ai` into the new from `bi`: every line is accounted for, and kept ones are the same. */
  predicate Script(ops: seq<Op>, a: seq<string>, b: seq<string>, ai: nat, bi: nat)
    decreases |ops|
  {
    if ops == [] then ai == |a| && bi == |b|
    else
      match ops[0]
      case Keep => ai < |a| && bi < |b| && a[ai] == b[bi] && Script(ops[1..], a, b, ai + 1, bi + 1)
      case Remove => ai < |a| && Script(ops[1..], a, b, ai + 1, bi)
      case Add => bi < |b| && Script(ops[1..], a, b, ai, bi + 1)
  }

  /** The script that removes every old line and adds every new one. */
  function ReplaceAll(removed: nat, added: nat): seq<Op> {
    if removed > 0 then [Remove] + ReplaceAll(removed - 1, added)
    else if added > 0 then [Add] + ReplaceAll(0, added - 1)
    else []
  }

  lemma {:induction false} ReplaceAllTurns(a: seq<string>, b: seq<string>, ai: nat, bi: nat)
    requires ai <= |a| && bi <= |b|
    ensures Script(ReplaceAll(|a| - ai, |b| - bi), a, b, ai, bi)
    decreases |a| - ai + |b| - bi
  {
    if ai < |a| {
      ReplaceAllTurns(a, b, ai + 1, bi);
    } else if bi < |b| {
      ReplaceAllTurns(a, b, ai, bi + 1);
    }
  }

  /** How many of the first `ops` change a line. */
  function Changing(ops: seq<Op>): (n: nat)
    ensures n <= |ops|
    ensures forall i :: 0 <= i < n ==> !ops[i].Keep?
    ensures n < |ops| ==> ops[n].Keep?
  {
    if ops == [] || ops[0].Keep? then 0 else 1 + Changing(ops[1..])
  }

  function Removed(ops: seq<Op>): (n: nat)
    ensures n <= |ops|
  {
    if ops == [] then 0 else (if ops[0].Remove? then 1 else 0) + Removed(ops[1..])
  }

  function HunksFrom(ops: seq<Op>, ai: nat, bi: nat): seq<Hunk>
    decreases |ops|
  {
    if ops == [] then []
    else if ops[0].Keep? then HunksFrom(ops[1..], ai + 1, bi + 1)
    else
      var n := Changing(ops);
      var gone := Removed(ops[..n]);
      [Hunk(ai, gone, bi, n - gone)] + HunksFrom(ops[n..], ai + gone, bi + n - gone)
  }

  lemma {:induction false} RemovedOne(ops: seq<Op>, op: Op)
    ensures Removed(ops + [op]) == Removed(ops) + if op.Remove? then 1 else 0
  {
    if ops == [] {
      assert ops + [op] == [op];
    } else {
      assert (ops + [op])[1..] == ops[1..] + [op];
      RemovedOne(ops[1..], op);
    }
  }

  method Hunks(ops: seq<Op>) returns (hunks: seq<Hunk>)
    ensures hunks == HunksFrom(ops, 0, 0)
  {
    hide HunksFrom, Removed, Changing;
    hunks := [];
    var ai, bi, i := 0, 0, 0;
    assert ops[0..] == ops;
    while i < |ops|
      invariant 0 <= i <= |ops|
      invariant hunks + HunksFrom(ops[i..], ai, bi) == HunksFrom(ops, 0, 0)
    {
      HunksAt(ops, i, ai, bi);
      if ops[i].Keep? {
        i, ai, bi := i + 1, ai + 1, bi + 1;
        continue;
      }
      var h;
      h, i := ChangedRun(ops, i, ai, bi);
      ai, bi := h.OldEnd(), h.NewEnd();
      OneMore(hunks, h, HunksFrom(ops[i..], ai, bi));
      hunks := hunks + [h];
    }
    HunksAt(ops, i, ai, bi);
  }

  /** One run of changed lines, from `from`, and where it ends. */
  method ChangedRun(ops: seq<Op>, from: nat, ai: nat, bi: nat) returns (h: Hunk, i: nat)
    requires from < |ops| && !ops[from].Keep?
    ensures from < i <= |ops|
    ensures HunksFrom(ops[from..], ai, bi) == [h] + HunksFrom(ops[i..], h.OldEnd(), h.NewEnd())
  {
    hide HunksFrom, Removed, Changing;
    ghost var n := Changing(ops[from..]);
    h, i := Hunk(ai, 0, bi, 0), from;
    NoneRemoved(ops[from..i]);
    while i < |ops| && !ops[i].Keep?
      invariant from <= i <= from + n <= |ops|
      invariant h == Hunk(ai, Removed(ops[from..i]), bi, i - from - Removed(ops[from..i]))
      decreases |ops| - i
    {
      RemovedNext(ops, from, i);
      h := if ops[i].Remove? then h.(oldCount := h.oldCount + 1) else h.(newCount := h.newCount + 1);
      i := i + 1;
    }
    assert i == from + n;
    RunSlices(ops, from, n);
    HunksAt(ops, from, ai, bi);
    ChangingSome(ops[from..]);
  }

  lemma RemovedNext(ops: seq<Op>, from: nat, i: nat)
    requires from <= i < |ops|
    ensures Removed(ops[from..i + 1]) == Removed(ops[from..i]) + if ops[i].Remove? then 1 else 0
  {
    assert ops[from..i + 1] == ops[from..i] + [ops[i]];
    RemovedOne(ops[from..i], ops[i]);
  }

  lemma RunSlices(ops: seq<Op>, from: nat, n: nat)
    requires from + n <= |ops|
    ensures ops[from..][..n] == ops[from..from + n] && ops[from..][n..] == ops[from + n..]
  {
  }

  lemma OneMore(hunks: seq<Hunk>, h: Hunk, rest: seq<Hunk>)
    ensures hunks + ([h] + rest) == (hunks + [h]) + rest
  {
  }

  lemma NoneRemoved(ops: seq<Op>)
    requires ops == []
    ensures Removed(ops) == 0
  {
  }

  lemma HunksAt(ops: seq<Op>, i: nat, ai: nat, bi: nat)
    requires i <= |ops|
    ensures var n := Changing(ops[i..]); var gone := Removed(ops[i..][..n]);
            HunksFrom(ops[i..], ai, bi)
            == if i == |ops| then []
               else if ops[i].Keep? then HunksFrom(ops[i + 1..], ai + 1, bi + 1)
               else [Hunk(ai, gone, bi, n - gone)] + HunksFrom(ops[i..][n..], ai + gone, bi + n - gone)
  {
    assert i < |ops| ==> ops[i..][1..] == ops[i + 1..];
    hide Changing, Removed;
  }

  /**
   Hunks from `ai` and `bi` on, in order, with lines the same on both sides before
   each, between each and after the last; each changes something, and between two there
   is a line.
   */
  ghost predicate Separate(a: seq<string>, b: seq<string>, hunks: seq<Hunk>, ai: nat, bi: nat)
    decreases |hunks|
  {
    && ai <= |a| && bi <= |b|
    && if hunks == [] then a[ai..] == b[bi..]
       else
         var h := hunks[0];
         && ai <= h.oldStart <= h.OldEnd() <= |a| && bi <= h.newStart <= h.NewEnd() <= |b|
         && a[ai..h.oldStart] == b[bi..h.newStart]
         && (h.oldCount > 0 || h.newCount > 0)
         && (|hunks| > 1 ==> h.OldEnd() < hunks[1].oldStart)
         && Separate(a, b, hunks[1..], h.OldEnd(), h.NewEnd())
  }

  lemma RunStep(ops: seq<Op>, a: seq<string>, b: seq<string>, ai: nat, bi: nat, n: nat)
    requires Script(ops, a, b, ai, bi) && 0 < n <= Changing(ops)
    ensures n - 1 <= Changing(ops[1..])
    ensures Removed(ops[..n]) == Removed(ops[1..][..n - 1]) + if ops[0].Remove? then 1 else 0
    ensures if ops[0].Remove? then Script(ops[1..], a, b, ai + 1, bi) else Script(ops[1..], a, b, ai, bi + 1)
    ensures ops[1..][n - 1..] == ops[n..]
  {
    assert ops[..n][1..] == ops[1..][..n - 1];
  }

  lemma {:induction false} ScriptRun(ops: seq<Op>, a: seq<string>, b: seq<string>, ai: nat, bi: nat, n: nat)
    requires Script(ops, a, b, ai, bi) && n <= Changing(ops)
    ensures var gone := Removed(ops[..n]);
            ai + gone <= |a| && bi + n - gone <= |b| && Script(ops[n..], a, b, ai + gone, bi + n - gone)
    decreases n
  {
    hide Script, Removed, Changing;
    if n == 0 {
      NoneRemoved(ops[..0]);
      assert ops[0..] == ops;
      ScriptBounds(ops, a, b, ai, bi);
    } else {
      RunStep(ops, a, b, ai, bi, n);
      if ops[0].Remove? {
        ScriptRun(ops[1..], a, b, ai + 1, bi, n - 1);
      } else {
        ScriptRun(ops[1..], a, b, ai, bi + 1, n - 1);
      }
    }
  }

  lemma {:induction false} ScriptBounds(ops: seq<Op>, a: seq<string>, b: seq<string>, ai: nat, bi: nat)
    requires Script(ops, a, b, ai, bi)
    ensures ai <= |a| && bi <= |b|
    decreases |ops|
  {
    if ops != [] {
      match ops[0]
      case Keep => ScriptBounds(ops[1..], a, b, ai + 1, bi + 1);
      case Remove => ScriptBounds(ops[1..], a, b, ai + 1, bi);
      case Add => ScriptBounds(ops[1..], a, b, ai, bi + 1);
    }
  }

  lemma KeptSeparate(a: seq<string>, b: seq<string>, hunks: seq<Hunk>, ai: nat, bi: nat)
    requires ai < |a| && bi < |b| && a[ai] == b[bi] && Separate(a, b, hunks, ai + 1, bi + 1)
    ensures Separate(a, b, hunks, ai, bi)
    ensures hunks != [] ==> hunks[0].oldStart > ai
  {
    if hunks == [] {
      assert a[ai..] == [a[ai]] + a[ai + 1..] && b[bi..] == [b[bi]] + b[bi + 1..];
    } else {
      var h := hunks[0];
      assert a[ai..h.oldStart] == [a[ai]] + a[ai + 1..h.oldStart];
      assert b[bi..h.newStart] == [b[bi]] + b[bi + 1..h.newStart];
    }
  }

  lemma ChangedSeparate(a: seq<string>, b: seq<string>, h: Hunk, rest: seq<Hunk>)
    requires h.OldEnd() <= |a| && h.NewEnd() <= |b| && (h.oldCount > 0 || h.newCount > 0)
    requires Separate(a, b, rest, h.OldEnd(), h.NewEnd()) && (rest != [] ==> h.OldEnd() < rest[0].oldStart)
    ensures Separate(a, b, [h] + rest, h.oldStart, h.newStart)
  {
    assert ([h] + rest)[1..] == rest;
  }

  /** The hunks of any script that turns the old lines into the new are separate, and their kept lines the same. */
  lemma {:induction false} HunksSeparate(ops: seq<Op>, a: seq<string>, b: seq<string>, ai: nat, bi: nat)
    requires Script(ops, a, b, ai, bi)
    ensures Separate(a, b, HunksFrom(ops, ai, bi), ai, bi)
    ensures ops != [] && ops[0].Keep? && HunksFrom(ops, ai, bi) != [] ==> HunksFrom(ops, ai, bi)[0].oldStart > ai
    decreases |ops|
  {
    hide Separate, Removed, Changing;
    if ops == [] {
      NoneSeparate(a, b, ai, bi);
    } else if ops[0].Keep? {
      HunksSeparate(ops[1..], a, b, ai + 1, bi + 1);
      KeptSeparate(a, b, HunksFrom(ops[1..], ai + 1, bi + 1), ai, bi);
    } else {
      var n := Changing(ops);
      ChangingSome(ops);
      var gone := Removed(ops[..n]);
      ScriptRun(ops, a, b, ai, bi, n);
      hide Script;
      HunksSeparate(ops[n..], a, b, ai + gone, bi + n - gone);
      var rest := HunksFrom(ops[n..], ai + gone, bi + n - gone);
      NoMore(ops[n..], ai + gone, bi + n - gone);
      ChangedSeparate(a, b, Hunk(ai, gone, bi, n - gone), rest);
    }
  }

  lemma NoMore(ops: seq<Op>, ai: nat, bi: nat)
    ensures ops == [] ==> HunksFrom(ops, ai, bi) == []
  {
  }

  lemma ChangingSome(ops: seq<Op>)
    requires ops != [] && !ops[0].Keep?
    ensures Changing(ops) > 0
  {
  }

  lemma NoneSeparate(a: seq<string>, b: seq<string>, ai: nat, bi: nat)
    requires ai == |a| && bi == |b|
    ensures Separate(a, b, [], ai, bi)
  {
  }

  // ---------- What hunks make of lines ----------

  predicate InOrder(hunks: seq<Hunk>, na: nat, nb: nat) {
    && (forall h :: h in hunks ==> h.OldEnd() <= na && h.NewEnd() <= nb)
    && (forall i, j :: 0 <= i < j < |hunks| ==> hunks[i].OldEnd() < hunks[j].oldStart)
  }

  /** The lines of `a` from `from`, with each hunk's replaced by what `b` has there. */
  function Patched(a: seq<string>, b: seq<string>, hunks: seq<Hunk>, from: nat): seq<string>
    requires from <= |a| && InOrder(hunks, |a|, |b|) && (hunks != [] ==> from <= hunks[0].oldStart)
    decreases |hunks|
  {
    if hunks == [] then a[from..]
    else
      var h := hunks[0];
      assert h in hunks && (|hunks| > 1 ==> hunks[0].OldEnd() < hunks[1].oldStart);
      TailInOrder(hunks, |a|, |b|);
      a[from..h.oldStart] + b[h.newStart..h.NewEnd()] + Patched(a, b, hunks[1..], h.OldEnd())
  }

  lemma TailInOrder(hunks: seq<Hunk>, na: nat, nb: nat)
    requires InOrder(hunks, na, nb) && hunks != []
    ensures InOrder(hunks[1..], na, nb)
  {
    assert forall h :: h in hunks[1..] ==> h in hunks;
  }

  lemma {:induction false} SeparateInOrder(a: seq<string>, b: seq<string>, hunks: seq<Hunk>, ai: nat, bi: nat)
    requires Separate(a, b, hunks, ai, bi)
    ensures InOrder(hunks, |a|, |b|) && forall i :: 0 <= i < |hunks| ==> ai <= hunks[i].oldStart
    decreases |hunks|
  {
    if hunks != [] {
      var h := hunks[0];
      SeparateInOrder(a, b, hunks[1..], h.OldEnd(), h.NewEnd());
      forall i | 1 <= i < |hunks| ensures h.OldEnd() < hunks[i].oldStart {
        assert hunks[i] == hunks[1..][i - 1];
        if i > 1 {
          assert hunks[1] == hunks[1..][0];
          assert hunks[1..][0].OldEnd() < hunks[1..][i - 1].oldStart;
        }
      }
      forall i, j | 0 <= i < j < |hunks| ensures hunks[i].OldEnd() < hunks[j].oldStart {
        if i > 0 {
          assert hunks[i] == hunks[1..][i - 1] && hunks[j] == hunks[1..][j - 1];
        }
      }
    }
  }

  /** All the hunks together turn the old lines into the new. */
  lemma {:induction false} PatchedIsNew(a: seq<string>, b: seq<string>, hunks: seq<Hunk>, ai: nat, bi: nat)
    requires Separate(a, b, hunks, ai, bi)
    ensures InOrder(hunks, |a|, |b|) && (hunks != [] ==> ai <= hunks[0].oldStart)
    ensures Patched(a, b, hunks, ai) == b[bi..]
    decreases |hunks|
  {
    SeparateInOrder(a, b, hunks, ai, bi);
    if hunks != [] {
      var h := hunks[0];
      PatchedIsNew(a, b, hunks[1..], h.OldEnd(), h.NewEnd());
      assert b[bi..] == b[bi..h.newStart] + b[h.newStart..h.NewEnd()] + b[h.NewEnd()..];
    }
  }

  /** A hunk that reaches the new lines' end reaches the old ones' end. */
  lemma {:induction false} EndsTogether(a: seq<string>, b: seq<string>, hunks: seq<Hunk>, ai: nat, bi: nat, h: Hunk)
    requires Separate(a, b, hunks, ai, bi) && h in hunks && h.NewEnd() == |b|
    ensures h.OldEnd() == |a|
    decreases |hunks|
  {
    var g := hunks[0];
    if |hunks| > 1 {
      var second := hunks[1..][0];
      assert |a[g.OldEnd()..second.oldStart]| == |b[g.NewEnd()..second.newStart]|;
    } else {
      assert |a[g.OldEnd()..]| == |b[g.NewEnd()..]|;
    }
    if h != g {
      EndsTogether(a, b, hunks[1..], g.OldEnd(), g.NewEnd(), h);
    }
  }

  /** A hunk that reaches the old lines' end reaches the new ones' end. */
  lemma {:induction false} EndsBoth(a: seq<string>, b: seq<string>, hunks: seq<Hunk>, ai: nat, bi: nat, h: Hunk)
    requires Separate(a, b, hunks, ai, bi) && h in hunks && h.OldEnd() == |a|
    ensures h.NewEnd() == |b|
    decreases |hunks|
  {
    var g := hunks[0];
    if |hunks| > 1 {
      assert hunks[1] == hunks[1..][0];
      assert hunks[1..][0].oldStart <= |a|;
    } else {
      assert |a[g.OldEnd()..]| == |b[g.NewEnd()..]|;
    }
    if h != g {
      EndsBoth(a, b, hunks[1..], g.OldEnd(), g.NewEnd(), h);
    }
  }

  /** A hunk past the first old line comes after a line the same on both sides. */
  lemma {:induction false} KeptBefore(a: seq<string>, b: seq<string>, hunks: seq<Hunk>, ai: nat, bi: nat, h: Hunk)
    requires Separate(a, b, hunks, ai, bi) && h in hunks && h.oldStart > 0
    requires ai == 0 || (hunks != [] && hunks[0].oldStart > ai)
    ensures 0 < h.newStart <= |b| && h.oldStart <= |a| && a[h.oldStart - 1] == b[h.newStart - 1]
    ensures h.oldCount == 0 ==> h.newStart < |b|
    decreases |hunks|
  {
    var g := hunks[0];
    if h == g {
      var before := a[ai..h.oldStart];
      assert before == b[bi..h.newStart];
      assert before[|before| - 1] == a[h.oldStart - 1] && b[bi..h.newStart][|before| - 1] == b[h.newStart - 1];
    } else {
      KeptBefore(a, b, hunks[1..], g.OldEnd(), g.NewEnd(), h);
    }
  }

  lemma InOrderFirst(hunks: seq<Hunk>, na: nat, nb: nat)
    requires InOrder(hunks, na, nb) && hunks != []
    ensures hunks[0].OldEnd() <= na && hunks[0].NewEnd() <= nb && (|hunks| > 1 ==> hunks[0].OldEnd() < hunks[1].oldStart)
  {
    assert hunks[0] in hunks;
  }

  // ---------- What hunks leave ----------

  /**
   A line that no hunk replaces stays in its place: after what the `k` hunks before it
   make of the lines before it, and before what the others make of those after it. A hunk
   that only adds lines right before it is one of those before.
   */
  lemma {:induction false} PatchedAround(a: seq<string>, b: seq<string>, hunks: seq<Hunk>, from: nat, i: nat) returns (k: nat)
    requires from <= i < |a| && InOrder(hunks, |a|, |b|) && (hunks != [] ==> from <= hunks[0].oldStart)
    requires forall h :: h in hunks ==> !(h.oldStart <= i < h.OldEnd())
    // A hunk that adds lines right before line `i` comes before it.
    ensures k <= |hunks| && InOrder(hunks[..k], i, |b|) && InOrder(hunks[k..], |a|, |b|)
    ensures (k > 0 ==> from <= hunks[0].oldStart) && (k < |hunks| ==> i < hunks[k].oldStart)
    ensures Patched(a, b, hunks, from) == Patched(a[..i], b, hunks[..k], from) + [a[i]] + Patched(a, b, hunks[k..], i + 1)
    decreases |hunks|
  {
    hide Patched, InOrder;
    NoHunks(i, |b|);
    if hunks == [] || i < hunks[0].oldStart {
      k := 0;
      assert hunks[..0] == [] && hunks[0..] == hunks;
      AroundBefore(a, b, hunks, from, i);
    } else {
      InOrderFirst(hunks, |a|, |b|);
      assert hunks[0] in hunks && forall g :: g in hunks[1..] ==> g in hunks;
      TailInOrder(hunks, |a|, |b|);
      var n := PatchedAround(a, b, hunks[1..], hunks[0].OldEnd(), i);
      k := n + 1;
      Tails(hunks, k);
      FrontInOrder(hunks, k, i, |a|, |b|);
      AroundAfter(a, b, hunks, from, i, k);
    }
  }

  lemma Tails(hunks: seq<Hunk>, k: nat)
    requires 0 < k <= |hunks|
    ensures hunks[..k][1..] == hunks[1..][..k - 1] && hunks[k..] == hunks[1..][k - 1..]
    ensures k < |hunks| ==> hunks[1..][k - 1] == hunks[k]
  {
  }

  lemma NoHunks(na: nat, nb: nat)
    ensures InOrder([], na, nb)
  {
  }

  lemma PatchedNone(a: seq<string>, b: seq<string>, from: nat)
    requires from <= |a|
    ensures InOrder([], |a|, |b|) && Patched(a, b, [], from) == a[from..]
  {
  }

  lemma PatchedFirst(a: seq<string>, b: seq<string>, hunks: seq<Hunk>, from: nat)
    requires from <= |a| && InOrder(hunks, |a|, |b|) && hunks != [] && from <= hunks[0].oldStart
    ensures var h := hunks[0];
            && h.OldEnd() <= |a| && h.NewEnd() <= |b| && InOrder(hunks[1..], |a|, |b|)
            && (|hunks| > 1 ==> h.OldEnd() <= hunks[1].oldStart)
            && Patched(a, b, hunks, from) == a[from..h.oldStart] + b[h.newStart..h.NewEnd()] + Patched(a, b, hunks[1..], h.OldEnd())
  {
    InOrderFirst(hunks, |a|, |b|);
    TailInOrder(hunks, |a|, |b|);
    hide InOrder;
  }

  lemma AroundBefore(a: seq<string>, b: seq<string>, hunks: seq<Hunk>, from: nat, i: nat)
    requires from <= i < |a| && InOrder(hunks, |a|, |b|) && (hunks != [] ==> i < hunks[0].oldStart) && InOrder([], i, |b|)
    ensures Patched(a, b, hunks, from) == Patched(a[..i], b, [], from) + [a[i]] + Patched(a, b, hunks, i + 1)
  {
    hide InOrder, Patched;
    PatchedNone(a[..i], b, from);
    if hunks == [] {
      PatchedNone(a, b, from);
      PatchedNone(a, b, i + 1);
      assert a[from..] == a[..i][from..] + [a[i]] + a[i + 1..];
      return;
    }
    var h := hunks[0];
    PatchedFirst(a, b, hunks, from);
    PatchedFirst(a, b, hunks, i + 1);
    assert a[from..h.oldStart] == a[..i][from..] + [a[i]] + a[i + 1..h.oldStart];
  }

  lemma FrontInOrder(hunks: seq<Hunk>, k: nat, i: nat, na: nat, nb: nat)
    requires InOrder(hunks, na, nb) && 0 < k <= |hunks| && hunks[0].OldEnd() <= i
    requires InOrder(hunks[1..][..k - 1], i, nb)
    ensures InOrder(hunks[..k], i, nb)
  {
    forall h | h in hunks[..k] ensures h.OldEnd() <= i && h.NewEnd() <= nb {
      var j :| 0 <= j < k && hunks[j] == h;
      if j > 0 {
        assert hunks[1..][..k - 1][j - 1] == h;
      }
    }
  }

  lemma AroundAfter(a: seq<string>, b: seq<string>, hunks: seq<Hunk>, from: nat, i: nat, k: nat)
    requires from <= i < |a| && InOrder(hunks, |a|, |b|) && 0 < k <= |hunks| && from <= hunks[0].oldStart
    requires InOrder(hunks[..k], i, |b|) && InOrder(hunks[k..], |a|, |b|) && (k < |hunks| ==> i < hunks[k].oldStart)
    requires hunks[0].OldEnd() <= i && InOrder(hunks[1..], |a|, |b|) && (|hunks| > 1 ==> hunks[0].OldEnd() <= hunks[1].oldStart)
    requires InOrder(hunks[..k][1..], i, |b|)
    requires Patched(a, b, hunks[1..], hunks[0].OldEnd())
          == Patched(a[..i], b, hunks[..k][1..], hunks[0].OldEnd()) + [a[i]] + Patched(a, b, hunks[k..], i + 1)
    ensures Patched(a, b, hunks, from) == Patched(a[..i], b, hunks[..k], from) + [a[i]] + Patched(a, b, hunks[k..], i + 1)
  {
    hide InOrder, Patched;
    var h := hunks[0];
    PatchedFirst(a, b, hunks, from);
    PatchedFirst(a[..i], b, hunks[..k], from);
    assert a[..i][from..h.oldStart] == a[from..h.oldStart];
  }
}
