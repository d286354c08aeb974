/** Words of a command line that name nothing outside the session's folder. */
module SafeWords {
  import opened Basics
  import opened Words

  predicate Separates(c: char) {
    c == '=' || c == ':'
  }

  predicate Bounds(c: char) {
    Separates(c) || c == '/'
  }

  /** An absolute path starts at `i`: the word's start, or after `=` or `:`. */
  predicate AbsoluteAt(w: string, i: nat) {
    i < |w| && w[i] == '/' && (i == 0 || Separates(w[i - 1]))
  }

  /** A `..` stands alone at `i`, as a step out of a folder. */
  predicate StepsOutAt(w: string, i: nat) {
    && i + 2 <= |w| && w[i] == '.' && w[i + 1] == '.'
    && (i == 0 || Bounds(w[i - 1]))
    && (i + 2 == |w| || Bounds(w[i + 2]))
  }

  predicate Inside(w: string) {
    forall i :: 0 <= i < |w| ==> !AbsoluteAt(w, i) && !StepsOutAt(w, i)
  }

  /** A word a grant may cover: its paths stay inside the folder, and it has no `@`. */
  predicate StaysInside(w: string) {
    '@' !in w && Inside(w)
  }

  method SafeWord(w: string) returns (ok: bool)
    ensures ok == StaysInside(w)
  {
    hide StaysInside, Inside;
    SafeWordIs(w);
    if '@' in w {
      return false;
    }
    var segments := FieldsFunc(w, Separates);
    for s := 0 to |segments|
      invariant forall k :: 0 <= k < s ==> PartsInside(segments[k])
    {
      var segment := segments[s];
      if HasPrefix(segment, "/") {
        assert segment in segments;
        return false;
      }
      var parts := Split(segment, '/');
      for p := 0 to |parts|
        invariant forall k :: 0 <= k < p ==> parts[k] != ".."
      {
        if parts[p] == ".." {
          assert ".." in parts && segment in segments;
          return false;
        }
      }
    }
    return true;
  }

  /** A part of a word, split at `=` and `:`, that is no absolute path and steps out nowhere. */
  predicate PartsInside(segment: string) {
    !HasPrefix(segment, "/") && ".." !in Split(segment, '/')
  }

  lemma SafeWordIs(w: string)
    ensures StaysInside(w) <==> '@' !in w && forall s :: s in FieldsFunc(w, Separates) ==> PartsInside(s)
  {
    hide Inside, PartsInside;
    SegmentsInside(w);
  }

  /** The places before and after a boundary are those of the two pieces there. */
  lemma PiecesAt(w: string, k: nat, i: nat)
    requires k < |w| && Bounds(w[k])
    ensures i < k ==> StepsOutAt(w, i) == StepsOutAt(w[..k], i) && AbsoluteAt(w, i) == AbsoluteAt(w[..k], i)
    ensures StepsOutAt(w, k + 1 + i) == StepsOutAt(w[k + 1..], i)
    ensures i > 0 || Separates(w[k]) ==> AbsoluteAt(w, k + 1 + i) == AbsoluteAt(w[k + 1..], i)
    ensures !StepsOutAt(w, k) && (Separates(w[k]) ==> !AbsoluteAt(w, k))
  {
  }

  lemma InsideCut(w: string, k: nat)
    requires k < |w| && Separates(w[k])
    ensures Inside(w) <==> Inside(w[..k]) && Inside(w[k + 1..])
  {
    hide AbsoluteAt, StepsOutAt, Separates;
    var a, b := w[..k], w[k + 1..];
    if Inside(a) && Inside(b) {
      forall i: nat | i < |w| ensures !AbsoluteAt(w, i) && !StepsOutAt(w, i) {
        PiecesAt(w, k, if i <= k then i else i - k - 1);
      }
    }
    if Inside(w) {
      forall i: nat | i < |a| ensures !AbsoluteAt(a, i) && !StepsOutAt(a, i) {
        PiecesAt(w, k, i);
      }
      forall i: nat | i < |b| ensures !AbsoluteAt(b, i) && !StepsOutAt(b, i) {
        PiecesAt(w, k, i);
      }
    }
  }

  predicate StepsNowhere(w: string) {
    forall i :: 0 <= i < |w| ==> !StepsOutAt(w, i)
  }

  lemma StepsCut(w: string, k: nat)
    requires k < |w| && w[k] == '/'
    ensures StepsNowhere(w) <==> StepsNowhere(w[..k]) && StepsNowhere(w[k + 1..])
  {
    hide AbsoluteAt, StepsOutAt, Separates;
    var a, b := w[..k], w[k + 1..];
    if StepsNowhere(a) && StepsNowhere(b) {
      forall i: nat | i < |w| ensures !StepsOutAt(w, i) {
        PiecesAt(w, k, if i <= k then i else i - k - 1);
      }
    }
    if StepsNowhere(w) {
      forall i: nat | i < |a| ensures !StepsOutAt(a, i) {
        PiecesAt(w, k, i);
      }
      forall i: nat | i < |b| ensures !StepsOutAt(b, i) {
        PiecesAt(w, k, i);
      }
    }
  }

  lemma OnePart(w: string)
    requires forall i :: 0 <= i < |w| ==> !Bounds(w[i])
    ensures StepsNowhere(w) <==> w != ".."
  {
    if w == ".." {
      assert StepsOutAt(w, 0);
    }
  }

  lemma {:induction false} PartsStep(w: string)
    requires forall i :: 0 <= i < |w| ==> !Separates(w[i])
    ensures StepsNowhere(w) <==> ".." !in Split(w, '/')
    decreases |w|
  {
    hide StepsNowhere, Separates;
    var n := FirstAt(w, '/');
    if n == |w| {
      OnePart(w);
    } else {
      var a, b := w[..n], w[n + 1..];
      StepsCut(w, n);
      OnePart(a);
      assert forall i :: 0 <= i < |b| ==> b[i] == w[n + 1 + i];
      PartsStep(b);
    }
  }

  lemma SegmentInside(w: string)
    requires forall i :: 0 <= i < |w| ==> !Separates(w[i])
    ensures Inside(w) <==> PartsInside(w)
  {
    PartsStep(w);
    assert StepsNowhere(w) && !HasPrefix(w, "/") ==> Inside(w) by {
      assert w != "" && w[0] == '/' ==> w[..1] == "/";
    }
    if HasPrefix(w, "/") {
      assert AbsoluteAt(w, 0);
    }
    hide Split;
  }

  /** A word stays inside exactly when each of its parts does. */
  lemma {:induction false} SegmentsInside(w: string)
    ensures Inside(w) <==> forall s :: s in FieldsFunc(w, Separates) ==> PartsInside(s)
    decreases |w|
  {
    hide PartsInside;
    if w == "" {
    } else if Separates(w[0]) {
      InsideCut(w, 0);
      SegmentsInside(w[1..]);
    } else {
      var n := Front(w, Separates);
      var a, b := w[..n], w[n..];
      SegmentInside(a);
      SegmentsInside(b);
      assert w == a + b;
      if b == "" {
        assert w == a;
      } else {
        InsideCut(w, n);
        InsideCut(b, 0);
        assert b[1..] == w[n + 1..];
      }
      hide Inside;
    }
  }
}
