/** Cutting text into words and parts, as the Go string functions the grants read with do. */
module Words {
  import opened Basics

  /** The white space that ends a word (Unicode's White_Space). */
  predicate IsSpace(c: char) {
    || '\t' <= c <= '\r' || c == ' ' || c == '\U{85}' || c == '\U{a0}' || c == '\U{1680}'
    || '\U{2000}' <= c <= '\U{200a}' || c == '\U{2028}' || c == '\U{2029}' || c == '\U{202f}'
    || c == '\U{205f}' || c == '\U{3000}'
  }

  /** How many bytes a character takes in UTF-8. */
  function Width(c: char): nat {
    if c < '\U{80}' then 1 else if c < '\U{800}' then 2 else if c < '\U{10000}' then 3 else 4
  }

  /** How many bytes `s` takes in UTF-8. */
  function Length(s: string): nat {
    if s == "" then 0 else Width(s[0]) + Length(s[1..])
  }

  function HasPrefix(s: string, prefix: string): bool {
    prefix <= s
  }

  /** How many characters at the front of `s` do not separate. */
  function Front(s: string, sep: char -> bool): (n: nat)
    ensures n <= |s|
    ensures forall i :: 0 <= i < n ==> !sep(s[i])
    ensures n < |s| ==> sep(s[n])
  {
    if s == "" || sep(s[0]) then 0 else 1 + Front(s[1..], sep)
  }

  /** The runs of characters that do not separate. */
  function FieldsFunc(s: string, sep: char -> bool): (words: seq<string>)
    ensures s != "" && !sep(s[0]) ==> words != []
    decreases |s|
  {
    if s == "" then []
    else if sep(s[0]) then FieldsFunc(s[1..], sep)
    else
      var n := Front(s, sep);
      [s[..n]] + FieldsFunc(s[n..], sep)
  }

  function Fields(s: string): (words: seq<string>)
    ensures s != "" && !IsSpace(s[0]) ==> words != []
  {
    FieldsFunc(s, IsSpace)
  }

  /** The parts of `s` between each `sep`: one more than there are of it. */
  function Split(s: string, sep: char): (parts: seq<string>)
    ensures parts != []
    decreases |s|
  {
    var n := FirstAt(s, sep);
    if n == |s| then [s] else [s[..n]] + Split(s[n + 1..], sep)
  }

  function TrimLeft(s: string): (t: string)
    ensures t != "" ==> !IsSpace(t[0])
    ensures |t| <= |s| && t == s[|s| - |t|..]
    ensures forall i :: 0 <= i < |s| - |t| ==> IsSpace(s[i])
  {
    if s != "" && IsSpace(s[0]) then TrimLeft(s[1..]) else s
  }

  function TrimSpace(s: string): (t: string)
    ensures t != "" ==> !IsSpace(t[0]) && !IsSpace(t[|t| - 1])
  {
    TrimRight(TrimLeft(s), IsSpace)
  }

  function Join(words: seq<string>): string {
    if words == [] then "" else if |words| == 1 then words[0] else words[0] + " " + Join(words[1..])
  }

  /** The text before the first `sep`, the text after it, and whether it is there. */
  function Cut(s: string, sep: char): (r: (string, string, bool))
    ensures sep !in r.0
    ensures if r.2 then s == r.0 + [sep] + r.1 else s == r.0 && sep !in s && r.1 == ""
  {
    var n := FirstAt(s, sep);
    if n < |s| then (s[..n], s[n + 1..], true) else (s, "", false)
  }

  // ---------- Words and their line ----------

  /** Words as they come from a line: none empty, none with white space in it. */
  predicate AreWords(words: seq<string>) {
    forall w :: w in words ==> w != "" && forall i :: 0 <= i < |w| ==> !IsSpace(w[i])
  }

  lemma {:induction false} FieldsAreWords(s: string)
    ensures AreWords(Fields(s))
    decreases |s|
  {
    hide IsSpace;
    if s == "" {
    } else if IsSpace(s[0]) {
      FieldsAreWords(s[1..]);
    } else {
      FieldsAreWords(s[Front(s, IsSpace)..]);
    }
  }

  lemma WordsTail(words: seq<string>, n: nat)
    requires AreWords(words) && n <= |words|
    ensures AreWords(words[n..]) && AreWords(words[..n])
  {
    hide IsSpace;
    assert forall w :: w in words[n..] || w in words[..n] ==> w in words;
  }

  lemma {:induction false} FieldsSpaces(a: string, s: string)
    requires forall i :: 0 <= i < |a| ==> IsSpace(a[i])
    ensures Fields(a + s) == Fields(s)
  {
    hide IsSpace;
    if a == "" {
      assert a + s == s;
    } else {
      assert (a + s)[1..] == a[1..] + s;
      FieldsSpaces(a[1..], s);
    }
  }

  /** The first word of a line that starts with one. */
  lemma FieldsWord(w: string, s: string)
    requires w != "" && (forall i :: 0 <= i < |w| ==> !IsSpace(w[i]))
    requires s == "" || IsSpace(s[0])
    ensures Fields(w + s) == [w] + Fields(s)
  {
    hide IsSpace;
    var n := Front(w + s, IsSpace);
    assert (w + s)[0] == w[0];
    assert forall i :: 0 <= i < |w| ==> (w + s)[i] == w[i];
    assert s != "" ==> (w + s)[|w|] == s[0];
    assert n == |w|;
    assert (w + s)[..n] == w && (w + s)[n..] == s;
  }

  lemma FieldsJoinStep(w: string, rest: string)
    requires w != "" && (forall i :: 0 <= i < |w| ==> !IsSpace(w[i]))
    ensures Fields(w + " " + rest) == [w] + Fields(rest)
    ensures Fields(w) == [w]
  {
    hide Fields, IsSpace;
    SpaceIs();
    FieldsWord(w, " " + rest);
    FieldsSpaces(" ", rest);
    assert w + " " + rest == w + (" " + rest);
    FieldsWord(w, "");
    FieldsEmpty();
    assert w + "" == w;
  }

  lemma SpaceIs()
    ensures IsSpace(' ')
  {
  }

  lemma FieldsEmpty()
    ensures Fields("") == []
  {
  }

  /** Joining words and cutting the line again gives the words back. */
  lemma {:induction false} FieldsOfJoin(words: seq<string>)
    requires AreWords(words)
    ensures Fields(Join(words)) == words
  {
    hide IsSpace, Fields;
    if words == [] {
      FieldsEmpty();
    } else {
      assert words[0] in words;
      FieldsJoinStep(words[0], Join(words[1..]));
      WordsTail(words, 1);
      hide AreWords;
      FieldsOfJoin(words[1..]);
      assert words == [words[0]] + words[1..];
    }
  }

  lemma {:induction false} FieldsEnd(s: string, b: string)
    requires forall i :: 0 <= i < |b| ==> IsSpace(b[i])
    ensures Fields(s + b) == Fields(s)
    decreases |s|
  {
    hide IsSpace;
    if s == "" {
      assert s + b == b == b + "";
      FieldsSpaces(b, "");
    } else if IsSpace(s[0]) {
      assert (s + b)[1..] == s[1..] + b;
      FieldsEnd(s[1..], b);
    } else {
      var n := Front(s, IsSpace);
      var w, rest := s[..n], s[n..] + b;
      assert s + b == w + rest && s == w + s[n..];
      assert rest != "" ==> IsSpace(rest[0]);
      hide Fields;
      FieldsEnd(s[n..], b);
      FieldsWord(w, rest);
      FieldsWord(w, s[n..]);
    }
  }

  /** The white space around a line makes no difference to its words. */
  lemma FieldsOfTrimmed(s: string)
    ensures Fields(TrimSpace(s)) == Fields(s)
  {
    hide IsSpace, TrimLeft, TrimRight, Fields;
    var l := TrimLeft(s);
    var t := TrimRight(l, IsSpace);
    assert s == s[..|s| - |l|] + l;
    hide Fields;
    FieldsSpaces(s[..|s| - |l|], l);
    assert l == t + l[|t|..];
    FieldsEnd(t, l[|t|..]);
  }

  lemma {:induction false} LengthJoin(a: string, b: string)
    ensures Length(a + b) == Length(a) + Length(b)
  {
    if a == "" {
      assert a + b == b;
    } else {
      assert (a + b)[1..] == a[1..] + b;
      LengthJoin(a[1..], b);
    }
  }

  /** A line cut to its first words is no longer than it was, and made of the same characters and spaces. */
  lemma {:induction false} JoinOfFields(s: string, m: nat)
    requires m <= |Fields(s)|
    ensures Length(Join(Fields(s)[..m])) <= Length(s)
    ensures forall c :: c in Join(Fields(s)[..m]) ==> c in s || c == ' '
    decreases |s|
  {
    hide IsSpace;
    hide Fields, Join, Length;
    if m == 0 {
      assert Fields(s)[..m] == [];
      JoinNone(s);
    } else if s == "" {
      FieldsEmpty();
    } else if IsSpace(s[0]) {
      FieldsSpaces(s[..1], s[1..]);
      assert s == s[..1] + s[1..];
      JoinOfFields(s[1..], m);
      LengthTail(s);
    } else {
      var n := Front(s, IsSpace);
      var w, rest := s[..n], s[n..];
      assert s == w + rest;
      FieldsWord(w, rest);
      if m == 1 {
        assert Fields(s)[..m] == [w];
        LengthJoin(w, rest);
        JoinOne(w);
      } else {
        if rest == "" {
          FieldsEmpty();
        }
        FieldsSpaces(rest[..1], rest[1..]);
        assert rest == rest[..1] + rest[1..];
        JoinOfFields(rest[1..], m - 1);
        JoinWord(w, rest, Fields(rest[1..])[..m - 1]);
        assert Fields(s)[..m] == [w] + Fields(rest[1..])[..m - 1];
      }
    }
  }

  lemma JoinNone(s: string)
    ensures Length(Join([])) <= Length(s) && Join([]) == ""
  {
  }

  lemma JoinOne(w: string)
    ensures Join([w]) == w
  {
  }

  lemma LengthTail(s: string)
    requires s != ""
    ensures Length(s[1..]) <= Length(s)
  {
  }

  lemma {:induction false} JoinWord(w: string, rest: string, words: seq<string>)
    requires rest != "" && words != []
    requires Length(Join(words)) <= Length(rest[1..])
    requires forall c :: c in Join(words) ==> c in rest[1..] || c == ' '
    ensures Length(Join([w] + words)) <= Length(w + rest)
    ensures forall c :: c in Join([w] + words) ==> c in w + rest || c == ' '
  {
    assert ([w] + words)[1..] == words;
    var j := Join(words);
    assert Join([w] + words) == w + " " + j;
    JoinLength(w, rest, j);
    hide Join, Length, Width;
    forall c | c in w + " " + j ensures c in w + rest || c == ' ' {
      assert c in w || c == ' ' || c in j;
      assert c in j ==> c in rest || c == ' ';
    }
  }

  lemma {:induction false} JoinLength(w: string, rest: string, j: string)
    requires rest != "" && Length(j) <= Length(rest[1..])
    ensures Length(w + " " + j) <= Length(w + rest)
  {
    LengthJoin(w + " ", j);
    LengthJoin(w, " ");
    LengthJoin(w, rest);
    assert " "[1..] == "";
  }

  /** A line made of words has no white space around it. */
  lemma {:induction false} JoinTrimmed(words: seq<string>)
    requires AreWords(words) && words != []
    ensures Join(words) != "" && !IsSpace(Join(words)[0]) && !IsSpace(Join(words)[|Join(words)| - 1])
    ensures TrimSpace(Join(words)) == Join(words)
  {
    hide IsSpace;
    assert words[0] in words;
    if |words| > 1 {
      WordsTail(words, 1);
      JoinTrimmed(words[1..]);
      var rest := Join(words[1..]);
      var j := words[0] + " " + rest;
      assert j[0] == words[0][0];
      assert j[|j| - 1] == rest[|rest| - 1];
    }
  }
}
