/** The flags and words a command family may carry under a grant, as a grammar and as it is scanned. */
module GrantFlags {
  import opened Basics
  import opened Words
  import opened SafeWords

  predicate GoPackage(w: string) {
    w == "." || HasPrefix(w, "./")
    || (var first := Cut(w, '/').0; first != "" && '.' !in first)
  }

  const GrantValueFlags: set<string> := {
    "-run", "-count", "-covermode", "-coverpkg", "-timeout", "-p", "-parallel", "-bench", "-benchtime", "-cpu",
    "-tags", "-list", "-skip", "-shuffle", "-vet", "--package", "--features", "-F", "--bin", "--test", "--example",
    "-j", "--jobs", "-c", "--configuration", "-f", "--framework", "--filter", "--verbosity", "-T", "-pl",
    "--projects", "-P", "--tests", "--exclude-task", "-k", "--maxfail", "--tb", "--durations", "--select",
    "--ignore", "--test-name-pattern", "--test-concurrency", "--module" }

  const GradleValueFlags: set<string> := { "-x", "--exclude-task", "--tests" }

  /** Of a program's listed flags, those that may take the word after them as a value. */
  function ValueFlags(prog: string): set<string> {
    if prog == "gradle" then GradleValueFlags else GrantValueFlags
  }

  /** Whether what follows `--` is for the program that is built, not for the tool. */
  predicate PassThrough(key: string) {
    key == "cargo test" || key == "cargo run" || key == "npm"
  }

  predicate GoodModValue(value: string) {
    value == "readonly" || value == "vendor"
  }

  predicate IsFlag(a: string) {
    HasPrefix(a, "-") && a != "-" && a != "--"
  }

  /** The program a family's key starts with. */
  function Program(key: string): string
    requires Fields(key) != []
  {
    Fields(key)[0]
  }

  /** Word `i` is the value of the listed flag before it. */
  predicate ValueWord(prog: string, allowed: seq<string>, args: seq<string>, i: nat)
    requires i < |args|
  {
    i > 0 && IsFlag(args[i - 1]) && '=' !in args[i - 1] && args[i - 1] in allowed && args[i - 1] in ValueFlags(prog)
  }

  /** A flag that is listed, alone or with a value after `=`, or a `-mod` that never rewrites go.mod. */
  predicate FlagListed(prog: string, allowed: seq<string>, a: string) {
    Cut(a, '=').0 in allowed || (prog == "go" && (a == "-mod=readonly" || a == "-mod=vendor"))
  }

  /** What the grammar says of word `i`, which comes before any `--`. */
  predicate WordCovered(prog: string, allowed: seq<string>, args: seq<string>, i: nat)
    requires i < |args|
  {
    && StaysInside(args[i])
    && (prog == "mvn" ==> ':' !in args[i])
    && if IsFlag(args[i]) then FlagListed(prog, allowed, args[i])
       else ValueWord(prog, allowed, args, i) || (prog != "mvn" && prog != "gradle" && (prog == "go" ==> GoPackage(args[i])))
  }

  /** Where the first `--` is: every word comes before it when there is none. */
  function DashesAt(args: seq<string>): (d: nat)
    ensures d <= |args|
    ensures forall i :: 0 <= i < d ==> args[i] != "--"
    ensures d < |args| ==> args[d] == "--"
  {
    if args == [] || args[0] == "--" then 0 else 1 + DashesAt(args[1..])
  }

  /**
   The lines a family covers, as a grammar: before a `--` each word by itself and the
   one before it; after it, for the families that pass words through, safe words.
   */
  predicate ArgsCovered(key: string, allowed: seq<string>, args: seq<string>)
    requires Fields(key) != []
  {
    var d := DashesAt(args);
    && (forall i :: 0 <= i < d ==> WordCovered(Program(key), allowed, args, i))
    && (d < |args| ==> PassThrough(key))
    && (forall i :: d < i < |args| ==> StaysInside(args[i]))
  }

  lemma DashesUnique(args: seq<string>, d: nat)
    requires d <= |args| && (forall i :: 0 <= i < d ==> args[i] != "--")
    requires d < |args| ==> args[d] == "--"
    ensures DashesAt(args) == d
  {
  }

  lemma NotCovered(key: string, allowed: seq<string>, args: seq<string>, i: nat)
    requires Fields(key) != [] && i < |args| && (forall k :: 0 <= k <= i ==> args[k] != "--")
    requires !WordCovered(Program(key), allowed, args, i)
    ensures !ArgsCovered(key, allowed, args)
  {
    hide WordCovered, Fields;
    assert i < DashesAt(args);
  }

  lemma ModFlag(a: string)
    ensures var c := Cut(a, '=');
            c.0 == "-mod" && c.2 && GoodModValue(c.1) <==> a == "-mod=readonly" || a == "-mod=vendor"
  {
    var c := Cut(a, '=');
    hide Cut;
    assert "-mod" + "=" + "readonly" == "-mod=readonly" && "-mod" + "=" + "vendor" == "-mod=vendor";
    if a == "-mod=readonly" || a == "-mod=vendor" {
      assert a[4] == '=';
      CutAt(a, '=', 4);
      assert a[..4] == "-mod";
      assert a[5..] == "readonly" || a[5..] == "vendor";
    }
  }

  lemma CutAt(s: string, sep: char, n: nat)
    requires n < |s| && s[n] == sep && forall i :: 0 <= i < n ==> s[i] != sep
    ensures Cut(s, sep) == (s[..n], s[n + 1..], true)
  {
    var m := FirstAt(s, sep);
    assert m == n;
  }

  method FlagsAllowed(key: string, allowed: seq<string>, args: seq<string>) returns (ok: bool)
    requires Fields(key) != []
    ensures ok == ArgsCovered(key, allowed, args)
  {
    hide StaysInside, GoPackage, Fields, ArgsCovered, WordCovered, FlagListed, IsFlag;
    var prog := Program(key);
    var values := ValueFlags(prog);
    hide ValueFlags;
    var expectValue := false;
    for i := 0 to |args|
      invariant forall k :: 0 <= k < i ==> args[k] != "--" && WordCovered(prog, allowed, args, k)
      invariant i < |args| ==> expectValue == ValueWord(prog, allowed, args, i)
    {
      var a := args[i];
      var safe := SafeWord(a);
      if !safe || (prog == "mvn" && ':' in a) {
        BadWord(key, allowed, args, i);
        return false;
      }
      if a == "--" {
        DashesUnique(args, i);
        if !PassThrough(key) {
          TailCovered(key, allowed, args, i);
          return false;
        }
        for j := i + 1 to |args|
          invariant forall k :: i < k < j ==> StaysInside(args[k])
        {
          var restSafe := SafeWord(args[j]);
          if !restSafe {
            TailCovered(key, allowed, args, i);
            return false;
          }
        }
        TailCovered(key, allowed, args, i);
        return true;
      }
      WordIs(prog, allowed, args, i);
      if !HasPrefix(a, "-") || a == "-" {
        if !expectValue && (prog == "mvn" || prog == "gradle" || (prog == "go" && !GoPackage(a))) {
          NotCovered(key, allowed, args, i);
          return false;
        }
        expectValue := false;
        NextNoValue(prog, allowed, args, i);
        continue;
      }
      var (name, value, hasValue) := Cut(a, '=');
      var listed := false;
      for f := 0 to |allowed|
        invariant listed == (name in allowed[..f])
      {
        assert allowed[..f + 1] == allowed[..f] + [allowed[f]];
        listed := listed || allowed[f] == name;
      }
      assert allowed[..|allowed|] == allowed;
      ModFlag(a);
      NextValue(prog, allowed, args, i);
      if !listed {
        if prog != "go" || name != "-mod" || !hasValue || !GoodModValue(value) {
          NotCovered(key, allowed, args, i);
          return false;
        }
        expectValue := false;
        continue;
      }
      expectValue := !hasValue && name in values;
    }
    DashesUnique(args, |args|);
    TailCovered(key, allowed, args, |args|);
    return true;
  }

  lemma BadWord(key: string, allowed: seq<string>, args: seq<string>, i: nat)
    requires Fields(key) != [] && i < |args| && (forall k :: 0 <= k < i ==> args[k] != "--")
    requires !StaysInside(args[i]) || (Program(key) == "mvn" && ':' in args[i])
    ensures !ArgsCovered(key, allowed, args)
  {
    if args[i] == "--" {
      DashesSafe();
    } else {
      hide StaysInside, Fields;
      NotCovered(key, allowed, args, i);
    }
  }

  lemma DashesSafe()
    ensures StaysInside("--") && ':' !in "--"
  {
  }

  lemma {:induction false} TailCovered(key: string, allowed: seq<string>, args: seq<string>, d: nat)
    requires Fields(key) != [] && d == DashesAt(args)
    requires forall k :: 0 <= k < d ==> WordCovered(Program(key), allowed, args, k)
    ensures ArgsCovered(key, allowed, args) <==>
              (d < |args| ==> PassThrough(key)) && forall k :: d < k < |args| ==> StaysInside(args[k])
  {
    hide WordCovered, StaysInside, Fields;
  }

  lemma WordIs(prog: string, allowed: seq<string>, args: seq<string>, i: nat)
    requires i < |args| && args[i] != "--" && StaysInside(args[i]) && (prog == "mvn" ==> ':' !in args[i])
    ensures IsFlag(args[i]) <==> HasPrefix(args[i], "-") && args[i] != "-"
    ensures WordCovered(prog, allowed, args, i) <==>
              if HasPrefix(args[i], "-") && args[i] != "-" then
                Cut(args[i], '=').0 in allowed || (prog == "go" && (args[i] == "-mod=readonly" || args[i] == "-mod=vendor"))
              else ValueWord(prog, allowed, args, i) || (prog != "mvn" && prog != "gradle" && (prog == "go" ==> GoPackage(args[i])))
  {
    hide StaysInside, GoPackage, ValueWord, Cut;
  }

  lemma NextNoValue(prog: string, allowed: seq<string>, args: seq<string>, i: nat)
    requires i < |args| && !IsFlag(args[i])
    ensures i + 1 < |args| ==> !ValueWord(prog, allowed, args, i + 1)
  {
  }

  lemma NextValue(prog: string, allowed: seq<string>, args: seq<string>, i: nat)
    requires i < |args| && IsFlag(args[i])
    ensures var c := Cut(args[i], '=');
            i + 1 < |args| ==> (ValueWord(prog, allowed, args, i + 1) <==> c.0 in allowed && !c.2 && c.0 in ValueFlags(prog))
  {
    hide ValueFlags, FirstAt;
  }

  /** A line a family covers is covered however many words are left off its end. */
  lemma ArgsPrefix(key: string, allowed: seq<string>, args: seq<string>, n: nat)
    requires Fields(key) != [] && n <= |args| && ArgsCovered(key, allowed, args)
    ensures ArgsCovered(key, allowed, args[..n])
  {
    hide StaysInside, Fields, FlagListed, GoPackage, IsFlag;
    var front, d := args[..n], DashesAt(args);
    DashesUnique(front, if d < n then d else n);
    forall i | 0 <= i < DashesAt(front) ensures WordCovered(Program(key), allowed, front, i) {
      assert WordCovered(Program(key), allowed, args, i);
      assert front[i] == args[i] && (i > 0 ==> front[i - 1] == args[i - 1]);
    }
    hide WordCovered;
  }
}
