/** What the modules share: optional values, bytes, the smaller and larger of two, and looking into sequences. */
module Basics {

  datatype Option<+T> = None | Some(value: T)

  newtype byte = x: int | 0 <= x < 256

  function Min(a: int, b: int): int {
    if a < b then a else b
  }

  function Max(a: int, b: int): int {
    if a < b then b else a
  }

  /** Where `x` is first in `s`; past the end when it is nowhere. */
  function FirstAt<T(==)>(s: seq<T>, x: T): (n: nat)
    ensures n <= |s|
    ensures forall i :: 0 <= i < n ==> s[i] != x
    ensures n < |s| ==> s[n] == x
  {
    if s == [] || s[0] == x then 0 else 1 + FirstAt(s[1..], x)
  }

  function HasSuffix(s: string, end: string): bool {
    |s| >= |end| && s[|s| - |end|..] == end
  }

  /** `s` without the characters at its end that `drops` says to drop. */
  function TrimRight(s: string, drops: char -> bool): (t: string)
    ensures |t| <= |s| && t == s[..|t|]
    ensures t != "" ==> !drops(t[|t| - 1])
    ensures forall i :: |t| <= i < |s| ==> drops(s[i])
  {
    if s != "" && drops(s[|s| - 1]) then TrimRight(s[..|s| - 1], drops) else s
  }
}
