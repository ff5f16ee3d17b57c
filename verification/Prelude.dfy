/** Vocabulary shared by every component. */
module Prelude {

  datatype Option<+T> = None | Some(value: T)

  datatype Result<+T, +E> = Ok(value: T) | Err(error: E)

  /** No value occurs twice. */
  predicate Distinct<T(==)>(xs: seq<T>) {
    forall i, j :: 0 <= i < j < |xs| ==> xs[i] != xs[j]
  }

  /** The greatest index below `n` that satisfies `p`: the row that ORDER BY ... DESC LIMIT 1 returns. */
  function LastIndex(n: nat, p: nat -> bool): (r: Option<nat>)
    ensures r.None? ==> forall i: nat :: i < n ==> !p(i)
    ensures r.Some? ==> r.value < n && p(r.value) && forall i: nat :: r.value < i < n ==> !p(i)
  {
    if n == 0 then None
    else if p(n - 1) then Some(n - 1)
    else LastIndex(n - 1, p)
  }

  /** What is dropped from the front of a join comes off its first part. */
  lemma DropJoin<T>(s: seq<T>, t: seq<T>, i: nat)
    requires i <= |s|
    ensures (s + t)[i..] == s[i..] + t
  {
  }

  lemma HeadTail<T>(s: seq<T>)
    requires s != []
    ensures s == [s[0]] + s[1..]
  {
  }

  /** The length of a character in UTF-8. */
  function Utf8Width(c: char): nat {
    var n := c as int;
    if n < 0x80 then 1 else if n < 0x800 then 2 else if n < 0x10000 then 3 else 4
  }

  function Utf8Size(s: string): nat {
    if s == [] then 0 else Utf8Size(s[..|s| - 1]) + Utf8Width(s[|s| - 1])
  }
}
