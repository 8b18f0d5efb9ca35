/** Result types and small helpers shared by the modules of this project. */
module Wrappers {

  datatype Option<+T> = None | Some(value: T)

  datatype Result<+T, +E> = Ok(value: T) | Err(error: E)

  function Lookup<K, V>(m: map<K, V>, k: K): Option<V> {
    if k in m then Some(m[k]) else None
  }

  /** The position of the first `c` in `s`, or the length of `s`. */
  function Find(s: string, c: char): (i: nat)
    ensures i <= |s| && (i < |s| ==> s[i] == c)
  {
    if s == [] || s[0] == c then 0 else 1 + Find(s[1..], c)
  }

  lemma {:induction false} FindFirst(s: string, c: char, k: nat)
    requires k < Find(s, c)
    ensures s[k] != c
    decreases |s|
  {
    if k > 0 { FindFirst(s[1..], c, k - 1); }
  }

  lemma {:induction false} FindAfter(s: string, c: char, rest: string)
    requires (forall i | 0 <= i < |s| :: s[i] != c) && rest != [] && rest[0] == c
    ensures Find(s + rest, c) == |s|
    decreases |s|
  {
    if s == [] {
      assert s + rest == rest;
    } else {
      assert (s + rest)[0] == s[0] && (s + rest)[1..] == s[1..] + rest;
      FindAfter(s[1..], c, rest);
    }
  }
}
