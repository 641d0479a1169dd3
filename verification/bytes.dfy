/** The byte type and the substring test of Go's `bytes` package, which every
    hook uses to answer `Provides`. */
module Bytes {

  newtype byte = x: int | 0 <= x < 256

  /** Reference meaning of containment: `sub` occurs in `s` starting at `i`. */
  ghost predicate OccursAt<T>(s: seq<T>, sub: seq<T>, i: int)
  {
    0 <= i && i + |sub| <= |s| && s[i..i + |sub|] == sub
  }

  /** `bytes.Contains(s, sub)`: scans `s` from the left for a run equal to `sub`. */
  function Contains<T(==)>(s: seq<T>, sub: seq<T>): bool
    decreases |s|
  {
    if |sub| > |s| then false
    else if s[..|sub|] == sub then true
    else Contains(s[1..], sub)
  }

  /** The scan agrees with the reference meaning on every input. */
  lemma {:induction false} ContainsMeaning<T>(s: seq<T>, sub: seq<T>)
    ensures Contains(s, sub) <==> exists i :: OccursAt(s, sub, i)
    decreases |s|
  {
    if |sub| > |s| {
      assert forall i :: !OccursAt(s, sub, i);
    } else if s[..|sub|] == sub {
      assert OccursAt(s, sub, 0);
    } else {
      ContainsMeaning(s[1..], sub);
      forall i | OccursAt(s[1..], sub, i)
        ensures OccursAt(s, sub, i + 1)
      {
        assert s[1..][i..i + |sub|] == s[i + 1..i + 1 + |sub|];
      }
      forall i | OccursAt(s, sub, i)
        ensures i >= 1 && OccursAt(s[1..], sub, i - 1)
      {
        assert i != 0;
        assert s[1..][i - 1..i - 1 + |sub|] == s[i..i + |sub|];
      }
    }
  }

  /** Searching for a one-element run is a membership test, which is how the
      hooks use `bytes.Contains(list, []byte{b})`. */
  lemma {:induction false} ContainsSingleton<T>(s: seq<T>, b: T)
    ensures Contains(s, [b]) <==> b in s
    decreases |s|
  {
    if |s| == 0 {
    } else if s[..1] == [b] {
      assert s[0] == b;
    } else {
      assert s[0] != b by { assert s[..1] == [s[0]]; }
      ContainsSingleton(s[1..], b);
      assert s == [s[0]] + s[1..];
    }
  }
}
