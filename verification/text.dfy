/**
 * String helpers the message formatters are built from: JavaScript's
 * `Array.prototype.join` with a one-character separator, the matching
 * `String.prototype.split`, and the removal of a known prefix and suffix.
 */
module Text {
  import opened Wrappers

  /** `xs.join(sep)`: the pieces in order, separated by `sep`. */
  function Join(xs: seq<string>, sep: char): string
  {
    if |xs| == 0 then ""
    else if |xs| == 1 then xs[0]
    else xs[0] + [sep] + Join(xs[1..], sep)
  }

  /** Position of the first `c` in `s`. */
  function FirstIndex(s: string, c: char): (i: nat)
    requires c in s
    ensures i < |s| && s[i] == c
    ensures c !in s[..i]
  {
    if s[0] == c then 0
    else
      var j := FirstIndex(s[1..], c);
      assert s[..j + 1] == [s[0]] + s[1..][..j];
      j + 1
  }

  /** `s.split(sep)`: the maximal `sep`-free pieces of `s`, in order. */
  function Split(s: string, sep: char): (r: seq<string>)
    ensures |r| > 0
    ensures forall k :: 0 <= k < |r| ==> sep !in r[k]
    decreases |s|
  {
    if sep in s then
      var i := FirstIndex(s, sep);
      [s[..i]] + Split(s[i + 1..], sep)
    else [s]
  }

  /** Splitting a join of separator-free pieces gives the pieces back. */
  lemma {:induction false} SplitJoin(xs: seq<string>, sep: char)
    requires |xs| > 0
    requires forall k :: 0 <= k < |xs| ==> sep !in xs[k]
    ensures Split(Join(xs, sep), sep) == xs
  {
    if |xs| == 1 {
      assert Join(xs, sep) == xs[0];
    } else {
      var rest := Join(xs[1..], sep);
      var s := xs[0] + [sep] + rest;
      assert Join(xs, sep) == s;
      assert s[|xs[0]|] == sep;
      var i := FirstIndex(s, sep);
      assert s[..|xs[0]|] == xs[0];
      assert forall k :: 0 <= k < |xs[0]| ==> s[k] == xs[0][k];
      assert s[..i] == xs[0];
      assert s[i + 1..] == rest;
      SplitJoin(xs[1..], sep);
      assert [xs[0]] + xs[1..] == xs;
    }
  }

  /** Joining the pieces of a split gives the string back. */
  lemma {:induction false} JoinSplit(s: string, sep: char)
    ensures Join(Split(s, sep), sep) == s
    decreases |s|
  {
    if sep in s {
      var i := FirstIndex(s, sep);
      var tail := Split(s[i + 1..], sep);
      JoinSplit(s[i + 1..], sep);
      var pieces := [s[..i]] + tail;
      assert Split(s, sep) == pieces;
      assert pieces[1..] == tail;
      assert Join(pieces, sep) == s[..i] + [sep] + Join(tail, sep);
      assert s == s[..i] + [s[i]] + s[i + 1..];
    }
  }

  /** `s` with `prefix` and `suffix` removed, when it has both. */
  function Unwrap(prefix: string, s: string, suffix: string): (r: Option<string>)
    ensures r.Some? ==> s == prefix + r.value + suffix
  {
    if |prefix| + |suffix| <= |s| && s[..|prefix|] == prefix && s[|s| - |suffix|..] == suffix then
      var inner := s[|prefix|..|s| - |suffix|];
      assert s == s[..|prefix|] + inner + s[|s| - |suffix|..];
      Some(inner)
    else None
  }

  /** Unwrapping a wrapped string recovers it exactly. */
  lemma UnwrapWrap(prefix: string, x: string, suffix: string)
    ensures Unwrap(prefix, prefix + x + suffix, suffix) == Some(x)
  {
    var s := prefix + x + suffix;
    assert s[..|prefix|] == prefix;
    assert s[|s| - |suffix|..] == suffix;
    assert s[|prefix|..|s| - |suffix|] == x;
  }

  /** Two strings wrapped in the same prefix and suffix are equal exactly when the wrapped parts are. */
  lemma WrapInjective(prefix: string, a: string, b: string, suffix: string)
    ensures prefix + a + suffix == prefix + b + suffix <==> a == b
  {
    UnwrapWrap(prefix, a, suffix);
    UnwrapWrap(prefix, b, suffix);
  }
}
