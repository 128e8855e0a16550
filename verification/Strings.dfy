/** The functions of Go's package strings that the modelled code uses. */
module Strings {

  predicate HasPrefix(s: string, p: string) {
    |p| <= |s| && s[..|p|] == p
  }

  predicate HasSuffix(s: string, x: string) {
    |x| <= |s| && s[|s| - |x|..] == x
  }

  function TrimPrefix(s: string, p: string): string {
    if HasPrefix(s, p) then s[|p|..] else s
  }

  function TrimSuffix(s: string, x: string): string {
    if HasSuffix(s, x) then s[..|s| - |x|] else s
  }

  function TrimLeft(s: string, c: char): string {
    if s != [] && s[0] == c then TrimLeft(s[1..], c) else s
  }

  function TrimRight(s: string, c: char): string {
    if s != [] && s[|s| - 1] == c then TrimRight(s[..|s| - 1], c) else s
  }

  /** strings.Trim with a cutset of one character. */
  function Trim(s: string, c: char): string {
    TrimRight(TrimLeft(s, c), c)
  }

  /** `sub` occurs in `s` at position `i`. */
  predicate OccursAt(s: string, sub: string, i: int) {
    0 <= i <= |s| - |sub| && s[i..i + |sub|] == sub
  }

  predicate Contains(s: string, sub: string) {
    exists i | 0 <= i <= |s| :: OccursAt(s, sub, i)
  }

  /** First occurrence at or after `from`, or -1. */
  function IndexFrom(s: string, sub: string, from: nat): (r: int)
    requires from <= |s| + 1
    ensures r == -1 ==> forall i | from <= i :: !OccursAt(s, sub, i)
    ensures r != -1 ==> from <= r && OccursAt(s, sub, r) && forall i | from <= i < r :: !OccursAt(s, sub, i)
    decreases |s| + 1 - from
  {
    if from > |s| - |sub| then -1
    else if OccursAt(s, sub, from) then from
    else IndexFrom(s, sub, from + 1)
  }

  function Index(s: string, sub: string): (r: int)
    ensures r == -1 ==> forall i :: !OccursAt(s, sub, i)
    ensures r != -1 ==> OccursAt(s, sub, r) && forall i | 0 <= i < r :: !OccursAt(s, sub, i)
  {
    IndexFrom(s, sub, 0)
  }

  /** Last position of a character, or -1. */
  function LastIndexOf(s: string, c: char): (r: int)
    ensures -1 <= r < |s|
    ensures r == -1 ==> c !in s
    ensures r >= 0 ==> s[r] == c && c !in s[r + 1..]
  {
    if s == [] then -1
    else if s[|s| - 1] == c then |s| - 1
    else LastIndexOf(s[..|s| - 1], c)
  }

  /** strings.Split with a separator that is not empty. */
  function Split(s: string, sep: string): (r: seq<string>)
    requires sep != []
    ensures |r| >= 1
    decreases |s|
  {
    var i := Index(s, sep);
    if i == -1 then [s] else [s[..i]] + Split(s[i + |sep|..], sep)
  }

  lemma {:induction false} SplitCut(s: string, sep: string)
    requires sep != []
    ensures var i := Index(s, sep);
            if i == -1 then Split(s, sep) == [s]
            else Split(s, sep) == [s[..i]] + Split(s[i + |sep|..], sep) && |Split(s, sep)| == 1 + |Split(s[i + |sep|..], sep)|
  {
  }

  function Join(parts: seq<string>, sep: string): string {
    if parts == [] then ""
    else if |parts| == 1 then parts[0]
    else parts[0] + sep + Join(parts[1..], sep)
  }

  /** Splitting loses nothing: joining the parts gives the text back. */
  lemma {:induction false} JoinSplit(s: string, sep: string)
    requires sep != []
    ensures Join(Split(s, sep), sep) == s
    decreases |s|
  {
    var i := Index(s, sep);
    SplitCut(s, sep);
    if i != -1 {
      var rest := Split(s[i + |sep|..], sep);
      JoinSplit(s[i + |sep|..], sep);
      assert ([s[..i]] + rest)[1..] == rest;
      assert s == s[..i] + sep + s[i + |sep|..];
    }
  }

  /** A separator of one character cuts at its first occurrence. */
  lemma {:induction false} SplitAt(s: string, c: char, t: string)
    requires c !in s
    ensures Index(s, [c]) == -1 && Index(s + [c] + t, [c]) == |s|
    ensures Split(s, [c]) == [s]
    ensures Split(s + [c] + t, [c]) == [s] + Split(t, [c])
  {
    forall i
      ensures !OccursAt(s, [c], i)
    {
      if 0 <= i < |s| {
        assert s[i..i + 1] == [s[i]];
      }
    }
    var whole := s + [c] + t;
    forall i | 0 <= i < |s|
      ensures !OccursAt(whole, [c], i)
    {
      assert whole[i..i + 1] == [s[i]];
    }
    assert whole[|s|..|s| + 1] == [c];
    assert OccursAt(whole, [c], |s|);
    assert Index(whole, [c]) == |s|;
    assert whole[|s| + 1..] == t && whole[..|s|] == s;
  }

  predicate AllFree(parts: seq<string>, c: char) {
    forall i | 0 <= i < |parts| :: c !in parts[i]
  }

  lemma {:induction false} BeforeIndex(s: string, c: char)
    ensures Index(s, [c]) == -1 ==> c !in s
    ensures Index(s, [c]) != -1 ==> c !in s[..Index(s, [c])] && s[Index(s, [c])] == c && s == s[..Index(s, [c])] + [c] + s[Index(s, [c]) + 1..]
  {
    var i := Index(s, [c]);
    if i != -1 {
      assert s[i..i + 1][0] == s[i];
    }
    forall k | 0 <= k < |s| && s[k] == c
      ensures i != -1 && k >= i
    {
      assert s[k..k + 1] == [c];
      assert OccursAt(s, [c], k);
    }
  }

  /** The parts do not hold the separator. */
  lemma {:induction false} SplitFree(s: string, c: char)
    ensures AllFree(Split(s, [c]), c)
    decreases |s|
  {
    BeforeIndex(s, c);
    var i := Index(s, [c]);
    if i != -1 {
      SplitFree(s[i + 1..], c);
      assert Split(s, [c]) == [s[..i]] + Split(s[i + |[c]|..], [c]);
    }
  }

  /** Joining undoes nothing that splitting would not find again. */
  lemma {:induction false} SplitJoin(parts: seq<string>, c: char)
    requires parts != [] && AllFree(parts, c)
    ensures Split(Join(parts, [c]), [c]) == parts
    decreases |parts|
  {
    if |parts| == 1 {
      SplitAt(parts[0], c, "");
    } else {
      SplitJoin(parts[1..], c);
      SplitAt(parts[0], c, Join(parts[1..], [c]));
      assert [parts[0]] + parts[1..] == parts;
    }
  }
}
