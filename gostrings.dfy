/** Byte strings and the parts of Go's `strings` package that the digest
    pipeline relies on: `strings.Index`, `strings.Contains` and
    `strings.Replace(s, old, "", -1)`.  Go strings are byte sequences and
    every offset in main.go is a byte offset, so text is modelled as a
    sequence of bytes. */
module GoStrings {

  newtype byte = b: int | 0 <= b < 256

  /** A Go `string`: an immutable sequence of bytes. */
  type Str = seq<byte>

  datatype Option<T> = None | Some(value: T)

  /** The bytes of a literal written in ASCII (every literal of main.go
      except the emoji, which are spelled out as UTF-8 bytes where used). */
  function Ascii(s: string): (r: Str)
    ensures |r| == |s|
  {
    seq(|s|, i requires 0 <= i < |s| => (s[i] as int % 256) as byte)
  }

  /** `t` occurs in `s` starting at byte offset `i`. */
  predicate OccursAt(s: Str, t: Str, i: int)
  {
    0 <= i && i + |t| <= |s| && s[i..i + |t|] == t
  }

  /** Go's `strings.Index(s, t)`: the byte offset of the first occurrence
      of `t` in `s`, or -1 when there is none. */
  function IndexOf(s: Str, t: Str): (r: int)
    ensures -1 <= r
    ensures r >= 0 ==> OccursAt(s, t, r)
    ensures forall i :: 0 <= i < r ==> !OccursAt(s, t, i)
    ensures r == -1 <==> forall i :: 0 <= i <= |s| - |t| ==> !OccursAt(s, t, i)
    decreases |s|
  {
    if |t| > |s| then -1
    else if s[..|t|] == t then assert OccursAt(s, t, 0); 0
    else
      var k := IndexOf(s[1..], t);
      ShiftOccurrence(s, t);
      if k < 0 then -1 else k + 1
  }

  /** An occurrence at offset i >= 1 of `s` is one at offset i - 1 of `s[1..]`. */
  lemma ShiftOccurrence(s: Str, t: Str)
    requires |s| > 0
    ensures forall i :: 1 <= i ==> (OccursAt(s, t, i) <==> OccursAt(s[1..], t, i - 1))
  {
    forall i | 1 <= i
      ensures OccursAt(s, t, i) <==> OccursAt(s[1..], t, i - 1)
    {
      if i + |t| <= |s| {
        var u := s[1..];
        assert |u| == |s| - 1;
        var x, y := s[i..i + |t|], u[i - 1..i - 1 + |t|];
        assert forall j :: 0 <= j < |t| ==> x[j] == y[j];
        assert x == y;
      }
    }
  }

  /** Go's `strings.Contains(s, t)`, which is `strings.Index(s, t) >= 0`. */
  predicate Contains(s: Str, t: Str)
  {
    IndexOf(s, t) >= 0
  }

  lemma ContainsIff(s: Str, t: Str)
    ensures Contains(s, t) <==> exists i :: OccursAt(s, t, i)
  {
    if !Contains(s, t) {
      forall i ensures !OccursAt(s, t, i) {
      }
    }
  }

  /** A string none of whose bytes is `t`'s first byte does not contain `t`. */
  lemma NoFirstByte(s: Str, t: Str)
    requires |t| > 0 && forall i :: 0 <= i < |s| ==> s[i] != t[0]
    ensures !Contains(s, t)
  {
    forall i | 0 <= i <= |s| - |t|
      ensures !OccursAt(s, t, i)
    {
      assert s[i..i + |t|][0] == s[i];
    }
  }

  /** If `t` occurs at `k` and nowhere before, `strings.Index` finds `k`. */
  lemma IndexOfFirst(s: Str, t: Str, k: int)
    requires OccursAt(s, t, k)
    requires forall i :: 0 <= i < k ==> !OccursAt(s, t, i)
    ensures IndexOf(s, t) == k
  {
  }

  /** `strings.Replace(s, pat, "", -1)`: delete every occurrence of `pat`,
      scanning left to right without overlap (Go replaces the leftmost
      occurrence, then continues after it). */
  function RemoveAll(s: Str, pat: Str): (r: Str)
    requires |pat| > 0
    ensures |r| <= |s|
    decreases |s|
  {
    if |s| < |pat| then s
    else if s[..|pat|] == pat then RemoveAll(s[|pat|..], pat)
    else [s[0]] + RemoveAll(s[1..], pat)
  }

  /** Without an occurrence of `pat` there is nothing to delete. */
  lemma {:induction false} RemoveAllAbsent(s: Str, pat: Str)
    requires |pat| > 0 && !Contains(s, pat)
    ensures RemoveAll(s, pat) == s
    decreases |s|
  {
    if |s| >= |pat| {
      assert !OccursAt(s, pat, 0);
      ShiftOccurrence(s, pat);
      assert !Contains(s[1..], pat);
      RemoveAllAbsent(s[1..], pat);
      assert [s[0]] + s[1..] == s;
    }
  }

  /** A prefix that cannot start an occurrence of `pat` (none of its bytes is
      `pat`'s first byte) is left untouched by `RemoveAll`. */
  lemma {:induction false} RemoveAllKeepsPrefix(a: Str, b: Str, pat: Str)
    requires |pat| > 0
    requires forall i :: 0 <= i < |a| ==> a[i] != pat[0]
    ensures RemoveAll(a + b, pat) == a + RemoveAll(b, pat)
    decreases |a|
  {
    if a == [] {
      assert a + b == b;
    } else {
      var s := a + b;
      assert s[0] == a[0] && s[1..] == a[1..] + b;
      RemoveAllKeepsPrefix(a[1..], b, pat);
      if |s| < |pat| {
        assert RemoveAll(b, pat) == b;
      } else {
        assert s[..|pat|][0] == a[0];
        assert RemoveAll(s, pat) == [a[0]] + RemoveAll(a[1..] + b, pat);
      }
      assert [a[0]] + (a[1..] + RemoveAll(b, pat)) == a + RemoveAll(b, pat);
    }
  }
}
