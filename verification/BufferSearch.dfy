/**
  * `indexOf` and `lastIndexOf` of the Buffer module for a needle given as bytes.
  */
module BufferSearch {
  import opened Prelude

  /** `kMaxLength`: no buffer is longer. */
  const MAX_LENGTH: int := 2147483647

  /** `needle` occurs in `hay` at `i`. */
  predicate OccursAt(hay: seq<Byte>, needle: seq<Byte>, i: int) {
    0 <= i && i + |needle| <= |hay| && hay[i..i + |needle|] == needle
  }

  /** The least occurrence at or after `start`, or -1. */
  ghost predicate IsFirst(hay: seq<Byte>, needle: seq<Byte>, start: int, r: int) {
    if r == -1 then forall i :: i >= start ==> !OccursAt(hay, needle, i)
    else r >= start && OccursAt(hay, needle, r) && forall i :: start <= i < r ==> !OccursAt(hay, needle, i)
  }

  /** The greatest occurrence at or before `start`, or -1. */
  ghost predicate IsLast(hay: seq<Byte>, needle: seq<Byte>, start: int, r: int) {
    if r == -1 then forall i :: i <= start ==> !OccursAt(hay, needle, i)
    else r <= start && OccursAt(hay, needle, r) && forall i :: r < i <= start ==> !OccursAt(hay, needle, i)
  }

  /** A first difference excludes an occurrence. */
  lemma Differs(hay: seq<Byte>, needle: seq<Byte>, i: int, k: int)
    requires 0 <= k < |needle| && 0 <= i && i + k < |hay| && hay[i + k] != needle[k]
    ensures !OccursAt(hay, needle, i)
  {
  }

  /** A partial match gets longer. */
  lemma MatchesOn(hay: seq<Byte>, needle: seq<Byte>, i: int, s: int)
    requires 0 <= i <= s < |hay| && s - i < |needle|
    requires hay[i..s] == needle[..s - i] && hay[s] == needle[s - i]
    ensures hay[i..s + 1] == needle[..s + 1 - i]
  {
    assert hay[i..s + 1] == hay[i..s] + [hay[s]];
    assert needle[..s + 1 - i] == needle[..s - i] + [needle[s - i]];
  }

  /** `arrayIndexOf` on bytes, forwards: one index, which jumps back after a failed partial match. */
  method ForwardIndexOf(hay: seq<Byte>, needle: seq<Byte>, start: nat) returns (r: int)
    requires needle != []
    ensures IsFirst(hay, needle, start, r)
  {
    var found: int := -1;
    var s: int := start;
    while s < |hay|
      invariant start <= s
      invariant found == -1 ==> forall i :: start <= i < s ==> !OccursAt(hay, needle, i)
      invariant found != -1 ==> start <= found < s <= |hay| && s - found < |needle|
      invariant found != -1 ==> hay[found..s] == needle[..s - found]
      invariant found != -1 ==> forall i :: start <= i < found ==> !OccursAt(hay, needle, i)
      decreases |hay| - (if found == -1 then s else found), |hay| - s
    {
      if hay[s] == needle[if found == -1 then 0 else s - found] {
        if found == -1 {
          found := s;
        }
        MatchesOn(hay, needle, found, s);
        if s - found + 1 == |needle| {
          return found;
        }
      } else {
        if found != -1 {
          Differs(hay, needle, found, s - found);
          s := s - (s - found);
        } else {
          Differs(hay, needle, s, 0);
        }
        found := -1;
      }
      s := s + 1;
    }
    r := -1;
  }

  /** `arrayIndexOf` on bytes, backwards. */
  method BackwardIndexOf(hay: seq<Byte>, needle: seq<Byte>, start: nat) returns (r: int)
    requires needle != []
    ensures IsLast(hay, needle, start, r)
  {
    var s: int := if start + |needle| > |hay| then |hay| - |needle| else start;
    while s >= 0
      invariant s <= start && s + |needle| <= |hay|
      invariant forall i :: s < i <= start ==> !OccursAt(hay, needle, i)
    {
      var matches := true;
      var n := 0;
      while n < |needle|
        invariant 0 <= n <= |needle| && (matches ==> hay[s..s + n] == needle[..n])
        invariant !matches ==> !OccursAt(hay, needle, s)
      {
        if hay[s + n] != needle[n] {
          Differs(hay, needle, s, n);
          matches := false;
          break;
        }
        MatchesOn(hay, needle, s, s + n);
        n := n + 1;
      }
      if matches {
        assert hay[s..s + |needle|] == needle;
        return s;
      }
      assert !OccursAt(hay, needle, s);
      s := s - 1;
    }
    r := -1;
  }

  /** `bidirectionalIndexOf` with a needle of bytes: a negative offset counts from the end. */
  method IndexOf(hay: seq<Byte>, needle: seq<Byte>, offset: int, forward: bool) returns (r: int)
    requires |hay| <= MAX_LENGTH
    ensures hay == [] || needle == [] ==> r == -1
    ensures hay != [] && needle != [] && forward ==> IsFirst(hay, needle, Start(|hay|, offset), r)
    ensures hay != [] && needle != [] && !forward ==> IsLast(hay, needle, Start(|hay|, offset), r)
  {
    if hay == [] {
      return -1;
    }
    var p := if offset > 2147483647 then 2147483647 else if offset < -2147483648 then -2147483648 else offset;
    if p < 0 {
      p := |hay| + p;
    }
    if p >= |hay| {
      if forward {
        return -1;
      }
      p := |hay| - 1;
    } else if p < 0 {
      if !forward {
        return -1;
      }
      p := 0;
    }
    if needle == [] {
      return -1;
    }
    if forward {
      r := ForwardIndexOf(hay, needle, p);
    } else {
      r := BackwardIndexOf(hay, needle, p);
    }
  }

  /** The position that an offset designates. */
  function Start(length: nat, offset: int): int {
    if offset < 0 then length + offset else offset
  }
}
