/**
  * `StringDecoder` for UTF-8: bytes arrive in chunks that may cut characters, and the bytes of an
  * incomplete character wait in `lastChar` for the next chunk.
  */
module StringDecoder {
  import opened Prelude
  import opened Unicode
  import opened Utf8Codec

  /** The three fields: bytes still missing, length of the character, and its bytes so far. */
  datatype State = State(need: nat, total: nat, last: seq<Byte>)

  /** The constraint that the calls keep on the fields. */
  predicate Valid(d: State) {
    && |d.last| == 4
    && (d.need > 0 ==> d.need < d.total <= 4)
  }

  const START: State := State(0, 0, [0, 0, 0, 0])

  /** `utf8CheckByte`. */
  function CheckByte(b: Byte): int {
    if b <= 127 then 0
    else if b / 32 == 6 then 2
    else if b / 16 == 14 then 3
    else if b / 8 == 30 then 4
    else if b / 64 == 2 then -1
    else -2
  }

  /** `utf8CheckIncomplete`: the length of the last character when it is cut, and the bytes it lacks. */
  function CheckIncomplete(e: seq<Byte>, i: nat): (r: (nat, nat))
    requires i < |e|
  {
    var j := |e| - 1;
    var a := CheckByte(e[j]);
    if a >= 0 then (a, if a > 0 then a - 1 else 0)
    else if j - 1 < i || a == -2 then (0, 0)
    else
      var a := CheckByte(e[j - 1]);
      if a >= 0 then (a, if a > 0 then a - 2 else 0)
      else if j - 2 < i || a == -2 then (0, 0)
      else
        var a := CheckByte(e[j - 2]);
        if a > 2 then (a, a - 3) else (0, 0)
  }

  /** What is missing belongs to a character that starts in the chunk. */
  lemma IncompleteBounds(e: seq<Byte>, i: nat)
    requires i < |e|
    ensures var (total, need) := CheckIncomplete(e, i); need > 0 ==> need < total <= 4 && total - need <= |e| - i
  {
  }

  /** `text`, called with no byte missing. */
  function Text(d: State, e: seq<Byte>, i: nat): (r: (State, seq<Unit>))
    requires Valid(d) && d.need == 0 && i < |e|
    ensures Valid(r.0)
  {
    var (total, need) := CheckIncomplete(e, i);
    if need == 0 then (d, Slice(e, i, |e|))
    else
      var n := |e| - (total - need);
      (State(need, total, Overwritten(d.last, 0, e[n..])), Slice(e, i, n))
  }

  /** The bytes of `e` that complete the character and are no continuation: the new `lastNeed`, or none. */
  function CheckExtra(need: nat, e: seq<Byte>): (r: int)
    requires e != []
    ensures -1 <= r < 3 && r < |e|
  {
    if !IsContinuation(e[0]) then 0
    else if need > 1 && |e| > 1 && !IsContinuation(e[1]) then 1
    else if need > 2 && |e| > 2 && !IsContinuation(e[2]) then 2
    else -1
  }

  /** `write`. */
  function Write(d: State, e: seq<Byte>): (r: (State, seq<Unit>))
    requires Valid(d)
    ensures Valid(r.0)
  {
    if e == [] then (d, [])
    else if d.need == 0 then Text(d, e, 0)
    else
      var extra := CheckExtra(d.need, e);
      var p := d.total - d.need;
      if extra >= 0 then
        Continue(State(0, d.total, d.last), [REPLACEMENT], e, extra)
      else if d.need <= |e| then
        var last := Overwritten(d.last, p, e[..d.need]);
        Continue(State(0, d.total, last), Slice(last, 0, d.total), e, d.need)
      else
        (State(d.need - |e|, d.total, Overwritten(d.last, p, e)), [])
  }

  /** The end of `write`, once the pending character is out. */
  function Continue(d: State, t: seq<Unit>, e: seq<Byte>, i: nat): (r: (State, seq<Unit>))
    requires Valid(d) && d.need == 0
    ensures Valid(r.0)
  {
    if i < |e| then
      var (d', text) := Text(d, e, i);
      (d', t + text)
    else (d, t)
  }

  /** `end`, after its optional last `write`. */
  function End(d: State): seq<Unit> {
    if d.need > 0 then [REPLACEMENT] else []
  }

  // Chunk independence.

  /** The first `m` bytes of `b` are whole characters, and the next character, if cut, is held by `d`. */
  ghost predicate Follows(d: State, b: seq<Byte>, m: nat, n: nat)
    requires Valid(d)
  {
    && m <= n <= |b| && IsUtf8(b[..m]) && IsUtf8(b[m..])
    && if m == n then d.need == 0
       else
         && d.total == CharLength(b[m..]) == n - m + d.need
         && d.need > 0
         && d.last[..n - m] == b[m..n]
  }

  lemma {:induction false} DecodedConcat(x: seq<Byte>, y: seq<Byte>)
    requires IsUtf8(x)
    ensures Decoded(x + y) == Decoded(x) + Decoded(y)
    ensures IsUtf8(y) ==> IsUtf8(x + y)
  {
    hide Next, CharLength, Decoded, IsUtf8;
    if x == [] {
      assert x + y == y;
      NoBytes();
    } else {
      var k, z := CharLength(x), x + y;
      StartsCharacter(x);
      PrefixOfCharacter(x, y);
      assert z[k..] == x[k..] + y && z[..k] == x[..k];
      SameCharacter(x, z);
      DecodedConcat(x[k..], y);
      FirstDecoded(z);
    }
  }

  lemma NoBytes()
    ensures Decoded([]) == []
  {
  }

  /** A well-formed string starts with a character. */
  lemma StartsCharacter(b: seq<Byte>)
    requires IsUtf8(b) && b != []
    ensures CharLength(b) > 0 && IsUtf8(b[CharLength(b)..])
    ensures Decoded(b) == [Next(b).c] + Decoded(b[CharLength(b)..])
  {
    NextIsCharacter(b);
  }

  lemma FirstDecoded(b: seq<Byte>)
    requires b != [] && CharLength(b) > 0
    ensures Decoded(b) == [Next(b).c] + Decoded(b[CharLength(b)..])
    ensures IsUtf8(b[CharLength(b)..]) ==> IsUtf8(b)
  {
    NextIsCharacter(b);
  }

  lemma PrefixOfCharacter(x: seq<Byte>, y: seq<Byte>)
    requires CharLength(x) > 0
    ensures CharLength(x + y) == CharLength(x)
  {
  }

  lemma SameCharacter(x: seq<Byte>, z: seq<Byte>)
    requires CharLength(x) > 0 && CharLength(z) == CharLength(x) && x[..CharLength(x)] == z[..CharLength(x)]
    ensures Next(x) == Next(z)
  {
  }

  lemma {:induction false} Utf16Concat(x: seq<Scalar>, y: seq<Scalar>)
    ensures Utf16(x + y) == Utf16(x) + Utf16(y)
  {
    if x == [] {
      assert x + y == y;
    } else {
      assert (x + y)[1..] == x[1..] + y;
      Utf16Concat(x[1..], y);
    }
  }

  /** The start of the character that holds byte `q - 1`. */
  function LastStart(c: seq<Byte>, q: nat): (s: nat)
    requires IsUtf8(c) && 0 < q <= |c|
    ensures s < q
  {
    var k := CharLength(c);
    if k >= q then 0 else k + LastStart(c[k..], q - k)
  }

  lemma {:induction false} LastStartSplits(c: seq<Byte>, q: nat)
    requires IsUtf8(c) && 0 < q <= |c|
    ensures var s := LastStart(c, q);
            IsUtf8(c[..s]) && IsUtf8(c[s..]) && q - s <= CharLength(c[s..])
  {
    hide CharLength;
    var k := CharLength(c);
    if k < q {
      var s := LastStart(c[k..], q - k);
      LastStartSplits(c[k..], q - k);
      assert c[k + s..] == c[k..][s..];
      assert c[..k + s][k..] == c[k..][..s];
      FirstCharacter(c, k + s);
    } else {
      assert c[0..] == c;
    }
  }

  lemma FirstCharacter(c: seq<Byte>, n: nat)
    requires CharLength(c) > 0 && CharLength(c) <= n <= |c|
    ensures CharLength(c[..n]) == CharLength(c)
  {
  }

  /** The lead byte of a character gives its length, and its other bytes are continuations. */
  lemma CharacterBytes(c: seq<Byte>)
    requires CharLength(c) > 0
    ensures CheckByte(c[0]) == if CharLength(c) == 1 then 0 else CharLength(c)
    ensures forall k :: 1 <= k < CharLength(c) ==> CheckByte(c[k]) == -1 && IsContinuation(c[k])
  {
  }

  /** The scan back from the end finds the last character and what it lacks. */
  lemma ScanBack(e: seq<Byte>, i: nat, c: seq<Byte>)
    requires i < |e| && IsUtf8(c) && |e| - i <= |c| && e[i..] == c[..|e| - i]
    ensures var q := |e| - i; var s := LastStart(c, q); var k := CharLength(c[s..]);
            if q - s == k then CheckIncomplete(e, i).1 == 0
            else CheckIncomplete(e, i) == (k, k - (q - s))
  {
    hide CharLength, CheckByte, IsUtf8, LastStart, IsContinuation;
    var q := |e| - i;
    LastStartSplits(c, q);
    var s := LastStart(c, q);
    var k := CharLength(c[s..]);
    CharacterBytes(c[s..]);
    assert e[|e| - 1] == e[i..][q - 1] == c[q - 1] == c[s..][q - 1 - s];
    if q - 1 > s {
      assert e[|e| - 2] == e[i..][q - 2] == c[q - 2] == c[s..][q - 2 - s];
    }
    if q - 2 > s {
      assert e[|e| - 3] == e[i..][q - 3] == c[q - 3] == c[s..][q - 3 - s];
    }
  }

  /** One more piece of UTF-8 decoded. */
  lemma DecodedPiece(b: seq<Byte>, p: nat, m: nat)
    requires p <= m <= |b| && IsUtf8(b[..p]) && IsUtf8(b[p..m])
    ensures IsUtf8(b[..m])
    ensures Utf16(Decoded(b[..m])) == Utf16(Decoded(b[..p])) + Utf16(Decoded(b[p..m]))
  {
    assert b[..m] == b[..p] + b[p..m];
    DecodedConcat(b[..p], b[p..m]);
    Utf16Concat(Decoded(b[..p]), Decoded(b[p..m]));
  }

  /** The whole characters among the first `q` bytes of `c`. */
  lemma WholeCharacters(c: seq<Byte>, q: nat)
    requires IsUtf8(c) && 0 < q <= |c| && q - LastStart(c, q) == CharLength(c[LastStart(c, q)..])
    ensures IsUtf8(c[..q]) && IsUtf8(c[q..])
  {
    hide CharLength, IsUtf8, LastStart, Decoded;
    var s := LastStart(c, q);
    LastStartSplits(c, q);
    OneCharacter(c[s..]);
    assert c[..q] == c[..s] + c[s..][..q - s];
    DecodedConcat(c[..s], c[s..][..q - s]);
    assert c[s..][q - s..] == c[q..];
  }

  lemma OneCharacter(c: seq<Byte>)
    requires IsUtf8(c) && c != []
    ensures IsUtf8(c[..CharLength(c)]) && IsUtf8(c[CharLength(c)..])
  {
    hide CharLength;
    var k := CharLength(c);
    FirstCharacter(c, k);
    assert c[..k][k..] == [];
  }

  /** Reading the bytes `e[i..]` of the stream from a character boundary `p` on. */
  lemma TextFollows(d: State, b: seq<Byte>, p: nat, e: seq<Byte>, i: nat) returns (m: nat)
    requires Valid(d) && d.need == 0 && i < |e|
    requires p + |e| - i <= |b| && e[i..] == b[p..p + |e| - i]
    requires IsUtf8(b[..p]) && IsUtf8(b[p..])
    ensures Follows(Text(d, e, i).0, b, m, p + |e| - i)
    ensures Utf16(Decoded(b[..m])) == Utf16(Decoded(b[..p])) + Text(d, e, i).1
  {
    hide CharLength, CheckIncomplete, LastStart, IsUtf8, Decoded, Utf16;
    var c, q := b[p..], |e| - i;
    var s := LastStart(c, q);
    LastStartSplits(c, q);
    ScanBack(e, i, c);
    var k := CharLength(c[s..]);
    if q - s == k {
      m := p + q;
      WholeCharacters(c, q);
      assert c[..q] == e[i..] == e[i..|e|] == b[p..m];
      assert c[q..] == b[m..];
    } else {
      m := p + s;
      assert c[s..] == b[m..];
      assert c[..s] == e[i..][..s] == e[i..i + s] == b[p..m];
      assert e[i + s..] == e[i..][s..] == b[m..p + q];
    }
    DecodedPiece(b, p, m);
  }

  /** The first bytes of the chunk belong to the pending character. */
  lemma NoExtra(d: State, b: seq<Byte>, m: nat, n: nat, e: seq<Byte>)
    requires Valid(d) && Follows(d, b, m, n) && m < n
    requires e != [] && n + |e| <= |b| && e == b[n..n + |e|]
    ensures CheckExtra(d.need, e) == -1
  {
    hide CharLength, IsUtf8, IsContinuation;
    CharacterBytes(b[m..]);
    assert e[0] == b[m..][n - m];
    assert d.need > 1 && |e| > 1 ==> e[1] == b[m..][n - m + 1];
    assert d.need > 2 && |e| > 2 ==> e[2] == b[m..][n - m + 2];
  }

  /** A chunk with the rest of the pending character. */
  lemma FillFollows(d: State, b: seq<Byte>, m: nat, n: nat, e: seq<Byte>) returns (m': nat)
    requires Valid(d) && Follows(d, b, m, n) && m < n
    requires n + |e| <= |b| && e == b[n..n + |e|] && d.need <= |e|
    ensures var last := Overwritten(d.last, d.total - d.need, e[..d.need]);
            var (d', t) := Continue(State(0, d.total, last), Slice(last, 0, d.total), e, d.need);
            Follows(d', b, m', n + |e|) && Utf16(Decoded(b[..m'])) == Utf16(Decoded(b[..m])) + t
  {
    hide CharLength, IsUtf8, Decoded, Utf16, Text, CheckIncomplete;
    var k := d.total;
    var last := Overwritten(d.last, n - m, e[..d.need]);
    assert e[..d.need] == b[n..m + k];
    assert last[0..k] == last[..k] == b[m..n] + b[n..m + k] == b[m..m + k] == b[m..][..k];
    OneCharacter(b[m..]);
    DecodedPiece(b, m, m + k);
    assert b[m + k..] == b[m..][k..];
    if d.need < |e| {
      assert e[d.need..] == b[m + k..n + |e|];
      m' := TextFollows(State(0, k, last), b, m + k, e, d.need);
    } else {
      m' := m + k;
    }
  }

  /** Each `write` outputs the characters it completes and keeps the beginning of the next one. */
  lemma WriteFollows(d: State, b: seq<Byte>, m: nat, n: nat, e: seq<Byte>) returns (m': nat)
    requires Valid(d) && Follows(d, b, m, n)
    requires n + |e| <= |b| && e == b[n..n + |e|]
    ensures Follows(Write(d, e).0, b, m', n + |e|)
    ensures Utf16(Decoded(b[..m'])) == Utf16(Decoded(b[..m])) + Write(d, e).1
  {
    hide CharLength, IsUtf8, Decoded, Utf16, Text, Slice, Continue, CheckExtra;
    m' := m;
    if e == [] {
    } else if d.need == 0 {
      assert e[0..] == e;
      m' := TextFollows(d, b, n, e, 0);
    } else {
      NoExtra(d, b, m, n, e);
      if d.need <= |e| {
        m' := FillFollows(d, b, m, n, e);
      } else {
        assert Overwritten(d.last, n - m, e)[..n - m + |e|] == b[m..n] + b[n..n + |e|] == b[m..n + |e|];
      }
    }
  }

  function Concat(chunks: seq<seq<Byte>>): seq<Byte> {
    if chunks == [] then [] else chunks[0] + Concat(chunks[1..])
  }

  /** The results of the `write` calls, one after the other, and of the final `end`. */
  function Decode(d: State, chunks: seq<seq<Byte>>): seq<Unit>
    requires Valid(d)
    decreases |chunks|
  {
    if chunks == [] then End(d)
    else
      var (d', t) := Write(d, chunks[0]);
      t + Decode(d', chunks[1..])
  }

  lemma {:induction false} DecodeFollows(d: State, b: seq<Byte>, m: nat, n: nat, chunks: seq<seq<Byte>>)
    requires Valid(d) && Follows(d, b, m, n) && b[n..] == Concat(chunks)
    ensures Utf16(Decoded(b)) == Utf16(Decoded(b[..m])) + Decode(d, chunks)
    decreases |chunks|
  {
    hide CharLength, IsUtf8, Decoded, Utf16, Write;
    if chunks == [] {
      if m < n {
        assert false;
      }
      assert b[..m] == b;
    } else {
      var e := chunks[0];
      assert b[n..][..|e|] == e && b[n..][|e|..] == Concat(chunks[1..]);
      assert b[n..n + |e|] == e && b[n + |e|..] == Concat(chunks[1..]);
      var m' := WriteFollows(d, b, m, n, e);
      var (d', t) := Write(d, e);
      DecodeFollows(d', b, m', n + |e|, chunks[1..]);
      var out, rest := Utf16(Decoded(b[..m])), Decode(d', chunks[1..]);
      assert out + t + rest == out + (t + rest);
    }
  }

  /** However UTF-8 is cut into chunks, the decoder returns what decoding it in one piece returns. */
  lemma ChunkIndependence(chunks: seq<seq<Byte>>)
    requires IsUtf8(Concat(chunks))
    ensures var b := Concat(chunks); Decode(START, chunks) == Slice(b, 0, |b|)
  {
    var b := Concat(chunks);
    assert b[..0] == [] && b[0..] == b && b[0..|b|] == b;
    assert Follows(START, b, 0, 0);
    DecodeFollows(START, b, 0, 0, chunks);
  }

  /** Decoding splits before any byte that is not a continuation. */
  lemma {:induction false} DecodedSplit(x: seq<Byte>, y: seq<Byte>)
    requires y != [] && !IsContinuation(y[0])
    ensures Decoded(x + y) == Decoded(x) + Decoded(y)
  {
    hide Next, IsContinuation;
    if x == [] {
      assert x + y == y;
    } else {
      SameNext(x, y);
      var n := Next(x).n;
      assert (x + y)[n..] == x[n..] + y;
      DecodedSplit(x[n..], y);
    }
  }

  lemma SameNext(x: seq<Byte>, y: seq<Byte>)
    requires x != [] && y != [] && !IsContinuation(y[0])
    ensures Next(x + y) == Next(x)
  {
    hide Code2, Code3, Code4, IsContinuation;
    assert forall i :: 0 <= i < |x| ==> (x + y)[i] == x[i];
    assert (x + y)[|x|] == y[0];
  }

  // Exact agreement, on any bytes.

  /** The bytes of the pending character. */
  function Pending(d: State): seq<Byte>
    requires Valid(d)
  {
    if d.need > 0 then d.last[..d.total - d.need] else []
  }

  /** Less than `total` bytes of a character: its lead byte, and continuations. */
  predicate Cut(b: seq<Byte>, total: nat) {
    && 1 <= |b| < total <= 4 && CheckByte(b[0]) == total
    && forall k :: 1 <= k < |b| ==> IsContinuation(b[k])
  }

  /** The pending bytes are those of a cut character, which need not be a character of RFC 3629 once complete. */
  predicate Holds(d: State)
    requires Valid(d)
  {
    d.need > 0 ==> Cut(Pending(d), d.total)
  }

  lemma CheckByteMeans(b: Byte)
    ensures CheckByte(b) == -1 <==> IsContinuation(b)
    ensures -2 <= CheckByte(b) <= 4 && CheckByte(b) != 1
    ensures CheckByte(b) >= 2 ==> !IsContinuation(b) && 192 <= b < 248
    ensures 192 <= b < 224 ==> CheckByte(b) == 2
    ensures 224 <= b < 240 ==> CheckByte(b) == 3
    ensures 240 <= b < 248 ==> CheckByte(b) == 4
  {
  }

  lemma IncompleteShift(e: seq<Byte>, i: nat)
    requires i < |e|
    ensures CheckIncomplete(e, i) == CheckIncomplete(e[i..], 0)
  {
    hide CheckByte;
  }

  /** What is incomplete at the end is a cut character. */
  lemma IncompleteIsCut(x: seq<Byte>)
    requires x != [] && CheckIncomplete(x, 0).1 > 0
    ensures var (total, need) := CheckIncomplete(x, 0); var p := total - need;
            1 <= p <= |x| && Cut(x[|x| - p..], total)
  {
    hide CheckByte;
    CheckByteMeans(x[|x| - 1]);
    if |x| > 1 {
      CheckByteMeans(x[|x| - 2]);
    }
    if |x| > 2 {
      CheckByteMeans(x[|x| - 3]);
    }
  }

  /** Conversely, a cut character at the end is found. */
  lemma CutIsIncomplete(x: seq<Byte>, total: nat)
    requires Cut(x, total)
    ensures CheckIncomplete(x, 0) == (total, total - |x|)
  {
    hide CheckByte;
    CheckByteMeans(x[|x| - 1]);
    if |x| > 1 {
      CheckByteMeans(x[|x| - 2]);
    }
  }

  /** No bytes after it make a character of bytes at whose end nothing is incomplete. */
  lemma NextDecided(x: seq<Byte>, y: seq<Byte>)
    requires x != [] && CheckIncomplete(x, 0).1 == 0
    ensures Next(x + y) == Next(x)
  {
    hide Code2, Code3, Code4, CheckIncomplete, CheckByte, Next, Octets;
    NextIsCharacter(x);
    NextIsCharacter(x + y);
    if CharLength(x) > 0 {
      PrefixOfCharacter(x, y);
      SameCharacter(x, x + y);
    } else if CharLength(x + y) > 0 {
      StartOfCharacter(x, y);
      CutIsIncomplete(x, CharLength(x + y));
      assert false;
    }
  }

  /** What is not a character yet, and becomes one, is a cut character. */
  lemma StartOfCharacter(x: seq<Byte>, y: seq<Byte>)
    requires x != [] && CharLength(x) == 0 && CharLength(x + y) > 0
    ensures Cut(x, CharLength(x + y))
  {
    hide CheckByte, CharLength;
    var z := x + y;
    CharacterBytes(z);
    Shorter(x, y);
    forall k | 1 <= k < |x|
      ensures IsContinuation(x[k])
    {
      assert x[k] == z[k];
    }
    assert x[0] == z[0];
  }

  lemma Shorter(x: seq<Byte>, y: seq<Byte>)
    requires x != [] && CharLength(x) == 0 && CharLength(x + y) > 0
    ensures |x| < CharLength(x + y) && CharLength(x + y) > 1
  {
    var z := x + y;
    assert forall k :: 0 <= k < |x| ==> z[k] == x[k];
  }

  lemma IncompleteLater(x: seq<Byte>, n: nat)
    requires n < |x| && CheckIncomplete(x, 0).1 == 0
    ensures CheckIncomplete(x[n..], 0).1 == 0
  {
    hide CheckByte;
    IncompleteShift(x, n);
  }

  lemma FirstFound(b: seq<Byte>)
    requires b != []
    ensures Decoded(b) == [Next(b).c] + Decoded(b[Next(b).n..])
  {
  }

  /** Decoding splits after bytes at whose end nothing is incomplete. */
  lemma {:induction false} DecodedAfter(x: seq<Byte>, y: seq<Byte>)
    requires x == [] || CheckIncomplete(x, 0).1 == 0
    ensures Decoded(x + y) == Decoded(x) + Decoded(y)
    decreases |x|
  {
    hide Next, CheckIncomplete, Decoded;
    if x == [] {
      assert x + y == y;
      NoBytes();
    } else {
      NextDecided(x, y);
      var n := Next(x).n;
      assert (x + y)[n..] == x[n..] + y;
      if n < |x| {
        IncompleteLater(x, n);
      }
      DecodedAfter(x[n..], y);
      FirstFound(x);
      FirstFound(x + y);
    }
  }

  /** One-shot decoding replaces each byte of a cut character. */
  lemma CutDecoded(b: seq<Byte>, total: nat)
    requires Cut(b, total)
    ensures Decoded(b) == seq(|b|, _ => REPLACEMENT)
  {
    hide Octets, Code2, Code3, Code4, CheckByte;
    CutIsNone(b, total);
    if |b| > 1 {
      NoCharacter(b[1..]);
      assert b[1..][0] == b[1];
    }
    if |b| > 2 {
      NoCharacter(b[2..]);
      assert b[1..][1..] == b[2..];
    }
    OneDecoded(b);
    if |b| > 1 {
      OneDecoded(b[1..]);
    }
    if |b| > 2 {
      OneDecoded(b[2..]);
    }
  }

  lemma OneDecoded(b: seq<Byte>)
    requires b != [] && Next(b) == NONE
    ensures Decoded(b) == [REPLACEMENT] + Decoded(b[1..])
  {
  }

  lemma NoCharacter(b: seq<Byte>)
    requires b != [] && IsContinuation(b[0])
    ensures Next(b) == NONE
  {
  }

  lemma CutIsNone(b: seq<Byte>, total: nat)
    requires Cut(b, total)
    ensures Next(b) == NONE
  {
    hide Code2, Code3, Code4;
  }

  /** A cut character with the continuations that it lacks is not incomplete. */
  lemma FilledIsComplete(b: seq<Byte>, c: seq<Byte>, total: nat)
    requires Cut(b, total) && |b| + |c| == total && forall k :: 0 <= k < |c| ==> IsContinuation(c[k])
    ensures CheckIncomplete(b + c, 0).1 == 0
  {
    hide CheckByte;
    var x := b + c;
    assert forall k :: 1 <= k < |x| ==> IsContinuation(x[k]);
    CheckByteMeans(x[|x| - 1]);
    CheckByteMeans(x[|x| - 2]);
    if |x| > 2 {
      CheckByteMeans(x[|x| - 3]);
    }
  }

  /** `write` drops the pending character: the number of bytes for which it outputs one replacement. */
  function Dropped(d: State, e: seq<Byte>): nat
    requires Valid(d)
  {
    if e == [] || d.need == 0 || CheckExtra(d.need, e) < 0 then 0 else d.total - d.need + CheckExtra(d.need, e)
  }

  /** Whenever a pending character is dropped, by `write` or by `end`, it is a single byte. */
  predicate DropsSingly(d: State, chunks: seq<seq<Byte>>)
    requires Valid(d)
    decreases |chunks|
  {
    if chunks == [] then |Pending(d)| <= 1
    else Dropped(d, chunks[0]) <= 1 && DropsSingly(Write(d, chunks[0]).0, chunks[1..])
  }

  /** `n` replacements. */
  function Replaced(n: nat): (r: seq<Unit>)
    ensures |r| == n
  {
    seq(n, _ => REPLACEMENT)
  }

  /** An output, with the replacement at its start once for each of the `dropped` bytes. */
  function Spelled(t: seq<Unit>, dropped: nat): seq<Unit> {
    if dropped == 0 || t == [] then t else Replaced(dropped) + t[1..]
  }

  /** `t`, spelled out, and then what decoding `later` gives is what decoding `whole` gives. */
  ghost predicate Agrees(whole: seq<Byte>, t: seq<Unit>, later: seq<Byte>, dropped: nat) {
    && (dropped > 0 ==> t != [] && t[0] == REPLACEMENT)
    && Utf16(Decoded(whole)) == Spelled(t, dropped) + Utf16(Decoded(later))
  }

  lemma TextAgrees(d: State, e: seq<Byte>, i: nat, y: seq<Byte>)
    requires Valid(d) && d.need == 0 && i < |e|
    ensures var (d', t) := Text(d, e, i); Holds(d') && Agrees(e[i..] + y, t, Pending(d') + y, 0)
  {
    hide CheckIncomplete, Decoded, Utf16, IsContinuation, CheckByte, Agrees, Cut;
    IncompleteShift(e, i);
    if CheckIncomplete(e, i).1 == 0 {
      TextWhole(d, e, i, y);
      assert [] + y == y;
    } else {
      TextCut(d, e, i, y);
    }
  }

  lemma TextWhole(d: State, e: seq<Byte>, i: nat, y: seq<Byte>)
    requires i < |e| && CheckIncomplete(e[i..], 0).1 == 0
    ensures Agrees(e[i..] + y, Slice(e, i, |e|), y, 0)
  {
    hide CheckIncomplete, Decoded, Utf16;
    var x := e[i..];
    assert e[i..|e|] == x;
    DecodedAfter(x, y);
    SplitAgrees(x, y);
  }

  lemma SplitAgrees(x: seq<Byte>, y: seq<Byte>)
    requires Decoded(x + y) == Decoded(x) + Decoded(y)
    ensures Agrees(x + y, Utf16(Decoded(x)), y, 0)
  {
    hide Decoded, Utf16;
    Utf16Concat(Decoded(x), Decoded(y));
  }

  lemma CutStarts(b: seq<Byte>, total: nat)
    requires Cut(b, total)
    ensures b != [] && !IsContinuation(b[0])
  {
    hide CheckByte;
    CheckByteMeans(b[0]);
  }

  /** The cut character at the end is kept. */
  lemma KeptTail(d: State, tail: seq<Byte>, total: nat, need: nat)
    requires Valid(d) && Cut(tail, total) && need == total - |tail|
    ensures var d' := State(need, total, Overwritten(d.last, 0, tail)); Valid(d') && Holds(d') && Pending(d') == tail
  {
    hide CheckByte, IsContinuation;
    assert Overwritten(d.last, 0, tail)[..|tail|] == tail;
  }

  lemma TextCut(d: State, e: seq<Byte>, i: nat, y: seq<Byte>)
    requires Valid(d) && d.need == 0 && i < |e| && CheckIncomplete(e[i..], 0).1 > 0
    requires CheckIncomplete(e, i) == CheckIncomplete(e[i..], 0)
    ensures var (d', t) := Text(d, e, i); Holds(d') && Agrees(e[i..] + y, t, Pending(d') + y, 0)
  {
    hide CheckIncomplete, Decoded, Utf16, IsContinuation, CheckByte, Agrees, Holds, Pending, Cut, Overwritten;
    var x := e[i..];
    var (total, need) := CheckIncomplete(x, 0);
    IncompleteIsCut(x);
    var p := total - need;
    var n := |e| - p;
    var tail := x[|x| - p..];
    assert tail == e[n..] && e[i..n] + (tail + y) == x + y;
    CutStarts(tail, total);
    assert (tail + y)[0] == tail[0];
    DecodedSplit(e[i..n], tail + y);
    SplitAgrees(e[i..n], tail + y);
    KeptTail(d, tail, total, need);
  }

  lemma WriteAgrees(d: State, e: seq<Byte>, y: seq<Byte>)
    requires Valid(d) && Holds(d)
    ensures var (d', t) := Write(d, e);
            Holds(d') && Agrees(Pending(d) + e + y, t, Pending(d') + y, Dropped(d, e))
  {
    hide CheckExtra, Continue, Text, Agrees, Cut;
    var p := Pending(d);
    if e == [] {
      assert p + e + y == p + y;
      NothingDone(p + y);
    } else if d.need == 0 {
      TextAgrees(d, e, 0, y);
      assert e[0..] == e && p + e + y == e + y;
    } else if CheckExtra(d.need, e) >= 0 {
      DropAgrees(d, e, y);
    } else if d.need <= |e| {
      FillAgrees(d, e, y);
    } else {
      AppendAgrees(d, e, y);
    }
  }

  lemma NothingDone(b: seq<Byte>)
    ensures Agrees(b, [], b, 0)
  {
    hide Decoded, Utf16;
  }

  /** All bytes of the chunk belong to the pending character. */
  lemma AppendAgrees(d: State, e: seq<Byte>, y: seq<Byte>)
    requires Valid(d) && Holds(d) && e != [] && d.need > |e| && CheckExtra(d.need, e) < 0
    ensures var (d', t) := Write(d, e); Holds(d') && Agrees(Pending(d) + e + y, t, Pending(d') + y, 0)
  {
    hide IsContinuation, CheckByte, Agrees;
    var p := Pending(d);
    var last := Overwritten(d.last, |p|, e);
    assert last[..|p| + |e|] == p + e;
    NothingDone(p + e + y);
  }

  /** The chunk has the rest of the pending character. */
  lemma FillAgrees(d: State, e: seq<Byte>, y: seq<Byte>)
    requires Valid(d) && Holds(d) && e != [] && 0 < d.need <= |e| && CheckExtra(d.need, e) < 0
    ensures var (d', t) := Write(d, e); Holds(d') && Agrees(Pending(d) + e + y, t, Pending(d') + y, 0)
  {
    hide Decoded, Utf16, IsContinuation, CheckByte, CheckIncomplete, Text;
    var p, c := Pending(d), e[..d.need];
    var full := p + c;
    var last := Overwritten(d.last, |p|, c);
    assert last[0..d.total] == full;
    FilledIsComplete(p, c, d.total);
    var rest := e[d.need..] + y;
    assert full + rest == p + e + y;
    DecodedAfter(full, rest);
    Utf16Concat(Decoded(full), Decoded(rest));
    if d.need < |e| {
      TextAgrees(State(0, d.total, last), e, d.need, y);
    } else {
      assert rest == y && [] + y == y;
    }
  }

  /** The pending character, and the continuations after it, are dropped. */
  lemma DropAgrees(d: State, e: seq<Byte>, y: seq<Byte>)
    requires Valid(d) && Holds(d) && e != [] && d.need > 0 && CheckExtra(d.need, e) >= 0
    ensures var (d', t) := Write(d, e);
            Holds(d') && Agrees(Pending(d) + e + y, t, Pending(d') + y, Dropped(d, e))
  {
    hide Decoded, Utf16, IsContinuation, CheckByte, CheckIncomplete, Text;
    var p, extra := Pending(d), CheckExtra(d.need, e);
    var gone, rest := p + e[..extra], e[extra..] + y;
    assert gone + rest == p + e + y;
    assert !IsContinuation(rest[0]);
    DecodedSplit(gone, rest);
    CutDecoded(gone, d.total);
    Utf16Concat(Decoded(gone), Decoded(rest));
    Replacements(|gone|);
    TextAgrees(State(0, d.total, d.last), e, extra, y);
    var (_, text) := Text(State(0, d.total, d.last), e, extra);
    assert ([REPLACEMENT] + text)[1..] == text;
  }

  /** What the outputs of the calls would be with a replacement for each dropped byte. */
  function SpelledOut(d: State, chunks: seq<seq<Byte>>): seq<Unit>
    requires Valid(d)
    decreases |chunks|
  {
    if chunks == [] then Spelled(End(d), |Pending(d)|)
    else
      var (d', t) := Write(d, chunks[0]);
      Spelled(t, Dropped(d, chunks[0])) + SpelledOut(d', chunks[1..])
  }

  /** Spelled out, the outputs are those of one-shot decoding, from any state on. */
  lemma {:induction false} DecodeAgrees(d: State, chunks: seq<seq<Byte>>)
    requires Valid(d) && Holds(d)
    ensures SpelledOut(d, chunks) == Utf16(Decoded(Pending(d) + Concat(chunks)))
    decreases |chunks|
  {
    hide Decoded, Utf16, Write, Cut, Dropped, Spelled;
    var p := Pending(d);
    if chunks == [] {
      assert p + [] == p;
      EndAgrees(d);
    } else {
      var e, y := chunks[0], Concat(chunks[1..]);
      var (d', t) := Write(d, e);
      assert p + (e + y) == p + e + y;
      WriteAgrees(d, e, y);
      DecodeAgrees(d', chunks[1..]);
    }
  }

  lemma EndAgrees(d: State)
    requires Valid(d) && Holds(d)
    ensures Spelled(End(d), |Pending(d)|) == Utf16(Decoded(Pending(d)))
  {
    hide CheckByte, IsContinuation;
    var p := Pending(d);
    if d.need > 0 {
      CutDecoded(p, d.total);
      Replacements(|p|);
      assert Replaced(|p|) + [] == Replaced(|p|);
    }
  }

  /** Nothing is spelled out exactly when every dropped character is a single byte. */
  lemma {:induction false} SpelledOutExact(d: State, chunks: seq<seq<Byte>>)
    requires Valid(d) && Holds(d)
    ensures DropsSingly(d, chunks) ==> SpelledOut(d, chunks) == Decode(d, chunks)
    ensures !DropsSingly(d, chunks) ==> |Decode(d, chunks)| < |SpelledOut(d, chunks)|
    ensures |Decode(d, chunks)| <= |SpelledOut(d, chunks)|
    decreases |chunks|
  {
    hide Decoded, Utf16, Write, Cut, Dropped, Spelled, Agrees;
    if chunks == [] {
      EndAgrees(d);
      SpelledLength(End(d), |Pending(d)|);
    } else {
      var e, y := chunks[0], Concat(chunks[1..]);
      var (d', t) := Write(d, e);
      WriteAgrees(d, e, y);
      AgreesStarts(Pending(d) + e + y, t, Pending(d') + y, Dropped(d, e));
      SpelledLength(t, Dropped(d, e));
      SpelledOutExact(d', chunks[1..]);
    }
  }

  lemma AgreesStarts(whole: seq<Byte>, t: seq<Unit>, later: seq<Byte>, dropped: nat)
    requires Agrees(whole, t, later, dropped)
    ensures dropped > 0 ==> t != [] && t[0] == REPLACEMENT
  {
  }

  lemma SpelledLength(t: seq<Unit>, dropped: nat)
    requires dropped > 0 ==> t != [] && t[0] == REPLACEMENT
    ensures dropped <= 1 ==> Spelled(t, dropped) == t
    ensures dropped > 1 ==> |Spelled(t, dropped)| > |t|
  {
    if dropped == 1 {
      assert Replaced(1) + t[1..] == t;
    }
  }

  /**
    * On any bytes, in any chunks, the decoder agrees with one-shot decoding exactly when each pending character that is
    * dropped, by a chunk that does not continue it or at the end, is a single byte: the decoder outputs one replacement
    * for all its bytes, one-shot decoding one for each.
    */
  lemma AgreesIff(chunks: seq<seq<Byte>>)
    ensures var b := Concat(chunks); Decode(START, chunks) == Slice(b, 0, |b|) <==> DropsSingly(START, chunks)
    ensures var b := Concat(chunks); |Decode(START, chunks)| <= |Slice(b, 0, |b|)|
  {
    hide Decoded, Utf16, Write;
    var b := Concat(chunks);
    assert Pending(START) + b == b && b[0..|b|] == b;
    DecodeAgrees(START, chunks);
    SpelledOutExact(START, chunks);
  }

  /**
    * On any bytes, in any chunks, the outputs are those of one-shot decoding, but for the one replacement that stands for
    * all the bytes of each dropped character.
    */
  lemma OutputsSpelledOut(chunks: seq<seq<Byte>>)
    ensures var b := Concat(chunks); SpelledOut(START, chunks) == Slice(b, 0, |b|)
  {
    hide Decoded, Utf16, Write;
    var b := Concat(chunks);
    assert Pending(START) + b == b && b[0..|b|] == b;
    DecodeAgrees(START, chunks);
  }

  /** In one chunk: exactly when no character is cut at the end, or only its first byte is there. */
  lemma OneChunkExact(e: seq<Byte>)
    requires e != []
    ensures Decode(START, [e]) == Slice(e, 0, |e|)
      <==> var (total, need) := CheckIncomplete(e, 0); need == 0 || total - need == 1
  {
    hide CheckIncomplete, Decoded, Utf16, Slice;
    assert Concat([e]) == e + Concat([]) == e;
    assert [e][1..] == [];
    AgreesIff([e]);
  }

  /** Nothing is cut at the end of these bytes, and yet the two bytes cut by the first chunk give one replacement. */
  lemma CutBetweenChunks()
    ensures var chunks := [[0xE2, 0x82], [0x41]];
            && Decode(START, chunks) == [REPLACEMENT, 0x41]
            && Slice(Concat(chunks), 0, 3) == [REPLACEMENT, REPLACEMENT, 0x41]
            && CheckIncomplete(Concat(chunks), 0).1 == 0
  {
    hide Decoded, Utf16, Slice, Next, Write, Decode;
    var chunks: seq<seq<Byte>> := [[0xE2, 0x82], [0x41]];
    assert Concat(chunks[1..]) == [0x41];
    assert Concat(chunks) == [0xE2, 0x82, 0x41];
    WholeOutput();
    ChunkOutput(chunks);
  }

  lemma WholeOutput()
    ensures Slice([0xE2, 0x82, 0x41], 0, 3) == [REPLACEMENT, REPLACEMENT, 0x41]
  {
    var b: seq<Byte> := [0xE2, 0x82, 0x41];
    assert b[0..3] == b;
    assert Next(b) == Next(b[1..]) == NONE;
    assert b[1..][1..] == [0x41] && Decoded([0x41]) == [0x41];
    assert Decoded(b[1..]) == [REPLACEMENT, 0x41];
    assert Decoded(b) == [REPLACEMENT, REPLACEMENT, 0x41];
    var c: seq<Scalar> := [REPLACEMENT, REPLACEMENT, 0x41];
    assert c[1..] == [REPLACEMENT, 0x41] && c[1..][1..] == [0x41];
    assert Utf16(c[1..][1..]) == [0x41];
    assert Utf16(c[1..]) == [REPLACEMENT, 0x41];
  }

  lemma ChunkOutput(chunks: seq<seq<Byte>>)
    requires chunks == [[0xE2, 0x82], [0x41]]
    ensures Decode(START, chunks) == [REPLACEMENT, 0x41]
  {
    hide Decoded, Utf16, Next, Write;
    FirstOutput();
    var (d, t) := Write(START, chunks[0]);
    SecondOutput(d);
    assert chunks[1..] == [chunks[1]] && chunks[1..][1..] == [];
    var (d', t') := Write(d, chunks[1]);
    assert Decode(d, chunks[1..]) == t' + Decode(d', []);
  }

  lemma FirstOutput()
    ensures Write(START, [0xE2, 0x82]) == (State(1, 3, [0xE2, 0x82, 0, 0]), [])
  {
    hide Decoded, Utf16, Slice;
    var e: seq<Byte> := [0xE2, 0x82];
    assert CheckIncomplete(e, 0) == (3, 1);
    assert e[0..] == e && Overwritten(START.last, 0, e) == [0xE2, 0x82, 0, 0];
    NoSlice(e);
  }

  lemma SecondOutput(d: State)
    requires d == State(1, 3, [0xE2, 0x82, 0, 0])
    ensures var (d', t) := Write(d, [0x41]); d'.need == 0 && t == [REPLACEMENT, 0x41]
  {
    hide Decoded, Utf16, Slice;
    OneAscii([0x41]);
  }

  lemma NoSlice(b: seq<Byte>)
    ensures Slice(b, 0, 0) == []
  {
    assert b[0..0] == [];
  }

  lemma OneAscii(b: seq<Byte>)
    requires b == [0x41]
    ensures Slice(b, 0, 1) == [0x41] && Utf16([]) == []
  {
    var c: seq<Scalar> := [0x41];
    assert b[0..1] == b && Decoded(b) == c && c[1..] == [];
  }

  lemma {:induction false} Replacements(p: nat)
    ensures Utf16(seq(p, _ => REPLACEMENT)) == seq(p, _ => REPLACEMENT)
  {
    var s := seq(p, _ => REPLACEMENT);
    if p > 0 {
      Replacements(p - 1);
      assert s[1..] == seq(p - 1, _ => REPLACEMENT);
    }
  }

  /** One more byte is copied. */
  lemma OneMore(now: seq<Byte>, target: seq<Byte>, at: nat, e: seq<Byte>, i: nat)
    requires at + |e| <= |target| && i < |e| && now == Overwritten(target, at, e[..i])
    ensures now[at + i := e[i]] == Overwritten(target, at, e[..i + 1])
  {
  }

  /** The decoder object. */
  class Decoder {
    var lastNeed: nat
    var lastTotal: nat
    const lastChar: array<Byte>

    ghost predicate Inv()
      reads this, lastChar
    {
      lastChar.Length == 4 && Valid(Value())
    }

    ghost function Value(): State
      reads this, lastChar
    {
      State(lastNeed, lastTotal, lastChar[..])
    }

    constructor ()
      ensures Inv() && Value() == START && fresh(lastChar)
    {
      lastNeed, lastTotal := 0, 0;
      lastChar := new Byte[4](_ => 0);
      new;
      assert lastChar[..] == [0, 0, 0, 0];
    }

    /** `e.copy(lastChar, at)`. */
    method CopyIn(at: nat, e: seq<Byte>)
      requires at + |e| <= lastChar.Length
      modifies lastChar
      ensures lastChar[..] == Overwritten(old(lastChar[..]), at, e)
    {
      var i := 0;
      while i < |e|
        invariant 0 <= i <= |e|
        invariant lastChar[..] == Overwritten(old(lastChar[..]), at, e[..i])
      {
        OneMore(lastChar[..], old(lastChar[..]), at, e, i);
        lastChar[at + i] := e[i];
        i := i + 1;
      }
    }

    method WriteText(e: seq<Byte>, i: nat) returns (units: seq<Unit>)
      requires Inv() && lastNeed == 0 && i < |e|
      modifies this, lastChar
      ensures Inv() && (Value(), units) == Text(old(Value()), e, i)
    {
      hide CheckIncomplete, Overwritten, Slice;
      IncompleteBounds(e, i);
      var (r, need) := CheckIncomplete(e, i);
      if need == 0 {
        units := Utf8Slice(e, i, |e|);
      } else {
        lastNeed, lastTotal := need, r;
        var n := |e| - (r - lastNeed);
        CopyIn(0, e[n..]);
        units := Utf8Slice(e, i, n);
      }
    }

    method WriteChunk(e: seq<Byte>) returns (units: seq<Unit>)
      requires Inv()
      modifies this, lastChar
      ensures Inv() && (Value(), units) == Write(old(Value()), e)
    {
      units := [];
      if e == [] {
        return;
      }
      var r := 0;
      if lastNeed > 0 {
        var p, extra := lastTotal - lastNeed, CheckExtra(lastNeed, e);
        if extra >= 0 {
          r, units := extra, [REPLACEMENT];
        } else if lastNeed <= |e| {
          CopyIn(p, e[..lastNeed]);
          r := lastNeed;
          units := Utf8Slice(lastChar[..], 0, lastTotal);
        } else {
          CopyIn(p, e);
          lastNeed := lastNeed - |e|;
          return;
        }
        lastNeed := 0;
      }
      if r < |e| {
        var text := WriteText(e, r);
        assert [] + text == text;
        units := units + text;
      }
    }

    /** `end`, with the last chunk if there is one. */
    method Finish(e: seq<Byte>) returns (units: seq<Unit>)
      requires Inv()
      modifies this, lastChar
      ensures Inv() && var (d, t) := Write(old(Value()), e); Value() == d && units == t + End(d)
    {
      units := WriteChunk(e);
      if lastNeed > 0 {
        units := units + [REPLACEMENT];
      }
    }
  }
}
