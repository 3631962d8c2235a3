/**
  * The readable stream on values: what its fields say of the bytes, and what each of its steps does.
  */
module ReadableView {
  import opened Prelude
  import B = BufferList

  /** What user code does. `listenerCount` answers as the request says. */
  datatype Request =
    | Push(chunk: seq<Byte>) | PushEnd | Read(n: Option<int>) | Resume | Pause
    | OnReadable | OnData(readableListeners: bool) | RemoveReadable(readableListeners: bool, dataListeners: bool)
    | Throw
  {
    /** It does not take bytes out of the buffer while `_read` runs. */
    predicate Harmless() {
      !Read? && !Pause?
    }
  }

  /** What `nextTick` was given. */
  datatype Task =
    | EmitReadableTask | ReadMoreTask | EndTask | ResumeTask | ReadZeroTask
    | ListeningTask(readableListeners: bool, dataListeners: bool)

  /** What `read` and `fromList` return, or that they throw. */
  datatype Outcome = Bytes(value: seq<Byte>) | Null | Threw
  {
    function Taken(): seq<Byte> {
      if Bytes? then value else []
    }
  }

  /** The least power of two that is at least `n`, up to a maximum. */
  function NewHighWaterMark(n: nat, p: nat): nat
    requires 0 < p <= 0x4000_0000
    decreases 0x4000_0000 - p
  {
    if n <= p || p > 0x2000_0000 then p else NewHighWaterMark(n, 2 * p)
  }

  /** The result of `howMuchToRead`, when the first chunk has `head` bytes. */
  function Amount(n: Option<int>, length: int, flowing: bool, ended: bool, head: nat): int {
    if (n.Some? && n.value <= 0) || (length == 0 && ended) then 0
    else if n.None? then if flowing && length != 0 then head else length
    else if n.value <= length then n.value
    else if ended then length
    else 0
  }

  /** The high-water mark after `howMuchToRead`. */
  function Mark(n: Option<int>, length: int, ended: bool, mark: nat): nat {
    if n.Some? && n.value > mark && !(length == 0 && ended) then NewHighWaterMark(n.value, 1) else mark
  }

  ghost function Upto(s: seq<Byte>, k: int): seq<Byte> {
    if 0 <= k <= |s| then s[..k] else s
  }

  ghost function From(s: seq<Byte>, k: int): seq<Byte> {
    if 0 <= k <= |s| then s[k..] else s
  }

  /** What `fromList` returns for `e` bytes, if the stream thinks that it has `length` bytes. */
  ghost function Given(chunks: seq<seq<Byte>>, length: int, e: int): Outcome {
    if e <= 0 || length == 0 then Null
    else if e < length then Bytes(Upto(B.Flatten(chunks), e))
    else if chunks == [] then Bytes([])
    else if |chunks| == 1 then Bytes(chunks[0])
    else if length < 0 then Threw
    else Bytes(Upto(B.Flatten(chunks), length))
  }

  /** The bytes that it leaves in the buffer. */
  ghost function Left(chunks: seq<seq<Byte>>, length: int, e: int): seq<Byte> {
    if e <= 0 || length == 0 then B.Flatten(chunks)
    else if e < length then From(B.Flatten(chunks), e)
    else if |chunks| > 1 && length < 0 then B.Flatten(chunks)
    else []
  }

  /** The bytes that it drops. */
  ghost function Lost(chunks: seq<seq<Byte>>, length: int, e: int): seq<Byte> {
    if 0 < length <= e && |chunks| > 1 then From(B.Flatten(chunks), length) else []
  }

  /** Nothing is dropped, unless the stream thinks that it has less than it has, and takes all of several chunks. */
  lemma GivenAndLeft(chunks: seq<seq<Byte>>, length: int, e: int)
    requires length <= |B.Flatten(chunks)| && B.Full(chunks)
    ensures var g, all := Given(chunks, length, e), B.Flatten(chunks);
            && all == g.Taken() + Lost(chunks, length, e) + Left(chunks, length, e)
            && (length == |all| ==> Lost(chunks, length, e) == [] && g != Threw)
            && (g.Bytes? && chunks != [] ==> |Left(chunks, length, e)| < |all|)
  {
    hide B.Flatten, B.Full;
    Whole(chunks);
  }

  lemma Whole(chunks: seq<seq<Byte>>)
    requires B.Full(chunks)
    ensures chunks == [] <==> B.Flatten(chunks) == []
    ensures |chunks| == 1 ==> B.Flatten(chunks) == chunks[0]
  {
    if chunks != [] {
      assert B.Flatten(chunks) == chunks[0] + B.Flatten(chunks[1..]);
    }
  }

  lemma GivenKinds(chunks: seq<seq<Byte>>, length: int, e: int)
    ensures e <= 0 ==> Given(chunks, length, e) == Null && Left(chunks, length, e) == B.Flatten(chunks)
    ensures e > 0 && length > 0 ==> Given(chunks, length, e).Bytes?
    ensures Given(chunks, length, e).Null? <==> e <= 0 || length == 0
  {
  }

  /** No byte is emitted, or waits, that was not pushed as often. */
  ghost predicate NoneInvented(delivered: seq<Byte>, waiting: seq<Byte>, pushed: seq<Byte>) {
    multiset(delivered) + multiset(waiting) <= multiset(pushed)
  }

  /**
    * What the fields say of the bytes. As long as no read was short, the bytes emitted, then the bytes that wait, are
    * the bytes pushed, and `length` counts those that wait. Later, `length` can be too small, and bytes can be lost.
    */
  ghost predicate Sound(chunks: seq<seq<Byte>>, length: int, delivered: seq<Byte>, pushed: seq<Byte>, short: bool) {
    var waiting := B.Flatten(chunks);
    && B.Full(chunks) && length <= |waiting| && NoneInvented(delivered, waiting, pushed)
    && (!short ==> delivered + waiting == pushed && length == |waiting|)
  }

  lemma SoundStart()
    ensures Sound([], 0, [], [], false)
  {
  }

  lemma SoundStore(chunks: seq<seq<Byte>>, length: int, delivered: seq<Byte>, pushed: seq<Byte>, short: bool,
                   chunk: seq<Byte>)
    requires Sound(chunks, length, delivered, pushed, short) && chunk != []
    ensures Sound(chunks + [chunk], length + |chunk|, delivered, pushed + chunk, short)
  {
    B.FlattenPush(chunks, chunk);
    hide B.Flatten;
    var waiting := B.Flatten(chunks);
    assert delivered + (waiting + chunk) == delivered + waiting + chunk;
  }

  /** A chunk that is emitted at once. */
  lemma SoundPass(chunks: seq<seq<Byte>>, delivered: seq<Byte>, pushed: seq<Byte>, short: bool, chunk: seq<Byte>)
    requires Sound(chunks, 0, delivered, pushed, short)
    ensures Sound(chunks, 0, delivered + chunk, pushed + chunk, short)
  {
    hide B.Flatten;
    if !short {
      assert delivered + [] == delivered;
    }
  }

  lemma InventedTake(delivered: seq<Byte>, taken: seq<Byte>, lost: seq<Byte>, left: seq<Byte>, pushed: seq<Byte>)
    requires NoneInvented(delivered, taken + lost + left, pushed)
    ensures NoneInvented(delivered + taken, left, pushed)
  {
  }

  lemma InOrderTake(delivered: seq<Byte>, taken: seq<Byte>, left: seq<Byte>)
    ensures delivered + (taken + [] + left) == delivered + taken + left
  {
  }

  lemma LengthLeft(chunks: seq<seq<Byte>>, length: int, e: int)
    requires length <= |B.Flatten(chunks)| && B.Full(chunks)
    ensures var g, all, left := Given(chunks, length, e), B.Flatten(chunks), Left(chunks, length, e);
            var l := length - if g.Bytes? then e else 0;
            l <= |left| && (length == |all| && !(0 < length < e) ==> l == |left|)
  {
    if chunks == [] {
      assert B.Flatten(chunks) == [];
    }
    hide B.Flatten;
  }

  /** The end of `read`: bytes are only dropped by a read that is short, or after one. */
  lemma SoundTake(chunks: seq<seq<Byte>>, length: int, delivered: seq<Byte>, pushed: seq<Byte>, short: bool,
                  e: int, rest: seq<seq<Byte>>)
    requires Sound(chunks, length, delivered, pushed, short)
    requires B.Full(rest) && B.Flatten(rest) == Left(chunks, length, e)
    ensures var g := Given(chunks, length, e);
            Sound(rest, length - (if g.Bytes? then e else 0), delivered + g.Taken(), pushed, short || 0 < length < e)
  {
    var g, left, lost := Given(chunks, length, e), Left(chunks, length, e), Lost(chunks, length, e);
    GivenAndLeft(chunks, length, e);
    LengthLeft(chunks, length, e);
    hide Given, Left, Lost, B.Flatten, B.Full, NoneInvented;
    assert B.Flatten(chunks) == g.Taken() + lost + left;
    InventedTake(delivered, g.Taken(), lost, left, pushed);
    if !short {
      InOrderTake(delivered, g.Taken(), left);
    }
  }

  lemma SoundTakeAll(chunks: seq<seq<Byte>>, length: int, delivered: seq<Byte>, pushed: seq<Byte>, short: bool,
                     e: int, rest: seq<seq<Byte>>)
    requires Sound(chunks, length, delivered, pushed, short) && !short && 0 < length <= e
    requires B.Full(rest) && B.Flatten(rest) == Left(chunks, length, e)
    ensures rest == [] && delivered + Given(chunks, length, e).Taken() == pushed
  {
    GivenAndLeft(chunks, length, e);
    Whole(rest);
    hide B.Flatten, B.Full;
  }

  lemma SoundMeans(chunks: seq<seq<Byte>>, length: int, delivered: seq<Byte>, pushed: seq<Byte>, short: bool)
    requires Sound(chunks, length, delivered, pushed, short)
    ensures B.Full(chunks) && length <= |B.Flatten(chunks)| && (chunks == [] ==> B.Flatten(chunks) == [])
    ensures chunks != [] ==> 0 < |chunks[0]| <= |B.Flatten(chunks)|
    ensures !short ==> length == |B.Flatten(chunks)|
  {
    if chunks != [] {
      assert B.Flatten(chunks) == chunks[0] + B.Flatten(chunks[1..]);
    }
  }

  /** `_read` does not read, and does not run listeners. */
  ghost predicate NeverReads(sources: seq<seq<Request>>) {
    forall b, r :: b in sources && r in b ==> r.Harmless()
  }

  ghost predicate AllHarmless(requests: seq<Request>) {
    forall r :: r in requests ==> r.Harmless()
  }

  lemma FirstNeverReads(sources: seq<seq<Request>>)
    requires sources != [] && NeverReads(sources)
    ensures NeverReads(sources[1..]) && AllHarmless(sources[0])
  {
    assert forall b :: b in sources[1..] ==> b in sources;
  }

  /** What the contracts of the stream speak of. The field of the stream with the same name says what each is. */
  datatype View = View(
    chunks: seq<seq<Byte>>, length: int, highWaterMark: nat, flowing: Option<bool>, ended: bool, endEmitted: bool,
    reading: bool, sync: bool, needReadable: bool, emittedReadable: bool, readingMore: bool, resumeScheduled: bool,
    tasks: seq<Task>,
    script: seq<seq<Request>>, sources: seq<seq<Request>>, pushed: seq<Byte>, delivered: seq<Byte>,
    announced: nat, asked: nat, short: bool, risked: bool, raised: nat)
  {
    /** What is left of both scripts. */
    function UserCode(): nat {
      |script| + |sources|
    }

    /** No read was short, and none will be. */
    ghost predicate Tame() {
      NeverReads(sources) && !short
    }

    /** What `read(n)` asks for. */
    function Asks(n: Option<int>): int {
      Amount(n, length, flowing == Some(true), ended, if chunks == [] then 0 else |chunks[0]|)
    }

    /** `read(n)` looks for the first chunk, and there is none. */
    predicate NoHead(n: Option<int>) {
      n.None? && flowing == Some(true) && length != 0 && chunks == []
    }

    /** No user code is left, and no read was short. */
    ghost predicate Alone() {
      UserCode() == 0 && !short
    }

    function EndMarked(): View {
      this.(reading := false, ended := true)
    }

    function Reset(n: Option<int>): View {
      this.(emittedReadable := emittedReadable && n == Some(0))
    }

    /** A read of `e` bytes calls `_read` first. */
    predicate Fetches(e: int, mark: nat) {
      !ended && !reading && (needReadable || length == 0 || length - e < mark)
    }

    /** `read(0)` finds enough to read: a listener will be told. */
    predicate Reports(n: Option<int>) {
      && n == Some(0) && needReadable && (length != 0 || !ended)
      && (ended || if highWaterMark != 0 then length >= highWaterMark else length > 0)
    }

    /** `read(n)` calls `_read`. */
    predicate Calls(n: Option<int>) {
      !Reports(n) && (Fetches(Asks(n), Mark(n, length, ended, highWaterMark))
                      || (!ended && !reading && n.Some? && n.value > length && n.value > 0))
    }

    /** A read that takes `e` bytes, for `read(n)`, finds the end. */
    predicate Ends(n: Option<int>, e: int) {
      ended && !endEmitted && 0 <= e == length && n != Some(e)
    }

    /** `read(n)` asks for two bytes or more, and calls `_read` before it takes them. */
    predicate Risky(n: Option<int>) {
      Asks(n) >= 2 && Fetches(Asks(n), Mark(n, length, ended, highWaterMark))
    }

    /** The number of bytes that the next `_read` reads, if that is all it does. */
    function Theft(): int {
      if sources != [] && |sources[0]| == 1 && sources[0][0].Read? && sources[0][0].n.Some?
      then sources[0][0].n.value else 0
    }

    /** Listeners do nothing, and the next `_read` only reads: it leaves something, but less than `e` bytes. */
    predicate Robbed(e: int) {
      !short && script == [] && 0 < Theft() < length < Theft() + e
    }

    /** Listeners do nothing, and the next `_read` only pushes a chunk. */
    predicate Fed() {
      && script == [] && sources != [] && |sources[0]| == 1
      && sources[0][0].Push? && sources[0][0].chunk != []
    }

    /** The state with that chunk. */
    function Bring(): View {
      if !Fed() then this
      else
        var chunk := sources[0][0].chunk;
        this.(chunks := chunks + [chunk], length := length + |chunk|, pushed := pushed + chunk, sources := sources[1..],
              reading := false)
    }

    /** `_read` is running, listeners do nothing, and more than `k` bytes are there. */
    predicate Within(k: int) {
      !short && script == [] && reading && 0 < k < length
    }
  }

  /** Bytes only come and go in order, none is accepted after the end, and user code is used up. */
  ghost predicate Grown(a: View, b: View) {
    && b.UserCode() <= a.UserCode() && (a.short ==> b.short) && (a.risked ==> b.risked)
    && a.pushed <= b.pushed && a.delivered <= b.delivered && (a.ended ==> b.ended && b.pushed == a.pushed)
    && (a.endEmitted ==> b.endEmitted) && b.announced >= a.announced && b.asked >= a.asked
    && a.tasks <= b.tasks && a.raised <= b.raised
  }

  /** Besides, no read is short if `_read` never reads. */
  ghost predicate Kept(a: View, b: View) {
    Grown(a, b) && (a.Tame() ==> b.Tame())
  }

  lemma KeptTwice(a: View, b: View, c: View)
    requires Kept(a, b) && Kept(b, c)
    ensures Kept(a, c)
  {
    hide NeverReads;
  }

  /** Nothing that a read depends on, or counts, has changed, except that `_read` may be running. */
  ghost predicate Quiet(a: View, b: View) {
    && b.length == a.length && b.flowing == a.flowing && b.ended == a.ended && b.delivered == a.delivered
    && b.pushed == a.pushed && b.announced == a.announced && b.resumeScheduled == a.resumeScheduled
    && b.short == a.short && (a.reading ==> b.reading) && b.script == a.script && b.sources == a.sources
    && b.chunks == a.chunks
  }

  /** `e` bytes were taken out of the buffer and emitted, and nothing else happened. */
  ghost predicate Took(a: View, b: View, e: int, r: Outcome) {
    && r == Given(a.chunks, a.length, e) && B.Flatten(b.chunks) == Left(a.chunks, a.length, e)
    && b.length == a.length - (if r.Bytes? then e else 0) && b.delivered == a.delivered + r.Taken()
    && b.short == (a.short || 0 < a.length < e) && (a.reading ==> b.reading)
    && b.ended == a.ended && b.flowing == a.flowing && b.pushed == a.pushed && b.announced == a.announced
    && b.resumeScheduled == a.resumeScheduled && b.script == a.script && b.sources == a.sources
  }

  /** Nothing came of it: a listener is to be told when there is more, unless there is much already. */
  ghost predicate Tells(a: View, b: View, r: Outcome) {
    b.highWaterMark == a.highWaterMark && (r.Null? ==> b.needReadable == (b.length <= b.highWaterMark))
  }

  /** What a read that takes `e` bytes does with the other fields: at the end, `end` is scheduled. */
  ghost predicate Flagged(a: View, b: View, n: Option<int>, e: int, r: Outcome, fetches: bool) {
    && b.endEmitted == a.endEmitted && b.readingMore == a.readingMore && b.emittedReadable == a.emittedReadable
    && b.reading == (a.reading || fetches) && b.sync == (a.sync && !fetches)
    && b.asked == (a.asked + if fetches then 1 else 0)
    && (!r.Threw? ==>
          b.tasks == a.tasks + if a.ended && !a.endEmitted && b.length == 0 && n != Some(if r.Bytes? then e else 0)
                               then [EndTask] else [])
    && (!r.Threw? && !a.ended && b.length == 0 ==> b.needReadable)
    && (r.Bytes? && a.ended ==> b.needReadable == a.needReadable)
  }

  /** The same for `read(n)`: if it takes all, `end` is scheduled, unless that is exactly what was asked for. */
  ghost predicate Settles(a: View, b: View, n: Option<int>, r: Outcome) {
    && b.endEmitted == a.endEmitted && b.readingMore == a.readingMore
    && b.reading == (a.reading || a.Calls(n)) && b.sync == (a.sync && !a.Calls(n))
    && b.asked == (a.asked + if a.Calls(n) then 1 else 0)
    && b.emittedReadable == (a.Reports(n) || (a.emittedReadable && n == Some(0)))
    && b.tasks == a.tasks + (if a.Reports(n) then if a.emittedReadable then [] else [EmitReadableTask]
                             else if a.ended && !a.endEmitted && b.length == 0 && !(r.Bytes? && n == Some(a.length))
                             then [EndTask] else [])
    && (r.Bytes? && a.ended ==> b.needReadable == a.needReadable)
    && (a.Reports(n) ==> !b.needReadable) && (!a.Reports(n) && !a.ended && b.length == 0 ==> b.needReadable)
  }

  /** Something was thrown, and nothing else stopped the code. */
  ghost predicate Rises(a: View, b: View, threw: bool) {
    threw <==> b.raised > a.raised
  }

  /** What was asked for is what is returned, and what is emitted. */
  ghost predicate Plain(a: View, b: View, n: Option<int>, r: Outcome) {
    && (if a.NoHead(n) then r.Threw? && Quiet(a, b) else Took(a, b, a.Asks(n), r))
    && (r.Bytes? ==> |B.Flatten(b.chunks)| < |B.Flatten(a.chunks)|)
  }

  /** `read(k)` was made from within `_read`, and did nothing else. */
  ghost predicate Stolen(a: View, b: View, k: int) {
    && b.length == a.length - k && b.short == a.short && b.reading && b.script == [] && b.flowing == a.flowing
    && b.ended == a.ended && b.pushed == a.pushed
  }

  /** A read of `e` bytes was short, because `_read` read. */
  ghost predicate FellShort(a: View, b: View, e: int) {
    && b.short && b.length == a.length - a.Theft() - e < 0 && b.chunks == [] && b.delivered == b.pushed == a.pushed
    && b.ended == a.ended && b.flowing == a.flowing && b.script == [] && a.sources != [] && b.sources == a.sources[1..]
  }

  /** A chunk was buffered. */
  ghost predicate Stored(a: View, b: View, chunk: seq<Byte>) {
    && b.length == a.length + |chunk| && b.chunks == a.chunks + [chunk]
    && b.pushed == a.pushed + chunk && b.delivered == a.delivered && b.flowing == a.flowing
    && b.ended == a.ended && b.short == a.short && b.sync == a.sync && !b.reading
    && b.announced == a.announced && b.resumeScheduled == a.resumeScheduled
    && b.script == a.script && b.sources == a.sources && b.highWaterMark == a.highWaterMark
  }

  /** The high-water mark grows with what is asked for, and a listener is told when there is more. */
  ghost predicate Marks(a: View, b: View, n: Option<int>, r: Outcome) {
    && b.highWaterMark == Mark(n, a.length, a.ended, a.highWaterMark)
    && (n.Some? && n.value > 0 && n.value > a.length && !a.ended ==>
          b.needReadable == (a.length <= b.highWaterMark) && b.length == a.length)
  }

  /**
    * What `read(n)` promises of the bytes that wait: `all`, of which `first` is the first chunk. It returns as many as
    * were asked for; without an argument, all of them, or the first chunk in flowing mode; when there are less, none
    * before the end, and all of them after it.
    */
  ghost predicate Answers(all: seq<Byte>, first: seq<Byte>, n: Option<int>, flowing: bool, ended: bool,
                          r: Outcome, rest: seq<Byte>) {
    match n
    case Some(k) =>
      if k <= 0 then r == Null && rest == all
      else if k <= |all| then r == Bytes(all[..k]) && rest == all[k..]
      else if ended && all != [] then r == Bytes(all) && rest == []
      else r == Null && rest == all
    case None =>
      if all == [] then r == Null && rest == all
      else if flowing then r == Bytes(first) && all == first + rest
      else r == Bytes(all) && rest == []
  }

  function FirstChunk(chunks: seq<seq<Byte>>): seq<Byte> {
    if chunks == [] then [] else chunks[0]
  }

  /** What was asked for is what was promised, as long as no read was short. */
  lemma TookMeans(a: View, b: View, n: Option<int>, r: Outcome)
    requires SoundView(a) && !a.short && Took(a, b, a.Asks(n), r)
    ensures Answers(B.Flatten(a.chunks), FirstChunk(a.chunks), n, a.flowing == Some(true), a.ended, r,
              B.Flatten(b.chunks))
  {
    hide Sound, B.Flatten, B.Full, NoneInvented;
    var all := B.Flatten(a.chunks);
    SoundMeans(a.chunks, a.length, a.delivered, a.pushed, a.short);
    Whole(a.chunks);
    if a.chunks != [] {
      Head(a.chunks);
      assert all[..|all|] == all;
    }
  }

  lemma ReadMeans(a: View, b: View, n: Option<int>, r: Outcome)
    requires SoundView(a) && !a.short && Plain(a, b, n, r)
    ensures Answers(B.Flatten(a.chunks), FirstChunk(a.chunks), n, a.flowing == Some(true), a.ended, r,
              B.Flatten(b.chunks))
  {
    hide Sound, B.Flatten, B.Full, NoneInvented, Took, Answers;
    HasHead(a, n);
    TookMeans(a, b, n, r);
  }

  /** `_read` is called exactly when too little is left. */
  lemma CallsWhenLow(a: View, b: View, n: int, r: Outcome)
    requires SoundView(a) && !a.short && Settles(a, b, Some(n), r) && 0 < n <= a.length && n <= a.highWaterMark
    requires !a.ended && !a.reading && !a.needReadable
    ensures b.asked > a.asked <==> a.length - n < a.highWaterMark
  {
    hide Sound, NewHighWaterMark;
  }

  lemma NotThrown(all: seq<Byte>, first: seq<Byte>, n: Option<int>, flowing: bool, ended: bool, r: Outcome,
      rest: seq<Byte>)
    requires Answers(all, first, n, flowing, ended, r, rest)
    ensures !r.Threw?
  {
  }

  lemma HasHead(a: View, n: Option<int>)
    requires SoundView(a) && !a.short
    ensures !a.NoHead(n)
  {
    SoundMeans(a.chunks, a.length, a.delivered, a.pushed, a.short);
    hide Sound, B.Flatten, B.Full;
  }

  /** With the chunk that `_read` pushes, the fields are sound as before. */
  lemma BringSound(a: View)
    requires SoundView(a) && a.Fed()
    ensures SoundView(a.Bring()) && B.Flatten(a.Bring().chunks) == B.Flatten(a.chunks) + a.sources[0][0].chunk
  {
    hide B.Flatten, B.Full, Sound;
    SoundStore(a.chunks, a.length, a.delivered, a.pushed, a.short, a.sources[0][0].chunk);
    B.FlattenPush(a.chunks, a.sources[0][0].chunk);
  }

  /** The bytes start with those of the first chunk. */
  lemma Head(chunks: seq<seq<Byte>>)
    requires chunks != []
    ensures var all := B.Flatten(chunks);
            |chunks[0]| <= |all| && all[..|chunks[0]|] == chunks[0] && all == chunks[0] + all[|chunks[0]|..]
  {
    assert B.Flatten(chunks) == chunks[0] + B.Flatten(chunks[1..]);
  }

  predicate Power2(p: nat) {
    p == 1 || (p > 0 && p % 2 == 0 && Power2(p / 2))
  }

  /** The high-water mark for `n` is the least power of two that is at least `n`, or the maximum. */
  lemma HighWaterMarkIsLeast(n: nat)
    ensures var m := NewHighWaterMark(n, 1);
            && Power2(m) && m <= 0x4000_0000 && (n <= 0x4000_0000 ==> n <= m) && (n > 0x4000_0000 ==> m == 0x4000_0000)
            && forall q: nat :: Power2(q) && n <= q ==> m <= q
  {
    HighWaterMarkFrom(n, 1);
    forall q: nat | Power2(q) && n <= q
      ensures NewHighWaterMark(n, 1) <= q
    {
      NoPowerBelow(n, 1, q);
    }
  }

  lemma {:induction false} HighWaterMarkFrom(n: nat, p: nat)
    requires Power2(p) && p <= 0x4000_0000
    ensures var m := NewHighWaterMark(n, p);
            Power2(m) && p <= m <= 0x4000_0000 && (n <= 0x4000_0000 ==> n <= m) &&
                (n > 0x4000_0000 ==> m == 0x4000_0000)
    decreases 0x4000_0000 - p
  {
    if n > p && p <= 0x2000_0000 {
      assert 2 * p / 2 == p;
      HighWaterMarkFrom(n, 2 * p);
    } else if p > 0x2000_0000 {
      HalfOfMaximum();
      NextPower(0x2000_0000, p);
    }
  }

  lemma HalfOfMaximum()
    ensures Power2(0x2000_0000)
  {
    assert Power2(2);
    TimesSixteen(2);
    TimesSixteen(0x20);
    TimesSixteen(0x200);
    TimesSixteen(0x2000);
    TimesSixteen(0x2_0000);
    TimesSixteen(0x20_0000);
    TimesSixteen(0x200_0000);
  }

  lemma TimesSixteen(p: nat)
    requires Power2(p)
    ensures Power2(16 * p)
  {
    assert 2 * p / 2 == p && 4 * p / 2 == 2 * p && 8 * p / 2 == 4 * p && 16 * p / 2 == 8 * p;
    assert Power2(2 * p) && Power2(4 * p) && Power2(8 * p);
  }

  lemma {:induction false} NoPowerBelow(n: nat, p: nat, q: nat)
    requires Power2(p) && Power2(q) && p <= 0x4000_0000 && p <= q && n <= q
    ensures NewHighWaterMark(n, p) <= q
    decreases 0x4000_0000 - p
  {
    if n > p && p <= 0x2000_0000 {
      NextPower(p, q);
      assert 2 * p / 2 == p;
      NoPowerBelow(n, 2 * p, q);
    }
  }

  lemma {:induction false} NextPower(p: nat, q: nat)
    requires Power2(p) && Power2(q) && p < q
    ensures 2 * p <= q
  {
    if p > 1 {
      NextPower(p / 2, q / 2);
    }
  }

  /** `_read` pushed its chunk at once. */
  ghost predicate Brought(a: View, b: View) {
    var c := a.Bring();
    && a.Fed() && b.chunks == c.chunks && b.length == c.length && b.pushed == c.pushed && b.delivered == c.delivered
    && b.flowing == c.flowing && b.ended == c.ended && b.short == c.short && !b.reading && b.announced == c.announced
    && b.resumeScheduled == c.resumeScheduled && b.script == c.script && b.sources == c.sources
  }

  /** What `read(n)` does. */
  ghost predicate ReadWell(a: View, b: View, n: Option<int>, r: Outcome) {
    && Kept(a, b)
    // a read that can be short is marked, and `Robbed` says what makes it short
    && (a.Risky(n) ==> b.risked)
    && (a.Risky(n) && a.Robbed(a.Asks(n)) ==> FellShort(a, b, a.Asks(n)))
    // a read that meets no user code, or is made from within `_read` and meets no other user code
    && (b.UserCode() == a.UserCode() ==> Plain(a, b, n, r) && b.risked == (a.risked || a.Risky(n)))
    && (b.UserCode() == a.UserCode() ==> Marks(a, b, n, r))
    && (n.Some? && a.Within(n.value) ==> r.Bytes? && Stolen(a, b, n.value) && b.sources == a.sources)
    // a read for which `_read` pushes a chunk at once takes what it asks for with that chunk
    && (n != Some(0) && !a.NoHead(n) && a.Fed() && a.Fetches(a.Asks(n), Mark(n, a.length, a.ended, a.highWaterMark)) ==>
          Took(a.Bring(), b, a.Bring().Asks(n), r))
    && Rises(a, b, r.Threw?)
    // bytes are emitted: a listener is called
    && (a.script != [] && Given(a.chunks, a.length, a.Asks(n)).Bytes? ==> b.UserCode() < a.UserCode())
    && (b.UserCode() == a.UserCode() && !r.Threw? ==> Settles(a, b, n, r))
    // a read of all there is, after the end, schedules the `end` event
    && (a.Ends(n, a.Asks(n)) ==> EndTask in b.tasks)
    // a read at the end schedules the `end` event, and `read(0)` calls `_read` if there is room
    && (a.length == 0 && a.ended && !a.endEmitted ==> EndTask in b.tasks)
    && (n == Some(0) && !a.reading && !a.ended && (a.length < a.highWaterMark || a.length == 0) ==> b.asked > a.asked)
  }

  /** What `read` does, once it knows how much to read. */
  ghost predicate SomeWell(a: View, b: View, n: Option<int>, e: int, r: Outcome) {
    SomeKept(a, b, n, e, r) && SomePlain(a, b, n, e, r) && SomeFetched(a, b, n, e, r)
  }

  ghost predicate SomeKept(a: View, b: View, n: Option<int>, e: int, r: Outcome) {
    var fetches := a.Fetches(e, a.highWaterMark);
    && Kept(a, b) && (e >= 2 && fetches ==> b.risked) && (fetches ==> b.asked > a.asked)
    && Rises(a, b, r.Threw?) && (a.Ends(n, e) ==> EndTask in b.tasks)
    && (a.script != [] && Given(a.chunks, a.length, e).Bytes? ==> b.UserCode() < a.UserCode())
  }

  ghost predicate SomePlain(a: View, b: View, n: Option<int>, e: int, r: Outcome) {
    var fetches := a.Fetches(e, a.highWaterMark);
    && (b.UserCode() == a.UserCode() || (a.script == [] && !fetches) ==> Took(a, b, e, r) && Tells(a, b, r))
    && (b.UserCode() == a.UserCode() ==>
          Flagged(a, b, n, e, r, fetches) && b.risked == (a.risked || (e >= 2 && fetches)))
  }

  ghost predicate SomeFetched(a: View, b: View, n: Option<int>, e: int, r: Outcome) {
    a.Fetches(e, a.highWaterMark) ==>
      && (a.Robbed(e) ==> FellShort(a, b, e))
      && (a.Fed() ==> Took(a.Bring(), b, a.Bring().Asks(n), r))
  }

  /** What it does before it takes bytes. */
  ghost predicate RefillWell(a: View, b: View, n: Option<int>, e: int, more: int, threw: bool) {
    RefillKept(a, b, n, e, more, threw) && RefillPlain(a, b, e, more, threw) && RefillFetched(a, b, e, more, threw)
  }

  ghost predicate RefillKept(a: View, b: View, n: Option<int>, e: int, more: int, threw: bool) {
    var fetches := a.Fetches(e, a.highWaterMark);
    && Kept(a, b) && (e >= 2 && fetches ==> b.risked) && (fetches ==> b.asked > a.asked)
    && (!threw && !b.short && 0 < b.length < more ==> b.risked)
    && (!threw && a.Tame() ==> more <= b.length)
    && Rises(a, b, threw)
    // when `_read` has pushed something at once, the amount is looked at again
    && (fetches && !threw ==> more == if b.reading then e else b.Asks(n))
    && (!fetches ==> !threw && more == e && a == b)
  }

  ghost predicate RefillPlain(a: View, b: View, e: int, more: int, threw: bool) {
    var fetches := a.Fetches(e, a.highWaterMark);
    b.UserCode() == a.UserCode() ==>
      && !threw && more == e && b.risked == (a.risked || (e >= 2 && fetches))
      && Untouched(a, b) && b.reading == (a.reading || fetches) && b.sync == (a.sync && !fetches)
      && b.needReadable == (a.needReadable || (fetches && a.length == 0))
      && b.asked == (a.asked + if fetches then 1 else 0)
  }

  /** The same, but for what a call of `_read` changes when it does nothing. */
  ghost predicate Untouched(a: View, b: View) {
    && b.chunks == a.chunks && b.length == a.length && b.highWaterMark == a.highWaterMark && b.flowing == a.flowing
    && b.ended == a.ended && b.endEmitted == a.endEmitted && b.emittedReadable == a.emittedReadable
    && b.readingMore == a.readingMore && b.resumeScheduled == a.resumeScheduled && b.tasks == a.tasks
    && b.script == a.script && b.sources == a.sources && b.pushed == a.pushed && b.delivered == a.delivered
    && b.announced == a.announced && b.short == a.short && b.raised == a.raised
  }

  ghost predicate RefillFetched(a: View, b: View, e: int, more: int, threw: bool) {
    a.Fetches(e, a.highWaterMark) ==>
      && (a.Fed() ==> !threw && Brought(a, b))
      && (a.Robbed(e) ==> !threw && more == e && Stolen(a, b, a.Theft()) && b.sources == a.sources[1..])
  }

  /** What it does when it takes them. */
  ghost predicate TakeWell(a: View, b: View, n: Option<int>, e: int, r: Outcome) {
    && Grown(a, b) && (a.Tame() && e <= a.length ==> b.Tame())
    && (b.UserCode() == a.UserCode() || a.script == [] ==>
          Took(a, b, e, r) && Tells(a, b, r) && Flagged(a, b, n, e, r, false) && b.risked == a.risked)
    && Rises(a, b, r.Threw?) && (a.Ends(n, e) ==> EndTask in b.tasks)
    && (a.script != [] && Given(a.chunks, a.length, e).Bytes? ==> b.UserCode() < a.UserCode())
    && (a.script == [] && !a.short && 0 < a.length < e ==> r.Bytes? && b.chunks == [] && b.delivered == b.pushed)
  }

  /** What `_read` does. */
  ghost predicate SourceWell(a: View, b: View, threw: bool) {
    && Kept(a, b) && (a.Tame() ==> b.length >= a.length)
    && (b.UserCode() == a.UserCode() ==> !threw && a == b) && Rises(a, b, threw)
    && (a.Within(a.Theft()) ==> !threw && Stolen(a, b, a.Theft()) && b.sources == a.sources[1..])
    && (a.Fed() && !a.ended && a.sync ==> !threw && Brought(a, b))
  }

  /** What `_read` does, and `read` around it. */
  ghost predicate AskWell(a: View, b: View, threw: bool) {
    AskKept(a, b, threw) && AskPlain(a, b, threw) && AskFetched(a, b, threw)
  }

  ghost predicate AskKept(a: View, b: View, threw: bool) {
    Kept(a, b) && b.asked > a.asked && (a.Tame() ==> b.length >= a.length) && Rises(a, b, threw)
  }

  ghost predicate AskPlain(a: View, b: View, threw: bool) {
    b.UserCode() == a.UserCode() ==>
      && !threw && Untouched(a, b) && b.reading && !b.sync && b.needReadable == (a.needReadable || a.length == 0)
      && b.asked == a.asked + 1 && b.risked == a.risked
  }

  ghost predicate AskFetched(a: View, b: View, threw: bool) {
    && (!a.short && a.script == [] && 0 < a.Theft() < a.length ==>
          !threw && Stolen(a, b, a.Theft()) && b.sources == a.sources[1..])
    && (a.Fed() && !a.ended ==> !threw && Brought(a, b))
  }

  ghost predicate Asking(a: View, b: View) {
    && !a.reading
    && b == a.(asked := a.asked + 1, reading := true, sync := true, needReadable := a.needReadable || a.length == 0)
  }

  lemma AskedSource(a: View, b: View, c: View, d: View, threw: bool)
    requires Asking(a, b) && SourceWell(b, c, threw) && d == if threw then c else c.(sync := false)
    ensures AskWell(a, d, threw)
  {
    hide AskKept, AskPlain, AskFetched, Asking, SourceWell;
    AskedKept(a, b, c, d, threw);
    AskedPlain(a, b, c, d, threw);
    AskedFetched(a, b, c, d, threw);
  }

  lemma AskedKept(a: View, b: View, c: View, d: View, threw: bool)
    requires Asking(a, b) && SourceWell(b, c, threw) && d == if threw then c else c.(sync := false)
    ensures AskKept(a, d, threw)
  {
    hide Kept, Brought, Stolen, View.Fed, View.Within, View.Theft;
    KeptFlags(a, b);
    KeptTwice(a, b, c);
    KeptFlags(c, d);
    KeptTwice(a, c, d);
    LessUserCode(b, c);
    SameTame(a, b);
  }

  lemma SameTame(a: View, b: View)
    requires b.sources == a.sources && b.short == a.short
    ensures a.Tame() == b.Tame()
  {
  }

  lemma AskedPlain(a: View, b: View, c: View, d: View, threw: bool)
    requires Asking(a, b) && SourceWell(b, c, threw) && d == if threw then c else c.(sync := false)
    ensures AskPlain(a, d, threw)
  {
    hide Kept, Brought, Stolen, View.Fed, View.Within, View.Theft;
  }

  lemma AskedFetched(a: View, b: View, c: View, d: View, threw: bool)
    requires Asking(a, b) && SourceWell(b, c, threw) && d == if threw then c else c.(sync := false)
    ensures AskFetched(a, d, threw)
  {
    hide Kept, View.Tame;
  }

  ghost predicate TakenOut(a: View, b: View, n: Option<int>, e: int, r: Outcome) {
    && Took(a, b, e, r) && Tells(a, b, r) && Flagged(a, b, n, e, r, false) && b.risked == a.risked
    && a.tasks <= b.tasks && b.raised == (a.raised + if r.Threw? then 1 else 0) && b.asked == a.asked
    && (!a.short && 0 < a.length <= e ==> b.chunks == [] && b.delivered == b.pushed)
  }

  lemma IsTakenOut(a: View, b: View, n: Option<int>, e: int, r: Outcome)
    requires IsTaken(a, b, e, r) && IsFlagged(a, b, n, e, r)
    ensures TakenOut(a, b, n, e, r)
  {
    hide Given, Left, B.Flatten, Took, Tells, Flagged;
    IsTook(a, b, n, e, r);
    IsMarked(a, b, n, e, r);
  }

  ghost predicate IsTaken(a: View, b: View, e: int, r: Outcome) {
    && r == Given(a.chunks, a.length, e) && B.Flatten(b.chunks) == Left(a.chunks, a.length, e)
    && b.short == (a.short || 0 < a.length < e) && b.delivered == a.delivered + r.Taken()
    && b.length == a.length - (if r.Bytes? then e else 0) && b.ended == a.ended && b.flowing == a.flowing
    && b.reading == a.reading && b.resumeScheduled == a.resumeScheduled && b.script == a.script
    && b.sources == a.sources && b.pushed == a.pushed && b.announced == a.announced
    && (!a.short && 0 < a.length <= e ==> b.chunks == [] && b.delivered == b.pushed)
  }

  ghost predicate IsFlagged(a: View, b: View, n: Option<int>, e: int, r: Outcome) {
    && (r.Null? ==> b.needReadable == (b.length <= b.highWaterMark))
    && (!r.Threw? && !b.ended && b.length == 0 ==> b.needReadable)
    && (r.Bytes? && b.ended ==> b.needReadable == a.needReadable)
    && b.tasks == a.tasks + (if !r.Threw? && b.ended && !b.endEmitted && b.length == 0 &&
                                n != Some(if r.Bytes? then e else 0)
                             then [EndTask] else [])
    && b.raised == (a.raised + if r.Threw? then 1 else 0) && b.highWaterMark == a.highWaterMark
    && b.endEmitted == a.endEmitted && b.reading == a.reading && b.sync == a.sync && b.ended == a.ended
    && b.emittedReadable == a.emittedReadable && b.readingMore == a.readingMore && b.asked == a.asked
    && b.risked == a.risked
  }

  lemma IsTook(a: View, b: View, n: Option<int>, e: int, r: Outcome)
    requires IsTaken(a, b, e, r) && IsFlagged(a, b, n, e, r)
    ensures Took(a, b, e, r) && Tells(a, b, r)
  {
    hide Given, Left, B.Flatten;
  }

  lemma IsMarked(a: View, b: View, n: Option<int>, e: int, r: Outcome)
    requires IsFlagged(a, b, n, e, r)
    ensures Flagged(a, b, n, e, r, false) && a.tasks <= b.tasks
  {
  }

  lemma TookWell(a: View, b: View, n: Option<int>, e: int, r: Outcome)
    requires TakenOut(a, b, n, e, r)
    ensures TakenWell(a, b, n, e, r)
  {
    hide Given, Left, B.Flatten, NeverReads;
    GivenKinds(a.chunks, a.length, e);
  }

  /** Bytes are taken, and a listener is still to be called. */
  ghost predicate TakenWell(a: View, b: View, n: Option<int>, e: int, r: Outcome) {
    && Grown(a, b) && (a.Tame() && e <= a.length ==> b.Tame())
    && Took(a, b, e, r) && Tells(a, b, r) && Flagged(a, b, n, e, r, false) && b.risked == a.risked
    && Rises(a, b, r.Threw?) && (a.Ends(n, e) ==> EndTask in b.tasks)
    && (a.script == [] && !a.short && 0 < a.length < e ==> r.Bytes? && b.chunks == [] && b.delivered == b.pushed)
  }

  lemma Told(a: View, b: View, c: View, n: Option<int>, e: int, r: Outcome, threw: bool)
    requires TakenWell(a, b, n, e, r) && if r.Bytes? then ListenWell(b, c, threw) else b == c && !threw
    ensures TakeWell(a, c, n, e, if threw then Threw else r)
  {
    hide Given, Left, B.Flatten, NeverReads;
  }

  lemma RefillAndTake(a: View, b: View, c: View, n: Option<int>, e: int, more: int, r: Outcome)
    requires RefillWell(a, b, n, e, more, false) && TakeWell(b, c, n, more, r)
    ensures SomeWell(a, c, n, e, r)
  {
    hide SomeKept, SomePlain, SomeFetched, RefillKept, RefillPlain, RefillFetched, TakeWell;
    RefillTakeKept(a, b, c, n, e, more, r);
    RefillTakePlain(a, b, c, n, e, more, r);
    RefillTakeFetched(a, b, c, n, e, more, r);
  }

  lemma RefillTakeKept(a: View, b: View, c: View, n: Option<int>, e: int, more: int, r: Outcome)
    requires RefillKept(a, b, n, e, more, false) && RefillPlain(a, b, e, more, false) && TakeWell(b, c, n, more, r)
    ensures SomeKept(a, c, n, e, r)
  {
    hide Given, Kept, Took, Tells, Flagged, Grown, View.Asks, View.Fetches, View.Tame;
    TakenThrough(a, b, c, n, more, r);
    LessUserCode(a, b);
    StaysGrown(a, b);
    if a.Ends(n, e) {
      EndsThere(a, n, e);
    }
  }

  lemma EndsThere(a: View, n: Option<int>, e: int)
    requires a.Ends(n, e)
    ensures !a.Fetches(e, a.highWaterMark)
  {
  }

  lemma TakenThrough(a: View, b: View, c: View, n: Option<int>, e: int, r: Outcome)
    requires Kept(a, b) && TakeWell(b, c, n, e, r) && (a.Tame() ==> e <= b.length)
    ensures Kept(a, c) && c.UserCode() <= b.UserCode() && c.asked >= b.asked && c.raised >= b.raised
    ensures b.risked ==> c.risked
  {
    hide Given, Took, Tells, Flagged, NeverReads;
  }

  lemma RefillTakePlain(a: View, b: View, c: View, n: Option<int>, e: int, more: int, r: Outcome)
    requires RefillKept(a, b, n, e, more, false) && RefillPlain(a, b, e, more, false) && TakeWell(b, c, n, more, r)
    ensures SomePlain(a, c, n, e, r)
  {
    hide Given, Left, B.Flatten, Kept, Grown, View.Asks, View.Tame;
    TakenThrough(a, b, c, n, more, r);
    LessUserCode(a, b);
  }

  lemma RefillTakeFetched(a: View, b: View, c: View, n: Option<int>, e: int, more: int, r: Outcome)
    requires RefillKept(a, b, n, e, more, false) && RefillFetched(a, b, e, more, false) && TakeWell(b, c, n, more, r)
    ensures SomeFetched(a, c, n, e, r)
  {
    hide Given, Left, B.Flatten, Kept, Brought, Tells, Flagged, View.Bring, View.Fed, View.Asks, View.Fetches;
    BroughtTook(a, b, c, n, more, r);
  }

  lemma BroughtTook(a: View, b: View, c: View, n: Option<int>, e: int, r: Outcome)
    ensures Brought(a, b) ==> b.Asks(n) == a.Bring().Asks(n) && b.script == [] && !b.reading
    ensures Brought(a, b) && Took(b, c, e, r) ==> Took(a.Bring(), c, e, r)
  {
    hide Given, Left, B.Flatten, Amount;
  }

  lemma RefillAndThrow(a: View, b: View, n: Option<int>, e: int, more: int)
    requires RefillWell(a, b, n, e, more, true)
    ensures SomeWell(a, b, n, e, Threw)
  {
    hide Given, Left, B.Flatten, NeverReads;
  }

  /** `howMuchToRead` only sets the high-water mark and `needReadable`. */
  ghost predicate Sized(a: View, b: View, n: Option<int>) {
    b == a.(highWaterMark := Mark(n, a.length, a.ended, a.highWaterMark),
            needReadable := a.needReadable || (n.Some? && n.value > a.length && n.value > 0 && !a.ended),
            raised := a.raised + if a.NoHead(n) then 1 else 0)
  }

  /** A read begins: unless it is `read(0)`, the next chunk is to be announced again. */
  ghost predicate Begun(a: View, b: View, n: Option<int>) {
    Sized(a.Reset(n), b, n)
  }

  ghost predicate Marked(a: View, b: View, e: int) {
    b == a.(risked := a.risked || e >= 2)
  }

  /** `_read` has not pushed anything at once. */
  lemma AskedOnly(a: View, b: View, c: View, n: Option<int>, e: int, threw: bool)
    requires Marked(a, b, e) && a.Fetches(e, a.highWaterMark) && AskWell(b, c, threw) && (threw || c.reading)
    requires !a.short ==> e <= a.length
    ensures RefillWell(a, c, n, e, e, threw)
  {
    hide RefillKept, RefillPlain, RefillFetched, AskKept, AskPlain, AskFetched, Marked;
    AskedKeptOnly(a, b, c, n, e, threw);
    AskedPlainOnly(a, b, c, e, threw);
    AskedFetchedOnly(a, b, c, e, threw);
  }

  lemma AskedKeptOnly(a: View, b: View, c: View, n: Option<int>, e: int, threw: bool)
    requires Marked(a, b, e) && a.Fetches(e, a.highWaterMark) && AskKept(b, c, threw) && (threw || c.reading)
    requires !a.short ==> e <= a.length
    ensures RefillKept(a, c, n, e, e, threw)
  {
    hide Kept, View.Asks;
    KeptMarked(a, b, e);
    KeptTwice(a, b, c);
    StaysGrown(b, c);
    StaysGrown(a, c);
    SameTame(a, b);
  }

  lemma AskedPlainOnly(a: View, b: View, c: View, e: int, threw: bool)
    requires Marked(a, b, e) && a.Fetches(e, a.highWaterMark) && AskPlain(b, c, threw)
    ensures RefillPlain(a, c, e, e, threw)
  {
    hide View.Asks, View.Theft;
    assert b.UserCode() == a.UserCode() && b.length == a.length && b.needReadable == a.needReadable &&
        b.asked == a.asked;
  }

  lemma AskedFetchedOnly(a: View, b: View, c: View, e: int, threw: bool)
    requires Marked(a, b, e) && a.Fetches(e, a.highWaterMark) && AskFetched(b, c, threw) && (threw || c.reading)
    ensures RefillFetched(a, c, e, e, threw)
  {
  }

  lemma AskedAndSized(a: View, b: View, c: View, d: View, n: Option<int>, e: int, more: int, threw: bool)
    requires Marked(a, b, e) && a.Fetches(e, a.highWaterMark) && AskWell(b, c, false) && !c.reading && Sized(c, d, n)
    requires threw == d.NoHead(n) && (!threw ==> more == d.Asks(n))
    requires !c.short ==> !c.NoHead(n) && c.Asks(n) <= c.length
    ensures RefillWell(a, d, n, e, more, threw)
  {
    hide RefillKept, RefillPlain, RefillFetched, Marked, Sized, Asking, AskWell;
    SizedKept(a, b, c, d, n, e, more, threw);
    SizedUser(a, b, c, d, n, e, more, threw);
    SizedFetched(a, b, c, d, n, e, more, threw);
  }

  lemma SizedKept(a: View, b: View, c: View, d: View, n: Option<int>, e: int, more: int, threw: bool)
    requires Marked(a, b, e) && a.Fetches(e, a.highWaterMark) && AskWell(b, c, false) && !c.reading && Sized(c, d, n)
    requires threw == d.NoHead(n) && (!threw ==> more == d.Asks(n))
    requires !c.short ==> !c.NoHead(n) && c.Asks(n) <= c.length
    ensures RefillKept(a, d, n, e, more, threw)
  {
    hide Kept, Mark, Amount, AskFetched;
    KeptMarked(a, b, e);
    KeptTwice(a, b, c);
    KeptSized(c, d, n);
    KeptTwice(a, c, d);
    LessUserCode(b, c);
    StaysGrown(b, c);
    StaysGrown(a, d);
    SameTame(a, b);
    SameTame(c, d);
  }

  lemma SizedUser(a: View, b: View, c: View, d: View, n: Option<int>, e: int, more: int, threw: bool)
    requires Marked(a, b, e) && AskWell(b, c, false) && !c.reading && Sized(c, d, n)
    ensures RefillPlain(a, d, e, more, threw)
  {
    hide Kept, Mark, Amount, AskFetched;
    assert d.UserCode() == c.UserCode() && b.UserCode() == a.UserCode();
  }

  lemma StaysAlone(a: View, b: View)
    requires Kept(a, b)
    ensures a.Alone() ==> b.Alone()
  {
  }

  lemma StaysGrown(a: View, b: View)
    requires Kept(a, b)
    ensures (a.Tame() ==> !b.short) && b.raised >= a.raised && (a.risked ==> b.risked)
  {
    hide NeverReads;
  }

  lemma KeptMarked(a: View, b: View, e: int)
    requires Marked(a, b, e)
    ensures Kept(a, b)
  {
  }

  lemma KeptSized(a: View, b: View, n: Option<int>)
    requires Sized(a, b, n)
    ensures Kept(a, b)
  {
    hide Mark;
  }

  lemma SizedFetched(a: View, b: View, c: View, d: View, n: Option<int>, e: int, more: int, threw: bool)
    requires Marked(a, b, e) && a.Fetches(e, a.highWaterMark) && AskWell(b, c, false) && !c.reading && Sized(c, d, n)
    requires threw == d.NoHead(n)
    ensures RefillFetched(a, d, e, more, threw)
  {
    hide Kept, Mark, Amount, Brought, View.Fed;
    BroughtThrough(a, b, c, d, n, e);
  }

  lemma BroughtThrough(a: View, b: View, c: View, d: View, n: Option<int>, e: int)
    requires Marked(a, b, e) && Sized(c, d, n)
    ensures Brought(b, c) ==> Brought(a, d) && !d.NoHead(n)
    ensures a.Fed() <==> b.Fed()
  {
    hide Mark;
  }

  /** What is known of a read before it is made. */
  ghost predicate Ready(a: View, n: Option<int>) {
    !a.NoHead(n) && Given(a.chunks, a.length, a.Asks(n)).Bytes? ==>
      |Left(a.chunks, a.length, a.Asks(n))| < |B.Flatten(a.chunks)|
  }

  ghost predicate SoundView(a: View) {
    Sound(a.chunks, a.length, a.delivered, a.pushed, a.short)
  }

  lemma SoundLength(a: View)
    requires SoundView(a) && !a.short
    ensures a.length == |B.Flatten(a.chunks)|
  {
  }

  lemma SoundReady(a: View, n: Option<int>)
    requires SoundView(a)
    ensures Ready(a, n)
  {
    var e := a.Asks(n);
    SoundMeans(a.chunks, a.length, a.delivered, a.pushed, a.short);
    GivenAndLeft(a.chunks, a.length, e);
    GivenKinds(a.chunks, a.length, e);
    hide Sound, B.Flatten, B.Full, Left, Given;
  }

  lemma SoundAll(a: View, n: Option<int>)
    requires SoundView(a)
    ensures !a.short ==> !a.NoHead(n) && a.Asks(n) <= a.length
  {
    SoundMeans(a.chunks, a.length, a.delivered, a.pushed, a.short);
    hide Sound, B.Flatten, B.Full;
  }

  lemma ThrewAtOnce(a: View, b: View, n: Option<int>)
    requires Begun(a, b, n) && a.NoHead(n)
    ensures ReadWell(a, b, n, Threw)
  {
    hide Given, Left, B.Flatten, NeverReads, NewHighWaterMark, Settles;
    GivenKinds(a.chunks, a.length, a.Asks(n));
  }

  /** `read(0)` when there is something to read already, or nothing more to come. */
  lemma NothingRead(a: View, b: View)
    requires a.needReadable && (a.ended || if a.highWaterMark != 0 then a.length >= a.highWaterMark else a.length > 0)
    requires b == if a.length == 0 && a.ended
                  then a.(tasks := a.tasks + if a.endEmitted then [] else [EndTask])
                  else a.(needReadable := false, emittedReadable := true,
                          tasks := a.tasks + if a.emittedReadable then [] else [EmitReadableTask])
    ensures ReadWell(a, b, Some(0), Null)
  {
    hide Given, Left, B.Flatten, Kept, FellShort, Stolen, View.Reset;
    GivenKinds(a.chunks, a.length, 0);
    KeptFlags(a, b);
  }

  lemma NoMoreToRead(a: View, b: View, c: View, n: Option<int>)
    requires Begun(a, b, n) && !a.NoHead(n) && a.Asks(n) == 0 && a.ended && !a.Reports(n)
    requires c == b.(tasks := b.tasks + if b.length == 0 && !b.endEmitted then [EndTask] else [])
    ensures ReadWell(a, c, n, Null)
  {
    hide Given, Left, B.Flatten, Kept, FellShort, Stolen, Sized, Settles, View.Asks, View.Within, View.NoHead,
         View.Reports;
    GivenKinds(a.chunks, a.length, 0);
    NoMoreSettles(a, b, c, n);
    KeptNoMore(a, b, c, n);
    NotWithin(a, n);
  }

  lemma NoMoreSettles(a: View, b: View, c: View, n: Option<int>)
    requires Begun(a, b, n) && !a.NoHead(n) && a.ended && !a.Reports(n)
    requires c == b.(tasks := b.tasks + if b.length == 0 && !b.endEmitted then [EndTask] else [])
    ensures Settles(a, c, n, Null)
  {
    hide Mark, Amount;
  }

  lemma KeptNoMore(a: View, b: View, c: View, n: Option<int>)
    requires Begun(a, b, n) && !a.NoHead(n)
    requires c == b.(tasks := b.tasks + if b.length == 0 && !b.endEmitted then [EndTask] else [])
    ensures Kept(a, c) && Quiet(a, c) && c.risked == a.risked && (a.length == 0 && !a.endEmitted ==> EndTask in c.tasks)
    ensures c.highWaterMark == Mark(n, a.length, a.ended, a.highWaterMark) && c.raised == a.raised
  {
    hide Kept, Mark;
    KeptFlags(a, c);
  }

  lemma NotWithin(a: View, n: Option<int>)
    ensures n.Some? && a.Within(n.value) ==> a.Asks(n) > 0
  {
  }

  lemma SizedTook(a: View, b: View, c: View, n: Option<int>, e: int, r: Outcome)
    requires Begun(a, b, n)
    ensures Took(b, c, e, r) ==> Took(a, c, e, r)
    ensures FellShort(b, c, e) ==> FellShort(a, c, e)
    ensures a.Robbed(e) ==> b.Robbed(e)
  {
    hide Given, Left, B.Flatten, Mark;
  }

  lemma SizedFed(a: View, b: View, c: View, n: Option<int>, r: Outcome)
    requires Begun(a, b, n)
    ensures a.Fed() <==> b.Fed()
    ensures Took(b.Bring(), c, b.Bring().Asks(n), r) ==> Took(a.Bring(), c, a.Bring().Asks(n), r)
  {
    hide Given, Left, B.Flatten, Took, Sized, AsGood, View.Bring, View.Asks, View.Fed;
    SizedAsGood(a, b, n);
    BringAsGood(a, b);
    AsksAsGood(a.Bring(), b.Bring(), n);
    SameTook(a.Bring(), b.Bring(), c, b.Bring().Asks(n), r);
  }

  /** What is asked for does not depend on what `howMuchToRead` changes. */
  lemma SizedAsks(a: View, b: View, n: Option<int>)
    requires Begun(a, b, n)
    ensures a.Asks(n) == b.Asks(n) && a.NoHead(n) == a.Reset(n).NoHead(n) == b.NoHead(n)
    ensures b.length == a.length && b.ended == a.ended && b.short == a.short && b.UserCode() == a.UserCode()
    ensures b.raised == a.raised + if a.NoHead(n) then 1 else 0
  {
    hide Mark, Amount;
  }

  lemma SizedAsGood(a: View, b: View, n: Option<int>)
    requires Begun(a, b, n)
    ensures AsGood(a, b)
  {
    hide Mark;
  }

  lemma BringAsGood(a: View, b: View)
    requires AsGood(a, b)
    ensures AsGood(a.Bring(), b.Bring()) && (a.Fed() <==> b.Fed())
  {
    hide View.Asks;
  }

  lemma AsksAsGood(a: View, b: View, n: Option<int>)
    requires AsGood(a, b)
    ensures a.Asks(n) == b.Asks(n)
  {
    hide Amount;
  }

  /** The same, but for the high-water mark and `needReadable`. */
  ghost predicate AsGood(a: View, b: View) {
    b == a.(highWaterMark := b.highWaterMark, needReadable := b.needReadable, emittedReadable := b.emittedReadable,
            raised := b.raised)
  }

  lemma SameTook(a: View, b: View, c: View, e: int, r: Outcome)
    requires AsGood(a, b)
    ensures Took(b, c, e, r) ==> Took(a, c, e, r)
  {
    hide Given, Left, B.Flatten;
  }

  /** `needReadable` only changes when nothing is to be taken. */
  lemma SizedFetches(a: View, b: View, n: Option<int>)
    requires Begun(a, b, n)
    ensures a.Fetches(a.Asks(n), Mark(n, a.length, a.ended, a.highWaterMark)) ==> b.Fetches(a.Asks(n), b.highWaterMark)
    ensures n == Some(0) && !a.reading && !a.ended && (a.length < a.highWaterMark || a.length == 0) ==>
              b.Fetches(0, b.highWaterMark) && a.Asks(n) == 0
    ensures n.Some? && a.Within(n.value) ==>
              a.script == [] && !b.Fetches(a.Asks(n), b.highWaterMark) && a.Asks(n) == n.value
    ensures a.Risky(n) <==> a.Asks(n) >= 2 && b.Fetches(a.Asks(n), b.highWaterMark)
    ensures a.length == 0 && a.ended ==> a.Asks(n) == 0
  {
    hide NewHighWaterMark;
  }

  lemma SizedThenSome(a: View, b: View, c: View, n: Option<int>, r: Outcome)
    requires Ready(a, n) && Begun(a, b, n) && !a.NoHead(n) && SomeWell(b, c, n, a.Asks(n), r)
    requires !(a.Asks(n) == 0 && a.ended) && !a.Reports(n)
    ensures ReadWell(a, c, n, r)
  {
    hide Given, Left, B.Flatten, Kept, Took, Tells, FellShort, Plain, Stolen, Sized, Ready, Marks, Flagged, Settles;
    hide View.Reports, View.Calls, View.Ends, View.Asks, View.NoHead, View.Fetches, View.Risky, View.Robbed,
         View.Within, View.UserCode, View.Fed, View.Bring;
    SizedSame(a, b, n);
    KeptTwice(a, b, c);
    SizedTook(a, b, c, n, a.Asks(n), r);
    SizedFed(a, b, c, n, r);
    SizedFetches(a, b, n);
    SizedPlain(a, c, n, r);
    SizedMarks(a, b, c, n, r);
    SizedSettles(a, b, c, n, r);
    SizedEnds(a, b, n);
    if n.Some? && a.Within(n.value) {
      TookStolen(a, c, n.value, r);
    }
  }

  lemma SizedSettles(a: View, b: View, c: View, n: Option<int>, r: Outcome)
    requires Begun(a, b, n) && !a.NoHead(n) && !a.Reports(n) && !(a.Asks(n) == 0 && a.ended)
    ensures Took(a, c, a.Asks(n), r) && Flagged(b, c, n, a.Asks(n), r, b.Fetches(a.Asks(n), b.highWaterMark)) &&
              !r.Threw? ==>
              Settles(a, c, n, r)
  {
    hide Given, Left, B.Flatten, Mark;
    SizedFlags(a, b, n);
    GivenKinds(a.chunks, a.length, a.Asks(n));
  }

  lemma SizedEnds(a: View, b: View, n: Option<int>)
    requires Begun(a, b, n) && !a.NoHead(n)
    ensures b.chunks == a.chunks && b.length == a.length && b.raised == a.raised
    ensures a.Ends(n, a.Asks(n)) ==> b.Ends(n, a.Asks(n))
  {
    hide Mark, Amount;
  }

  lemma SizedFlags(a: View, b: View, n: Option<int>)
    requires Begun(a, b, n) && !a.Reports(n)
    ensures a.Calls(n) == b.Fetches(a.Asks(n), b.highWaterMark)
  {
    hide NewHighWaterMark;
  }

  lemma SizedSame(a: View, b: View, n: Option<int>)
    requires Begun(a, b, n) && !a.NoHead(n)
    ensures Kept(a, b) && b.UserCode() == a.UserCode() && b.script == a.script
    ensures b.asked == a.asked && b.risked == a.risked
    ensures b.highWaterMark == Mark(n, a.length, a.ended, a.highWaterMark)
  {
    hide Kept, Mark;
    KeptFlags(a, b);
  }

  lemma SizedPlain(a: View, c: View, n: Option<int>, r: Outcome)
    requires Ready(a, n) && !a.NoHead(n)
    ensures Took(a, c, a.Asks(n), r) ==> Plain(a, c, n, r)
  {
    hide Given, Left, B.Flatten;
  }

  lemma SizedMarks(a: View, b: View, c: View, n: Option<int>, r: Outcome)
    requires Begun(a, b, n) && !a.NoHead(n)
    ensures Took(b, c, a.Asks(n), r) && Tells(b, c, r) ==> Marks(a, c, n, r)
  {
    hide Given, Left, B.Flatten, Mark;
    GivenKinds(b.chunks, b.length, a.Asks(n));
  }

  lemma TookStolen(a: View, c: View, k: int, r: Outcome)
    requires a.Within(k)
    ensures Took(a, c, k, r) ==> r.Bytes? && Stolen(a, c, k) && c.sources == a.sources
  {
    GivenKinds(a.chunks, a.length, k);
    hide Given, Left, B.Flatten;
  }

  /** The same, but for what listeners of `readable` are told. */
  ghost predicate Same(a: View, b: View) {
    && b.chunks == a.chunks && b.length == a.length && b.highWaterMark == a.highWaterMark && b.flowing == a.flowing
    && b.ended == a.ended && b.endEmitted == a.endEmitted && b.reading == a.reading && b.sync == a.sync
    && b.readingMore == a.readingMore && b.resumeScheduled == a.resumeScheduled && b.tasks == a.tasks
    && b.script == a.script && b.sources == a.sources && b.pushed == a.pushed && b.delivered == a.delivered
    && b.asked == a.asked && b.short == a.short && b.risked == a.risked && b.raised == a.raised
  }

  /** Some fields that say nothing of the bytes. */
  ghost predicate FlagsOnly(a: View, b: View) {
    && b.chunks == a.chunks && b.length == a.length && b.ended == a.ended && b.endEmitted == a.endEmitted
    && b.script == a.script && b.sources == a.sources && b.pushed == a.pushed && b.delivered == a.delivered
    && b.short == a.short && b.risked == a.risked && b.raised == a.raised
    && b.announced >= a.announced && b.asked >= a.asked && a.tasks <= b.tasks
  }

  lemma KeptFlags(a: View, b: View)
    requires FlagsOnly(a, b)
    ensures Kept(a, b)
  {
  }

  lemma KeptStopped(a: View, b: View)
    requires b == a.(readingMore := false)
    ensures Kept(a, b)
  {
    hide Kept;
    KeptFlags(a, b);
  }

  /** What user code does. */
  ghost predicate PerformWell(a: View, b: View, request: Request, threw: bool) {
    && Kept(a, b) && Rises(a, b, threw) && (request.Harmless() && a.sync ==> b.sync && b.length >= a.length)
    && (request.Read? ==> ReadDone(a, b, request.n, threw)) && (request.Pause? ==> PauseWell(a, b, threw))
    && (request.Resume? || request.OnReadable? || request.OnData? || request.RemoveReadable? ==>
          !threw && SwitchWell(a, b, request))
    && (request.Read? && request.n.Some? && a.Within(request.n.value) ==>
          !threw && Stolen(a, b, request.n.value) && b.sources == a.sources)
    && (request.Read? && a.Risky(request.n) && a.Robbed(a.Asks(request.n)) ==> FellShort(a, b, a.Asks(request.n)))
    && (request.Push? ==> PushWell(a, b, request.chunk, threw))
    && (request.PushEnd? ==> EndWell(a, b, threw)) && (request.Throw? ==> threw && b == a.(raised := a.raised + 1))
  }

  ghost predicate ReadDone(a: View, b: View, n: Option<int>, threw: bool) {
    exists r :: ReadWell(a, b, n, r) && threw == r.Threw?
  }

  /** What `pause` does. */
  ghost predicate PauseWell(a: View, b: View, threw: bool) {
    && Kept(a, b) && Rises(a, b, threw)
    && (a.flowing != Some(false) && a.script != [] ==> b.UserCode() < a.UserCode())
    && (b.UserCode() == a.UserCode() ==> !threw && b == a.(flowing := Some(false)))
  }

  /** What `resume` does: unless the stream flows, it is scheduled to. */
  ghost predicate ResumeWell(a: View, b: View) {
    if a.flowing == Some(true) then a == b
    else
      && b.flowing.Some?
      && b == a.(flowing := b.flowing, resumeScheduled := true,
                 tasks := a.tasks + if a.resumeScheduled then [] else [ResumeTask])
  }

  /** What a new listener of `readable` does, if it is the first one. */
  ghost predicate ListensWell(a: View, b: View) {
    || a == b
    || b == a.(needReadable := a.length == 0, emittedReadable := a.length != 0, flowing := Some(false),
               tasks := a.tasks + if a.length != 0 then [EmitReadableTask]
                                  else if a.reading then [] else [ReadZeroTask])
  }

  ghost predicate SwitchWell(a: View, b: View, request: Request)
    requires request.Resume? || request.OnReadable? || request.OnData? || request.RemoveReadable?
  {
    match request
    case Resume => ResumeWell(a, b)
    case OnReadable => ListensWell(a, b)
    case OnData(_) => if a.flowing == Some(false) then a == b else ResumeWell(a, b)
    case RemoveReadable(readable, data) => b == a.(tasks := a.tasks + [ListeningTask(readable, data)])
  }

  ghost predicate AllWell(a: View, b: View, requests: seq<Request>, threw: bool) {
    && Kept(a, b) && Rises(a, b, threw) && (requests == [] ==> !threw && a == b)
    && (AllHarmless(requests) && a.sync ==> b.sync && b.length >= a.length)
    && (|requests| == 1 && requests[0].Read? && requests[0].n.Some? && a.Within(requests[0].n.value) ==>
          !threw && Stolen(a, b, requests[0].n.value) && b.sources == a.sources)
    && (|requests| == 1 && requests[0].Push? && requests[0].chunk != [] && !a.ended && a.sync ==>
          !threw && Stored(a, b, requests[0].chunk))
  }

  /** While `_read` runs, a chunk is buffered. */
  lemma PushedAtOnce(a: View, b: View, chunk: seq<Byte>, threw: bool)
    requires PushWell(a, b, chunk, threw) && chunk != [] && !a.ended && a.sync
    ensures !threw && Stored(a, b, chunk)
  {
  }

  lemma AllOfNone(a: View)
    ensures AllWell(a, a, [], false)
  {
  }

  lemma AllOfOne(a: View, b: View, requests: seq<Request>)
    requires requests != [] && PerformWell(a, b, requests[0], true)
    ensures AllWell(a, b, requests, true)
  {
    hide Kept, PushWell;
    if |requests| == 1 && requests[0].Push? && requests[0].chunk != [] && !a.ended && a.sync {
      PushedAtOnce(a, b, requests[0].chunk, true);
    }
  }

  lemma AllOfMore(a: View, b: View, c: View, requests: seq<Request>, threw: bool)
    requires requests != [] && PerformWell(a, b, requests[0], false) && AllWell(b, c, requests[1..], threw)
    ensures AllWell(a, c, requests, threw)
  {
    KeptTwice(a, b, c);
    hide Kept, PushWell;
    if |requests| == 1 && requests[0].Push? && requests[0].chunk != [] && !a.ended && a.sync {
      PushedAtOnce(a, b, requests[0].chunk, false);
    }
  }

  /** What `push` of a chunk does. */
  ghost predicate PushWell(a: View, b: View, chunk: seq<Byte>, threw: bool) {
    && Kept(a, b)
    && (a.ended || chunk == [] ==>
          !threw
          && b == if chunk != [] then a
                  else a.(reading := false, readingMore := true,
                          tasks := a.tasks + if a.readingMore then [] else [ReadMoreTask]))
    && Rises(a, b, threw)
    && (!a.ended && chunk != [] ==> AddWell(a.(reading := false), b, chunk, threw))
    && (a.sync ==> !threw && b.sync && b.length >= a.length)
  }

  /** A chunk is emitted at once, or buffered. */
  ghost predicate AddWell(a: View, b: View, chunk: seq<Byte>, threw: bool) {
    && Kept(a, b) && Rises(a, b, threw)
    && if a.flowing == Some(true) && a.length == 0 && !a.sync
       then PassedWell(a, b, chunk, threw) && (!threw ==> b.readingMore)
       else
         && !threw && Stored(a, b, chunk)
         // a listener that waits is told, and more is asked for
         && b.emittedReadable == (a.emittedReadable || a.needReadable) && !b.needReadable && b.readingMore
         && b.endEmitted == a.endEmitted
         && b.tasks == a.tasks + (if a.needReadable && !a.emittedReadable then [EmitReadableTask] else [])
                               + (if a.readingMore then [] else [ReadMoreTask])
  }

  /** A chunk is emitted at once: a listener is called. */
  ghost predicate PassedWell(a: View, b: View, chunk: seq<Byte>, threw: bool) {
    && Kept(a, b) && Rises(a, b, threw)
    && a.pushed + chunk <= b.pushed && a.delivered + chunk <= b.delivered
    && (a.script != [] ==> b.UserCode() < a.UserCode())
    && (b.UserCode() == a.UserCode() ==>
          !threw && b == a.(pushed := a.pushed + chunk, delivered := a.delivered + chunk, tasks := b.tasks,
                            readingMore := b.readingMore))
  }

  lemma PushedNothing(a: View, b: View, c: View, chunk: seq<Byte>)
    requires if chunk == [] then b == a.(reading := false) && More(b, c) else a.ended && a == c
    ensures PushWell(a, c, chunk, false)
  {
    hide Kept, AddWell;
    KeptFlags(a, c);
  }

  /** More will be read. */
  ghost predicate More(a: View, b: View) {
    b == a.(readingMore := true, tasks := a.tasks + if a.readingMore then [] else [ReadMoreTask])
  }

  lemma PushAdded(a: View, b: View, c: View, chunk: seq<Byte>, threw: bool)
    requires b == a.(reading := false) && !a.ended && chunk != [] && AddWell(b, c, chunk, threw)
    ensures PushWell(a, c, chunk, threw)
  {
    hide Kept;
    KeptFlags(a, b);
    KeptTwice(a, b, c);
  }

  /** A chunk that is buffered. */
  lemma AddStored(a: View, b: View, c: View, d: View, chunk: seq<Byte>)
    requires !(a.flowing == Some(true) && a.length == 0 && !a.sync) && !a.reading && !a.ended
    requires b == a.(length := a.length + |chunk|, chunks := a.chunks + [chunk], pushed := a.pushed + chunk)
    requires c == if b.needReadable
                  then b.(needReadable := false, emittedReadable := true,
                          tasks := b.tasks + if b.emittedReadable then [] else [EmitReadableTask])
                  else b
    requires More(c, d)
    ensures AddWell(a, d, chunk, false)
  {
    hide NeverReads;
  }

  lemma AddPassed(a: View, b: View, c: View, chunk: seq<Byte>, threw: bool)
    requires a.flowing == Some(true) && a.length == 0 && !a.sync && !a.ended
    requires PassedWell(a, b, chunk, threw) && if threw then b == c else More(b, c)
    ensures AddWell(a, c, chunk, threw)
  {
    hide Kept;
    if !threw {
      KeptFlags(b, c);
      KeptTwice(a, b, c);
    }
    LessUserCode(a, b);
    LongerKept(b, c);
  }

  lemma LongerKept(a: View, b: View)
    requires a == b || More(a, b)
    ensures b.pushed == a.pushed && b.delivered == a.delivered && b.UserCode() == a.UserCode() && b.raised == a.raised
    ensures b == a.(tasks := b.tasks, readingMore := b.readingMore)
  {
  }

  lemma PassedOn(a: View, b: View, c: View, chunk: seq<Byte>, threw: bool)
    requires a.flowing == Some(true) && a.length == 0 && !a.sync && !a.ended
    requires b == a.(pushed := a.pushed + chunk, delivered := a.delivered + chunk) && ListenWell(b, c, threw)
    ensures PassedWell(a, c, chunk, threw)
  {
    hide NeverReads;
  }

  /** What `push(null)` does. */
  ghost predicate EndWell(a: View, b: View, threw: bool) {
    && Kept(a, b) && Rises(a, b, threw) && b.ended && (a.sync ==> !threw && b.sync && b.length == a.length)
    && (a.ended ==> !threw && b == a.(reading := false))
    // it is announced, now or later
    && (!a.ended && a.sync ==>
          b == a.EndMarked().(needReadable := false, emittedReadable := true,
                              tasks := a.tasks + if a.emittedReadable then [] else [EmitReadableTask]))
    && (!a.ended && !a.sync ==> EmitEndWell(a.EndMarked(), b, threw))
  }

  /** The end is announced, unless that is to happen anyway. */
  ghost predicate EmitEndWell(a: View, b: View, threw: bool) {
    if a.emittedReadable then !threw && b == a.(needReadable := false)
    else EmitWell(a.(needReadable := false, emittedReadable := true), b, threw)
  }

  lemma EmitEndKept(a: View, b: View, threw: bool)
    requires EmitEndWell(a, b, threw)
    ensures Kept(a, b) && Rises(a, b, threw)
  {
    hide Kept;
    var c := a.(needReadable := false, emittedReadable := true);
    KeptFlags(a, c);
    if a.emittedReadable {
      KeptFlags(a, b);
    } else {
      KeptTwice(a, c, b);
    }
  }

  /** `push(null)`, with what is done about it. */
  lemma Ending(a: View, b: View, c: View, threw: bool)
    requires b == a.EndMarked()
    requires if a.ended then !threw && c == b
             else if a.sync
             then !threw && c == b.(needReadable := false, emittedReadable := true,
                                    tasks := b.tasks + if b.emittedReadable then [] else [EmitReadableTask])
             else EmitEndWell(b, c, threw)
    ensures EndWell(a, c, threw)
  {
    hide Kept, EmitEndWell;
    KeptEnd(a, b);
    if a.ended || a.sync {
      KeptFlags(b, c);
    } else {
      EmitEndKept(b, c, threw);
    }
    KeptTwice(a, b, c);
    LessUserCode(b, c);
  }

  lemma KeptEnd(a: View, b: View)
    requires b == a.EndMarked()
    ensures Kept(a, b)
  {
  }

  ghost predicate ListenWell(a: View, b: View, threw: bool) {
    && Kept(a, b) && Rises(a, b, threw) && (a.script != [] ==> b.UserCode() < a.UserCode())
    && (a.script == [] || b.UserCode() == a.UserCode() ==> !threw && a == b)
  }

  /** A `readable` event, if there is something to read or nothing more to come. */
  ghost predicate AnnounceWell(a: View, b: View, threw: bool) {
    var due := a.length != 0 || a.ended;
    && Kept(a, b) && (due ==> b.announced > a.announced) && (due && !threw ==> !b.emittedReadable)
    && Rises(a, b, threw) && (due && a.script != [] ==> b.UserCode() < a.UserCode()) && (a.script == [] ==> !threw)
    && (b.UserCode() == a.UserCode() ==> 
          && !threw && Same(a, b) && b.announced == (a.announced + if due then 1 else 0)
          && b.emittedReadable == (a.emittedReadable && !due) && b.needReadable == a.needReadable)
  }

  lemma Announced(a: View, c: View, d: View, threw: bool)
    requires (a.length != 0 || a.ended) && ListenWell(a.(announced := a.announced + 1), c, threw)
    requires d == if threw then c else c.(emittedReadable := false)
    ensures AnnounceWell(a, d, threw)
  {
    hide Kept;
    var b := a.(announced := a.announced + 1);
    AnnouncedKept(a, b, c, d);
    LessUserCode(b, c);
  }

  lemma AnnouncedKept(a: View, b: View, c: View, d: View)
    requires b == a.(announced := a.announced + 1) && Kept(b, c) && (d == c || d == c.(emittedReadable := false))
    ensures Kept(a, d)
  {
    hide Kept;
    KeptFlags(a, b);
    KeptTwice(a, b, c);
    KeptFlags(c, d);
    KeptTwice(a, c, d);
  }

  lemma NotDue(a: View)
    requires a.length == 0 && !a.ended
    ensures AnnounceWell(a, a, false)
  {
  }

  /** In flowing mode, the buffer is read until it is empty. */
  ghost predicate FlowWell(a: View, b: View, threw: bool) {
    && Kept(a, b)
    && (b.UserCode() == a.UserCode() ==>
          && b.flowing == a.flowing && b.resumeScheduled == a.resumeScheduled
          && if a.flowing == Some(true) then threw || Emptied(a, b) else !threw && a == b)
    && Rises(a, b, threw) && (a.Alone() ==> !threw)
  }

  /** `_read` is not running, and when it was called the flag says so. */
  predicate Attentive(v: View) {
    v.reading ==> !v.sync
  }

  /** Everything was read in flowing mode; after the end, `end` is scheduled; before it, `_read` was called. */
  predicate Emptied(a: View, b: View) {
    && b.length == 0 && b.flowing == a.flowing && b.resumeScheduled == a.resumeScheduled
    && b.ended == a.ended && b.endEmitted == a.endEmitted && !b.emittedReadable
    && (b.ended && !b.endEmitted ==> EndTask in b.tasks)
    && (Attentive(a) ==> Attentive(b) && (b.ended || !b.sync))
  }

  ghost predicate EmitWell(a: View, b: View, threw: bool) {
    EmitHeard(a, b, threw) && EmitPlain(a, b, threw)
  }

  ghost predicate EmitHeard(a: View, b: View, threw: bool) {
    && Kept(a, b) && Rises(a, b, threw) && (a.Alone() ==> !threw)
    && (a.length != 0 || a.ended ==> b.announced > a.announced && (a.script != [] ==> b.UserCode() < a.UserCode()))
  }

  ghost predicate EmitPlain(a: View, b: View, threw: bool) {
    var due := a.length != 0 || a.ended;
    b.UserCode() == a.UserCode() && !threw ==>
      if a.flowing == Some(true) then Emptied(a, b)
      else
        && Same(a, b) && b.announced == (a.announced + if due then 1 else 0)
        && b.emittedReadable == (a.emittedReadable && !due)
        && b.needReadable == (!a.ended && a.length <= a.highWaterMark)
  }

  /** A listener of `readable` threw: user code has run. */
  lemma EmitThrew(a: View, b: View)
    requires AnnounceWell(a, b, true)
    ensures EmitWell(a, b, true)
  {
    hide Kept;
  }

  lemma EmitThenFlow(a: View, b: View, c: View, d: View, threw: bool)
    requires AnnounceWell(a, b, false) && FlowWell(c, d, threw)
    requires c == b.(needReadable := b.flowing != Some(true) && !b.ended && b.length <= b.highWaterMark)
    ensures EmitWell(a, d, threw)
  {
    hide Kept, Emptied, AnnounceWell, FlowWell, EmitHeard, EmitPlain;
    EmitFlowHeard(a, b, c, d, threw);
    EmitFlowPlain(a, b, c, d, threw);
  }

  lemma EmitFlowHeard(a: View, b: View, c: View, d: View, threw: bool)
    requires AnnounceWell(a, b, false) && FlowWell(c, d, threw)
    requires c == b.(needReadable := b.flowing != Some(true) && !b.ended && b.length <= b.highWaterMark)
    ensures EmitHeard(a, d, threw)
  {
    hide Kept, Emptied;
    KeptNeeding(b, c);
    KeptTwice(a, b, c);
    KeptTwice(a, c, d);
    LessUserCode(c, d);
    StaysGrown(a, b);
    StaysGrown(c, d);
    StaysAlone(a, c);
  }

  lemma EmitFlowPlain(a: View, b: View, c: View, d: View, threw: bool)
    requires AnnounceWell(a, b, false) && FlowWell(c, d, threw)
    requires c == b.(needReadable := b.flowing != Some(true) && !b.ended && b.length <= b.highWaterMark)
    ensures EmitPlain(a, d, threw)
  {
    hide Kept;
    LessUserCode(a, b);
    LessUserCode(c, d);
  }

  lemma KeptNeeding(a: View, b: View)
    requires b == a.(needReadable := a.flowing != Some(true) && !a.ended && a.length <= a.highWaterMark)
    ensures Kept(a, b) && b.raised == a.raised
  {
    hide Kept;
    KeptFlags(a, b);
  }

  /** What `endReadableNT` does: `end` is emitted, once. */
  ghost predicate EndsWell(a: View, b: View, threw: bool) {
    && Kept(a, b) && Rises(a, b, threw)
    && (!a.endEmitted && a.length == 0 ==> b.endEmitted && (a.script != [] ==> b.UserCode() < a.UserCode()))
    && (b.UserCode() == a.UserCode() ==>
          !threw && b == if !a.endEmitted && a.length == 0 then a.(endEmitted := true) else a)
  }

  /** What `maybeReadMore_` does. */
  ghost predicate MoreWell(a: View, b: View, threw: bool) {
    && Kept(a, b) && Rises(a, b, threw) && (!threw ==> !b.readingMore)
    && (b.UserCode() == a.UserCode() ==> !threw && Calm(a, b))
    && (!a.reading && !a.ended && (a.length < a.highWaterMark || (a.flowing == Some(true) && a.length == 0)) ==>
          b.asked > a.asked)
  }

  /** What `resume_` does: a listener is called, and the stream flows if it is to. */
  ghost predicate RestartWell(a: View, b: View, threw: bool) {
    && Kept(a, b) && Rises(a, b, threw) && (a.Alone() ==> !threw) && (a.script != [] ==> b.UserCode() < a.UserCode())
    && (b.UserCode() == a.UserCode() && !threw ==>
          if a.flowing == Some(true) then Emptied(a.(resumeScheduled := false), b)
          else b == a.(resumeScheduled := false))
  }

  ghost predicate ResumesWell(a: View, b: View, threw: bool) {
    ResumesKept(a, b, threw) && ResumesPlain(a, b, threw)
  }

  ghost predicate ResumesKept(a: View, b: View, threw: bool) {
    && Kept(a, b) && Rises(a, b, threw) && (a.Alone() ==> !threw)
    && (!threw && a.script != [] ==> b.UserCode() < a.UserCode())
    && (!a.reading && !a.ended && (a.length < a.highWaterMark || a.length == 0) ==> b.asked > a.asked)
  }

  ghost predicate ResumesPlain(a: View, b: View, threw: bool) {
    b.UserCode() == a.UserCode() && !threw ==>
      && !b.resumeScheduled && b.flowing == a.flowing
      && if a.flowing == Some(true) then Rested(a, b) else Calm(a.(resumeScheduled := false), b)
  }

  /** Everything was read, and `end` is scheduled when there is no more to come. */
  predicate Rested(a: View, b: View) {
    && b.length == 0 && b.ended == a.ended && b.endEmitted == a.endEmitted
    && (b.emittedReadable ==> EmitReadableTask in b.tasks && b.ended)
    && (b.ended && !b.endEmitted ==> EndTask in b.tasks)
    && (Attentive(a) ==> Attentive(b) && (b.sync ==> b.ended))
  }

  /** What `updateReadableListening` does. */
  ghost predicate UpdateWell(a: View, b: View) {
    a == b || (a.resumeScheduled && b == a.(flowing := Some(true))) || ResumeWell(a, b)
  }

  /** What a task does, once it is taken out. */
  ghost predicate TaskWell(a: View, b: View, task: Task, threw: bool) {
    match task
    case EmitReadableTask => EmitWell(a, b, threw)
    case ReadMoreTask => MoreWell(a, b, threw)
    case EndTask => EndsWell(a, b, threw)
    case ResumeTask => ResumesWell(a, b, threw)
    case ReadZeroTask => ZeroWell(a, b, threw) && ReadDone(a, b, Some(0), threw)
    case ListeningTask(_, _) => !threw && UpdateWell(a, b)
  }

  lemma TaskKept(a: View, b: View, task: Task, threw: bool)
    requires TaskWell(a, b, task, threw)
    ensures Kept(a, b) && Rises(a, b, threw)
  {
    hide Kept, EmitPlain, Calm, Rested, ReadDone;
    if task.ListeningTask? {
      KeptUpdate(a, b);
    }
  }

  lemma KeptUpdate(a: View, b: View)
    requires UpdateWell(a, b)
    ensures Kept(a, b) && b.raised == a.raised
  {
    hide Kept, ResumeWell;
    if ResumeWell(a, b) {
      KeptResume(a, b);
    } else {
      KeptFlags(a, b);
    }
  }

  /** What holds during `maybeReadMore_`: `read(0)` is made again only if it changed the length. */
  ghost predicate MoreLoop(a: View, b: View, more: bool) {
    && Kept(a, b) && b.raised == a.raised && (b.UserCode() == a.UserCode() ==> Calm(a, b))
    && (b.asked > a.asked || (more && a == b))
  }

  lemma MoreStarts(a: View)
    ensures MoreLoop(a, a, true)
  {
  }

  lemma MoreTurn(a: View, b: View, c: View, threw: bool)
    requires MoreLoop(a, b, true) && ZeroWell(b, c, threw) && c.asked > b.asked
    ensures if threw then MoreWell(a, c, true) else MoreLoop(a, c, false) && MoreLoop(a, c, true)
    ensures c.UserCode() <= b.UserCode() && (c.UserCode() == b.UserCode() ==> c.length == b.length)
  {
    hide Kept;
    KeptTwice(a, b, c);
    LessUserCode(a, b);
    LessUserCode(b, c);
    StaysGrown(b, c);
  }

  lemma MoreEnds(a: View, b: View, c: View, more: bool)
    requires MoreLoop(a, b, more) && c == b.(readingMore := false)
    requires more ==> b.reading || b.ended ||
                      !(b.length < b.highWaterMark || (b.flowing == Some(true) && b.length == 0))
    ensures MoreWell(a, c, false)
  {
    hide Kept;
    KeptStopped(b, c);
    KeptTwice(a, b, c);
  }

  /** Once it was emitted, it stays so. */
  lemma StillEnded(a: View, b: View, threw: bool)
    requires ListenWell(a, b, threw) && a.endEmitted
    ensures b.endEmitted
  {
    hide NeverReads;
  }

  lemma Emitted(a: View, b: View, c: View, threw: bool)
    requires if !a.endEmitted && a.length == 0 then b == a.(endEmitted := true) && ListenWell(b, c, threw)
             else c == a && !threw
    ensures EndsWell(a, c, threw)
  {
    hide Kept;
    KeptFlags(a, a);
    if !a.endEmitted && a.length == 0 {
      EndKept(a, b);
      KeptTwice(a, b, c);
      LessUserCode(b, c);
    }
  }

  /** `b` is the state once the listener was called, and `c` once the stream has flowed. */
  lemma Restarted(a: View, b: View, c: View, threw: bool)
    requires ListenWell(a.(resumeScheduled := false), b, false) && FlowWell(b, c, threw)
    ensures RestartWell(a, c, threw)
  {
    hide Kept, Emptied;
    var r := a.(resumeScheduled := false);
    KeptFlags(a, r);
    KeptTwice(a, r, b);
    KeptTwice(a, b, c);
    LessUserCode(r, b);
    LessUserCode(b, c);
    StaysGrown(r, b);
    StaysGrown(b, c);
    StaysAlone(a, b);
  }

  lemma RestartThrew(a: View, b: View)
    requires ListenWell(a.(resumeScheduled := false), b, true)
    ensures RestartWell(a, b, true)
  {
    hide Kept, Emptied;
    var r := a.(resumeScheduled := false);
    KeptFlags(a, r);
    KeptTwice(a, r, b);
  }

  /** `resume_` calls `read(0)` before and after. */
  lemma ResumedAll(a: View, b: View, c: View, d: View, threw: bool)
    requires ZeroWell(a, b, false) && RestartWell(b, c, false) && ZeroWell(c, d, threw)
    requires !a.reading && !a.ended && (a.length < a.highWaterMark || a.length == 0) ==> b.asked > a.asked
    ensures ResumesWell(a, d, threw)
  {
    hide ZeroWell, RestartWell, ResumesKept, ResumesPlain;
    ResumedKept(a, b, c, d, threw);
    ResumedPlain(a, b, c, d, threw);
  }

  lemma ResumedKept(a: View, b: View, c: View, d: View, threw: bool)
    requires ZeroWell(a, b, false) && RestartWell(b, c, false) && ZeroWell(c, d, threw)
    requires !a.reading && !a.ended && (a.length < a.highWaterMark || a.length == 0) ==> b.asked > a.asked
    ensures ResumesKept(a, d, threw)
  {
    hide Kept, Emptied, Attentive;
    KeptTwice(a, b, c);
    KeptTwice(a, c, d);
    LessUserCode(a, b);
    LessUserCode(b, c);
    LessUserCode(c, d);
    StaysGrown(a, b);
    StaysGrown(b, c);
    StaysGrown(c, d);
    StaysAlone(a, b);
    StaysAlone(b, c);
  }

  lemma ResumedPlain(a: View, b: View, c: View, d: View, threw: bool)
    requires ZeroWell(a, b, false) && RestartWell(b, c, false) && ZeroWell(c, d, threw)
    ensures ResumesPlain(a, d, threw)
  {
    hide Kept;
    LessUserCode(a, b);
    LessUserCode(b, c);
    LessUserCode(c, d);
  }

  lemma ResumedHalf(a: View, b: View, c: View)
    requires ZeroWell(a, b, false) && RestartWell(b, c, true)
    requires !a.reading && !a.ended && (a.length < a.highWaterMark || a.length == 0) ==> b.asked > a.asked
    ensures ResumesWell(a, c, true)
  {
    hide Kept, Calm, Emptied;
    KeptTwice(a, b, c);
    LessUserCode(b, c);
    StaysGrown(a, b);
    StaysAlone(a, b);
  }

  lemma ResumedNot(a: View, b: View)
    requires ZeroWell(a, b, true)
    requires !a.reading && !a.ended && (a.length < a.highWaterMark || a.length == 0) ==> b.asked > a.asked
    ensures ResumesWell(a, b, true)
  {
    hide Kept, Calm;
    LessUserCode(a, b);
  }

  /** The same, except that a task was taken out first. */
  ghost predicate Ticked(a: View, b: View) {
    exists t: seq<Task> :: Kept(a.(tasks := t), b)
  }

  lemma KeptTicked(a: View, b: View)
    requires Kept(a, b)
    ensures Ticked(a, b)
  {
    assert a == a.(tasks := a.tasks);
  }

  lemma TaskTicked(a: View, b: View, threw: bool)
    requires if a.tasks == [] then a == b else TaskWell(a.(tasks := a.tasks[1..]), b, a.tasks[0], threw)
    ensures Ticked(a, b)
  {
    hide Kept, TaskWell;
    if a.tasks == [] {
      KeptFlags(a, b);
      KeptTicked(a, b);
    } else {
      TaskKept(a.(tasks := a.tasks[1..]), b, a.tasks[0], threw);
    }
  }

  lemma StaysTame(a: View, b: View)
    requires Ticked(a, b)
    ensures (a.Tame() ==> b.Tame()) && (a.ended ==> b.ended)
  {
    hide NeverReads;
  }

  lemma PerformKept(a: View, b: View, request: Request, threw: bool)
    requires PerformWell(a, b, request, threw)
    ensures Kept(a, b) && (request.PushEnd? ==> b.ended)
  {
    hide Kept, ReadDone, PauseWell, PushWell, Stolen, FellShort, SwitchWell;
  }

  lemma LessUserCode(a: View, b: View)
    requires Kept(a, b)
    ensures b.UserCode() <= a.UserCode() && b.announced >= a.announced && b.asked >= a.asked
    ensures (a.ended ==> b.ended) && (a.endEmitted ==> b.endEmitted)
  {
  }

  lemma FlowStarts(a: View)
    ensures FlowLoop(a, a, true)
  {
  }

  lemma FlowEnds(a: View, b: View, more: bool)
    requires FlowLoop(a, b, more) && !(b.flowing == Some(true) && more)
    ensures FlowWell(a, b, false)
  {
    hide Kept;
  }

  lemma FlowMore(a: View, b: View, c: View, r: Outcome)
    requires FlowLoop(a, b, true) && b.flowing == Some(true) && ReadWell(b, c, None, r)
    requires b.chunks != [] ==> |b.chunks[0]| > 0
    requires b.Alone() ==> !r.Threw?
    ensures if r.Threw? then FlowWell(a, c, true) else FlowLoop(a, c, r.Bytes?)
    ensures c.UserCode() <= b.UserCode()
    ensures c.UserCode() == b.UserCode() && r.Bytes? ==> |B.Flatten(c.chunks)| < |B.Flatten(b.chunks)|
  {
    hide Kept, Given, Left, B.Flatten;
    KeptTwice(a, b, c);
    LessUserCode(a, b);
    LessUserCode(b, c);
    StaysAlone(a, b);
    StaysGrown(b, c);
    GivenKinds(b.chunks, b.length, b.Asks(None));
  }

  /** What holds during `flow`. */
  ghost predicate FlowLoop(a: View, b: View, more: bool) {
    && Kept(a, b) && b.raised == a.raised
    && (b.UserCode() == a.UserCode() ==>
          && b.flowing == a.flowing && b.resumeScheduled == a.resumeScheduled
          && b.ended == a.ended && b.endEmitted == a.endEmitted
          && (Attentive(a) ==> Attentive(b)) && (more || Emptied(a, b))
          && (a.flowing != Some(true) ==> a == b))
  }

  /** Nothing that is scheduled, or under way, is lost. */
  predicate Calm(a: View, b: View) {
    && b.length == a.length && b.flowing == a.flowing && b.resumeScheduled == a.resumeScheduled
    && b.ended == a.ended && b.endEmitted == a.endEmitted && a.tasks <= b.tasks && b.script == a.script
    && (b.emittedReadable ==> a.emittedReadable || (EmitReadableTask in b.tasks && (b.length != 0 || b.ended)))
    && (Attentive(a) ==> Attentive(b)) && (b.sync ==> a.sync)
  }

  /** `read(0)`, if it is made. */
  ghost predicate ZeroWell(a: View, b: View, threw: bool) {
    && Kept(a, b) && Rises(a, b, threw)
    && (b.UserCode() == a.UserCode() ==> !threw && Calm(a, b))
  }

  lemma EndKept(a: View, b: View)
    requires b == a.(endEmitted := true)
    ensures Kept(a, b)
  {
  }

  lemma Popped(a: View, b: View, c: View, requests: seq<Request>, threw: bool)
    requires a.script != [] && b == a.(script := a.script[1..]) && AllWell(b, c, requests, threw)
    ensures ListenWell(a, c, threw)
  {
    hide NeverReads;
  }

  lemma PoppedSource(a: View, b: View, c: View, threw: bool)
    requires a.sources != [] && b == a.(sources := a.sources[1..]) && AllWell(b, c, a.sources[0], threw) && a.sync
    ensures SourceWell(a, c, threw)
  {
    PoppedKept(a, b, c, threw);
    hide NeverReads, AllHarmless, Kept;
  }

  lemma PoppedKept(a: View, b: View, c: View, threw: bool)
    requires a.sources != [] && b == a.(sources := a.sources[1..]) && AllWell(b, c, a.sources[0], threw) && a.sync
    ensures Kept(a, c) && (a.Tame() ==> c.length >= a.length) && c.UserCode() < a.UserCode()
  {
    if NeverReads(a.sources) {
      FirstNeverReads(a.sources);
    }
    hide NeverReads, AllHarmless, Brought, Stolen, Stored;
  }

  lemma Pausing(a: View, b: View, c: View, threw: bool)
    requires b == a.(flowing := Some(false))
    requires if a.flowing != Some(false) then ListenWell(b, c, threw) else b == c && !threw
    ensures PauseWell(a, c, threw)
  {
    hide Kept;
    KeptPaused(a, b);
    if a.flowing != Some(false) {
      KeptTwice(a, b, c);
      LessUserCode(b, c);
    }
  }

  lemma KeptPaused(a: View, b: View)
    requires b == a.(flowing := Some(false))
    ensures Kept(a, b) && b.raised == a.raised
  {
    hide Kept;
    KeptFlags(a, b);
  }

  lemma PerformedPush(a: View, b: View, chunk: seq<Byte>, threw: bool)
    requires PushWell(a, b, chunk, threw)
    ensures PerformWell(a, b, Push(chunk), threw)
  {
    hide Kept, AddWell;
  }

  lemma PerformedRead(a: View, b: View, n: Option<int>, r: Outcome)
    requires ReadWell(a, b, n, r)
    ensures PerformWell(a, b, Read(n), r.Threw?)
  {
    hide Kept, Plain;
  }

  lemma PerformedEnd(a: View, b: View, threw: bool)
    requires EndWell(a, b, threw)
    ensures PerformWell(a, b, PushEnd, threw)
  {
    hide Kept;
  }

  lemma PerformedPause(a: View, b: View, threw: bool)
    requires PauseWell(a, b, threw)
    ensures PerformWell(a, b, Pause, threw)
  {
    hide Kept;
  }

  lemma PerformedThrow(a: View, b: View)
    requires b == a.(raised := a.raised + 1)
    ensures PerformWell(a, b, Throw, true)
  {
  }

  lemma PerformedSwitch(a: View, b: View, request: Request)
    requires request.Resume? || request.OnReadable? || request.OnData? || request.RemoveReadable?
    requires SwitchWell(a, b, request)
    ensures PerformWell(a, b, request, false)
  {
    hide Kept, SwitchWell;
    KeptSwitch(a, b, request);
  }

  lemma KeptSwitch(a: View, b: View, request: Request)
    requires request.Resume? || request.OnReadable? || request.OnData? || request.RemoveReadable?
    requires SwitchWell(a, b, request)
    ensures Kept(a, b) && b.sync == a.sync && b.length == a.length && b.raised == a.raised
  {
    hide Kept, ResumeWell, ListensWell;
    if request.RemoveReadable? || a == b {
      KeptFlags(a, b);
    } else if request.OnReadable? {
      KeptListens(a, b);
    } else {
      KeptResume(a, b);
    }
  }

  lemma KeptListens(a: View, b: View)
    requires ListensWell(a, b)
    ensures Kept(a, b) && b.sync == a.sync && b.length == a.length && b.raised == a.raised
  {
    hide Kept;
    KeptFlags(a, b);
  }

  lemma KeptResume(a: View, b: View)
    requires ResumeWell(a, b)
    ensures Kept(a, b) && b.sync == a.sync && b.length == a.length && b.raised == a.raised
  {
    hide Kept;
    if a.flowing == Some(true) {
      KeptFlags(a, a);
    } else {
      KeptFlags(a, b);
    }
  }

  lemma ReadZero(a: View, b: View, r: Outcome)
    requires ReadWell(a, b, Some(0), r)
    ensures ZeroWell(a, b, r.Threw?)
    ensures !a.reading && !a.ended && (a.length < a.highWaterMark || a.length == 0) ==> b.asked > a.asked
  {
    GivenKinds(a.chunks, a.length, 0);
    hide Kept, Given, Left, B.Flatten;
  }

  // What runs without user code keep: nothing waits that is not scheduled.

  /**
    * A `readable` event that is due is scheduled, and so is the resumption of the stream. A stream that flows has
    * nothing left, and after the end it has scheduled the `end` event, or the event that leads to it.
    */
  ghost predicate Lively(v: View) {
    LivelyBut(v, None)
  }

  /** The same while a task runs, which was taken out. */
  ghost predicate LivelyBut(v: View, task: Option<Task>) {
    && v.Alone() && Attentive(v)
    && (v.resumeScheduled ==> ResumeTask in v.tasks || task == Some(ResumeTask))
    && (v.emittedReadable ==>
          (v.length != 0 || v.ended) && (EmitReadableTask in v.tasks || task == Some(EmitReadableTask)))
    && (v.flowing == Some(true) && !v.resumeScheduled ==>
          && v.length == 0 && (v.sync ==> v.ended)
          && (v.ended && !v.endEmitted ==>
                || EndTask in v.tasks || EmitReadableTask in v.tasks
                || task == Some(EndTask) || task == Some(EmitReadableTask)))
  }

  lemma LivelyStart(v: View)
    requires !v.reading && !v.resumeScheduled && !v.emittedReadable && v.flowing == None && !v.short
    ensures v.UserCode() == 0 ==> Lively(v)
  {
  }

  lemma LivelyPopped(a: View, b: View, task: Task)
    requires Lively(a) && a.tasks != [] && task == a.tasks[0] && b == a.(tasks := a.tasks[1..])
    ensures LivelyBut(b, Some(task))
  {
    assert a.tasks == [task] + b.tasks;
  }

  lemma TasksStay(a: View, b: View)
    requires Kept(a, b)
    ensures forall t :: t in a.tasks ==> t in b.tasks
  {
    hide NeverReads;
  }

  lemma LivelyRead(a: View, b: View, n: Option<int>, r: Outcome)
    requires Lively(a) && SoundView(a) && ReadWell(a, b, n, r)
    ensures Lively(b)
  {
    hide Kept, Given, Left, B.Flatten, SoundView, Answers, Marks, FellShort, Stolen, Mark, View.Calls;
    TasksStay(a, b);
    StaysAlone(a, b);
    HasHead(a, n);
    ReadMeans(a, b, n, r);
    NotThrown(B.Flatten(a.chunks), FirstChunk(a.chunks), n, a.flowing == Some(true), a.ended, r, B.Flatten(b.chunks));
    GivenKinds(a.chunks, a.length, a.Asks(n));
  }

  lemma LivelyPush(a: View, b: View, chunk: seq<Byte>, threw: bool)
    requires Lively(a) && SoundView(a) && PushWell(a, b, chunk, threw)
    ensures Lively(b)
  {
    hide Kept, SoundView, AddWell, LivelyBut;
    LivelyAlone(a);
    SoundLength(a);
    if a.ended || chunk == [] {
      LivelyNotPushed(a, b);
    } else {
      LivelyUnread(a);
      LivelyAdd(a.(reading := false), b, chunk, threw);
    }
  }

  lemma LivelyAlone(a: View)
    requires Lively(a)
    ensures !a.short && a.UserCode() == 0
  {
  }

  lemma LivelyUnread(a: View)
    requires Lively(a)
    ensures Lively(a.(reading := false))
  {
  }

  lemma LivelyNotPushed(a: View, b: View)
    requires Lively(a)
    requires a == b || b == a.(reading := false, readingMore := true,
                               tasks := a.tasks + if a.readingMore then [] else [ReadMoreTask])
    ensures Lively(b)
  {
    hide Kept;
    KeptFlags(a, b);
    TasksStay(a, b);
  }

  lemma LivelyAdd(a: View, b: View, chunk: seq<Byte>, threw: bool)
    requires Lively(a) && a.length >= 0 && !a.ended && chunk != [] && AddWell(a, b, chunk, threw)
    ensures Lively(b)
  {
    hide Kept;
    TasksStay(a, b);
    StaysAlone(a, b);
  }

  lemma LivelyEmit(a: View, b: View, task: Option<Task>, threw: bool)
    requires LivelyBut(a, task) && (task == None || task == Some(EmitReadableTask)) && EmitWell(a, b, threw)
    ensures Lively(b)
  {
    hide Kept;
    TasksStay(a, b);
    StaysAlone(a, b);
  }

  lemma LivelyPushEnd(a: View, b: View, threw: bool)
    requires Lively(a) && EndWell(a, b, threw)
    ensures Lively(b)
  {
    hide Kept, EmitHeard, EmitPlain;
    TasksStay(a, b);
    StaysAlone(a, b);
    if !a.ended && !a.sync && !a.emittedReadable {
      LivelyEmit(a.EndMarked().(needReadable := false, emittedReadable := true), b, Some(EmitReadableTask), threw);
    }
  }

  lemma LivelySwitch(a: View, b: View, request: Request)
    requires request.Resume? || request.OnReadable? || request.OnData? || request.RemoveReadable?
    requires Lively(a) && SwitchWell(a, b, request)
    ensures Lively(b)
  {
    hide ResumeWell, ListensWell, LivelyBut;
    match request {
      case Resume => LivelyResumed(a, b, None);
      case OnData(_) =>
        if a.flowing != Some(false) {
          LivelyResumed(a, b, None);
        }
      case OnReadable => LivelyListens(a, b);
      case RemoveReadable(_, _) => LivelyLater(a, b);
    }
  }

  lemma LivelyResumed(a: View, b: View, task: Option<Task>)
    requires LivelyBut(a, task) && (task.Some? ==> task.value.ListeningTask?) && ResumeWell(a, b)
    ensures Lively(b)
  {
    hide Kept;
    KeptResume(a, b);
    TasksStay(a, b);
  }

  lemma LivelyListens(a: View, b: View)
    requires Lively(a) && ListensWell(a, b)
    ensures Lively(b)
  {
    hide Kept;
    KeptListens(a, b);
    TasksStay(a, b);
  }

  lemma LivelyLater(a: View, b: View)
    requires Lively(a) && a.tasks <= b.tasks && b == a.(tasks := b.tasks)
    ensures Lively(b)
  {
    hide Kept;
    KeptFlags(a, b);
    TasksStay(a, b);
  }

  lemma LivelyPause(a: View, b: View, threw: bool)
    requires Lively(a) && PauseWell(a, b, threw)
    ensures Lively(b)
  {
    hide Kept;
    StaysAlone(a, b);
  }

  lemma LivelyPerform(a: View, b: View, request: Request, threw: bool)
    requires Lively(a) && SoundView(a) && PerformWell(a, b, request, threw)
    ensures Lively(b)
  {
    hide Kept, SoundView, ReadWell, PushWell, EndWell, PauseWell, SwitchWell, Stolen, FellShort, LivelyBut;
    match request {
      case Push(chunk) => LivelyPush(a, b, chunk, threw);
      case PushEnd => LivelyPushEnd(a, b, threw);
      case Read(n) =>
        var r :| ReadWell(a, b, n, r) && threw == r.Threw?;
        LivelyRead(a, b, n, r);
      case Pause => LivelyPause(a, b, threw);
      case Throw => LivelyThrow(a, b);
      case _ => LivelySwitch(a, b, request);
    }
  }

  lemma LivelyThrow(a: View, b: View)
    requires Lively(a) && b == a.(raised := a.raised + 1)
    ensures Lively(b)
  {
  }

  lemma LivelyCalm(a: View, b: View, task: Task)
    requires LivelyBut(a, Some(task)) && (task.ReadMoreTask? || task.ReadZeroTask?) && Kept(a, b) && Calm(a, b)
    ensures Lively(b)
  {
    hide Kept;
    TasksStay(a, b);
    StaysAlone(a, b);
  }

  lemma LivelyEnd(a: View, b: View, threw: bool)
    requires LivelyBut(a, Some(EndTask)) && EndsWell(a, b, threw)
    ensures Lively(b)
  {
    hide Kept;
    StaysAlone(a, b);
  }

  lemma LivelyResume(a: View, b: View, threw: bool)
    requires LivelyBut(a, Some(ResumeTask)) && ResumesWell(a, b, threw)
    ensures Lively(b)
  {
    hide Kept;
    TasksStay(a, b);
    StaysAlone(a, b);
  }

  lemma LivelyUpdate(a: View, b: View, task: Task)
    requires LivelyBut(a, Some(task)) && task.ListeningTask? && UpdateWell(a, b)
    ensures Lively(b)
  {
    hide ResumeWell, LivelyBut;
    if ResumeWell(a, b) {
      LivelyResumed(a, b, Some(task));
    } else {
      LivelyFlows(a, b, task);
    }
  }

  lemma LivelyFlows(a: View, b: View, task: Task)
    requires LivelyBut(a, Some(task)) && task.ListeningTask?
    requires a == b || (a.resumeScheduled && b == a.(flowing := Some(true)))
    ensures Lively(b)
  {
    assert b.tasks == a.tasks && b.resumeScheduled == a.resumeScheduled && b.reading == a.reading && b.sync == a.sync;
  }

  lemma LivelyTask(a: View, b: View, task: Task, threw: bool)
    requires LivelyBut(a, Some(task)) && TaskWell(a, b, task, threw)
    ensures Lively(b)
  {
    hide EmitWell, EndsWell, ResumesWell, UpdateWell, ReadDone, LivelyBut;
    match task {
      case EmitReadableTask => LivelyEmit(a, b, Some(task), threw);
      case EndTask => LivelyEnd(a, b, threw);
      case ResumeTask => LivelyResume(a, b, threw);
      case ListeningTask(_, _) => LivelyUpdate(a, b, task);
      case _ =>
        CalmAlone(a, b, task, threw);
        LivelyCalm(a, b, task);
    }
  }

  lemma CalmAlone(a: View, b: View, task: Task, threw: bool)
    requires LivelyBut(a, Some(task)) && (task.ReadMoreTask? || task.ReadZeroTask?) && TaskWell(a, b, task, threw)
    ensures Kept(a, b) && Calm(a, b)
  {
    hide Kept, Calm, ReadDone;
    StaysAlone(a, b);
  }

  lemma LivelyTick(a: View, b: View, threw: bool)
    requires Lively(a)
    requires if a.tasks == [] then a == b else TaskWell(a.(tasks := a.tasks[1..]), b, a.tasks[0], threw)
    ensures Lively(b)
  {
    hide TaskWell, LivelyBut;
    if a.tasks != [] {
      LivelyPopped(a, a.(tasks := a.tasks[1..]), a.tasks[0]);
      LivelyTask(a.(tasks := a.tasks[1..]), b, a.tasks[0], threw);
    }
  }

  /** When all tasks have run, a stream that flows has delivered everything, and emitted `end` if it was ended. */
  lemma LivelyDelivers(v: View)
    requires Lively(v) && SoundView(v) && v.tasks == []
    ensures !v.emittedReadable && !v.resumeScheduled
    ensures v.flowing == Some(true) ==> v.delivered == v.pushed && (v.ended ==> v.endEmitted)
  {
    hide B.Flatten, B.Full;
    if v.flowing == Some(true) {
      assert v.delivered + [] == v.delivered;
    }
  }
}
