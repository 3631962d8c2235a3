/**
  * The readable stream in byte mode, fed by `push`. Listeners and `_read` are user code, which may call back
  * into the stream at any time, and may throw: the n-th call of a listener does what the n-th entry of a script
  * says. A call that throws ends the code that made it.
  */
module ReadableStream {
  import opened Prelude
  import opened ReadableView
  import B = BufferList

  class Readable {
    const buffer: B.BufferList
    /** Not always the number of bytes in the buffer: see `Take`. */
    var length: int
    var highWaterMark: nat
    var flowing: Option<bool>
    var ended: bool
    var endEmitted: bool
    var reading: bool
    var sync: bool
    var needReadable: bool
    var emittedReadable: bool
    var readableListening: bool
    var resumeScheduled: bool
    var paused: bool
    var readingMore: bool
    var tasks: seq<Task>
    /** What the next calls of the listeners, and of `_read`, do. */
    var script: seq<seq<Request>>
    var sources: seq<seq<Request>>

    /** The bytes given to `push` and accepted, the bytes emitted. */
    ghost var pushed: seq<Byte>
    ghost var delivered: seq<Byte>
    /** The numbers of `end` events, of `readable` events and of calls of `_read`. */
    ghost var ends: nat
    ghost var announced: nat
    ghost var asked: nat
    /** Some read was short: it took more than the stream thought that it had. */
    ghost var short: bool
    /** Some read was made in a state in which it could be short: see `Risky`. */
    ghost var risked: bool
    /** The number of times that user code, or the stream itself, threw. */
    ghost var raised: nat

    /** What is left of both scripts. */
    function UserCode(): nat
      reads this`script, this`sources
    {
      |script| + |sources|
    }

    ghost predicate Valid()
      reads this, buffer, buffer.spine
    {
      && buffer.Valid() && Sound(buffer.Chunks(), length, delivered, pushed, short) && (short ==> risked)
      && ends == (if endEmitted then 1 else 0)
      && (endEmitted ==> ended && length == 0) && (EndTask in tasks ==> ended)
    }

    /** What the contracts speak of. */
    ghost function Now(): View
      reads this, buffer, buffer.spine
    {
      View(buffer.Chunks(), length, highWaterMark, flowing, ended, endEmitted, reading, sync, needReadable,
           emittedReadable, readingMore, resumeScheduled, tasks, script, sources, pushed, delivered, announced, asked,
           short, risked, raised)
    }

    lemma Fields()
      ensures var v := Now();
              && v.length == length && v.ended == ended && v.flowing == flowing && v.sync == sync && v.short == short
              && v.reading == reading && v.UserCode() == UserCode() && v.risked == risked && v.tasks == tasks
              && v.highWaterMark == highWaterMark && v.asked == asked && v.readingMore == readingMore
              && v.endEmitted == endEmitted && v.emittedReadable == emittedReadable && v.needReadable == needReadable
    {
    }

    lemma IsSound()
      requires Valid()
      ensures SoundView(Now())
    {
      hide Sound;
    }

    lemma AllFields()
      ensures var v := Now();
              && v.chunks == buffer.Chunks() && v.length == length && v.highWaterMark == highWaterMark
              && v.flowing == flowing && v.ended == ended && v.endEmitted == endEmitted && v.reading == reading
              && v.sync == sync && v.needReadable == needReadable && v.emittedReadable == emittedReadable
              && v.readingMore == readingMore && v.resumeScheduled == resumeScheduled && v.tasks == tasks
              && v.script == script && v.sources == sources && v.pushed == pushed && v.delivered == delivered
              && v.announced == announced && v.asked == asked && v.short == short && v.risked == risked
              && v.raised == raised
    {
    }

    constructor (highWaterMark: nat, script: seq<seq<Request>>, sources: seq<seq<Request>>)
      ensures Valid() && pushed == [] && delivered == [] && length == 0 && !ended && !reading && !short && !risked
      ensures this.script == script && this.sources == sources && this.highWaterMark == highWaterMark
      ensures flowing == None && sync && fresh(buffer) && buffer.spine == []
      ensures !endEmitted && !needReadable && !emittedReadable && !readableListening && !resumeScheduled && !readingMore
      ensures paused && tasks == []
    {
      buffer := new B.BufferList();
      length, this.highWaterMark, flowing := 0, highWaterMark, None;
      ended, endEmitted, reading, sync, needReadable, emittedReadable := false, false, false, true, false, false;
      readableListening, resumeScheduled, paused, readingMore := false, false, true, false;
      tasks, this.script, this.sources := [], script, sources;
      pushed, delivered, ends, announced, asked, short, risked, raised := [], [], 0, 0, 0, false, false, 0;
      SoundStart();
    }

    // Steps that run no user code.

    method EmitReadable()
      requires Valid()
      modifies this`needReadable, this`emittedReadable, this`tasks
      ensures Valid() && emittedReadable
      ensures Now() == old(Now()).(needReadable := false, emittedReadable := true,
                                   tasks := old(Now()).tasks + if old(emittedReadable) then [] else [EmitReadableTask])
    {
      hide Sound, B.Flatten, B.BufferList.Chunks, B.BufferList.Contents, B.BufferList.Valid, NeverReads, Given, Left;
      needReadable := false;
      if !emittedReadable {
        emittedReadable := true;
        tasks := tasks + [EmitReadableTask];
      }
    }

    method MaybeReadMore()
      requires Valid()
      modifies this`readingMore, this`tasks
      ensures Valid() && readingMore
      ensures More(old(Now()), Now())
    {
      hide Sound, B.Flatten, B.BufferList.Chunks, B.BufferList.Contents, B.BufferList.Valid, NeverReads, Given, Left;
      if !readingMore {
        readingMore := true;
        tasks := tasks + [ReadMoreTask];
      }
    }

    method EndReadable()
      requires ended
      modifies this`ended, this`tasks
      ensures ended && tasks == old(tasks) + if endEmitted then [] else [EndTask]
    {
      if !endEmitted {
        ended := true;
        tasks := tasks + [EndTask];
      }
    }

    method HowMuchToRead(n: Option<int>) returns (e: int, threw: bool)
      requires Valid()
      modifies this`highWaterMark, this`needReadable, this`raised
      ensures Valid() && threw == Now().NoHead(n) && (!threw ==> e == Now().Asks(n))
      ensures highWaterMark == Mark(n, length, ended, old(highWaterMark)) &&
                raised == old(raised) + if threw then 1 else 0
      ensures needReadable == (old(needReadable) || (n.Some? && n.value > length && n.value > 0 && !ended))
    {
      hide Sound, B.BufferList.Valid, NewHighWaterMark;
      threw := false;
      HeadIs();
      if (n.Some? && n.value <= 0) || (length == 0 && ended) {
        e := 0;
      } else if n.None? {
        e := length;
        if flowing == Some(true) && length != 0 {
          if buffer.head == null {
            threw := true;
            raised := raised + 1;
          } else {
            e := |buffer.head.data|;
          }
        }
      } else {
        if n.value > highWaterMark {
          highWaterMark := NewHighWaterMark(n.value, 1);
        }
        if n.value <= length {
          e := n.value;
        } else if ended {
          e := length;
        } else {
          needReadable := true;
          e := 0;
        }
      }
    }

    /** The same, as what it does to the fields. */
    method SizeUp(n: Option<int>) returns (e: int, threw: bool)
      requires Valid()
      modifies this`highWaterMark, this`needReadable, this`raised
      ensures Valid() && threw == old(Now()).NoHead(n) == Now().NoHead(n) && (!threw ==> e == Now().Asks(n))
      ensures Sized(old(Now()), Now(), n)
    {
      hide Sound, B.BufferList.Valid, B.BufferList.Chunks, Mark, Amount;
      e, threw := HowMuchToRead(n);
    }

    lemma HeadIs()
      requires buffer.Valid()
      ensures buffer.head == null <==> buffer.Chunks() == []
      ensures buffer.head != null ==> buffer.head.data == buffer.Chunks()[0]
    {
    }

    /** As long as no read was short, no more is asked for than there is. A read that returns bytes takes some. */
    lemma Prepare(n: Option<int>)
      requires Valid()
      ensures Ready(Now(), n) && (!Now().short ==> !Now().NoHead(n) && Now().Asks(n) <= Now().length)
    {
      SoundReady(Now(), n);
      SoundAll(Now(), n);
      hide Sound, Ready, Amount;
    }

    /** Take `e` bytes out of the buffer, or all if there are less. */
    method FromList(e: int) returns (r: Outcome)
      requires buffer.Valid() && B.Full(buffer.Chunks()) && length <= |buffer.Contents()| && e > 0
      modifies buffer, buffer.spine
      ensures buffer.Valid() && fresh(set n | n in buffer.spine && n !in old(buffer.spine))
      ensures r == Given(old(buffer.Chunks()), length, e)
      ensures B.Full(buffer.Chunks()) && buffer.Contents() == Left(old(buffer.Chunks()), length, e)
    {
      hide B.Full;
      r := Null;
      if length != 0 {
        var b;
        if e >= length {
          if buffer.length == 1 {
            b := buffer.First();
          } else if buffer.length > 0 && length < 0 {
            // no buffer has that length
            return Threw;
          } else {
            b := buffer.Concat(if length < 0 then 0 else length);
          }
          buffer.Clear();
          FullNone();
        } else {
          b := buffer.Consume(e);
        }
        r := Bytes(b);
      }
    }

    static lemma FullNone()
      ensures B.Full([])
    {
    }

    /**
      * The end of `read`. When `_read` has taken bytes out in the meantime, less than `e` may be left: then, and only
      * then, the read is short, and `length` becomes negative.
      */
    method Take(n: Option<int>, e: int) returns (r: Outcome)
      requires Valid() && (!short && 0 < length < e ==> risked)
      modifies this`length, this`needReadable, this`delivered, this`ended, this`tasks, this`short, this`raised
      modifies buffer, buffer.spine
      ensures Valid() && fresh(set n | n in buffer.spine && n !in old(buffer.spine))
      ensures TakenWell(old(Now()), Now(), n, e, r)
    {
      hide Sound, B.Flatten, B.BufferList.Chunks, B.BufferList.Contents, B.BufferList.Valid, NeverReads, Given, Left;
      hide IsTaken, IsFlagged, TakenOut, TakenWell, Now;
      ghost var start := Now();
      r := TakeFields(n, e);
      IsTakenOut(start, Now(), n, e, r);
      TookWell(start, Now(), n, e, r);
    }

    method TakeFields(n: Option<int>, e: int) returns (r: Outcome)
      requires Valid() && (!short && 0 < length < e ==> risked)
      modifies this`length, this`needReadable, this`delivered, this`ended, this`tasks, this`short, this`raised
      modifies buffer, buffer.spine
      ensures Valid() && fresh(set n | n in buffer.spine && n !in old(buffer.spine))
      ensures IsTaken(old(Now()), Now(), e, r) && IsFlagged(old(Now()), Now(), n, e, r)
    {
      hide Sound, B.Flatten, B.BufferList.Chunks, B.BufferList.Contents, B.BufferList.Valid, NeverReads, Given, Left;
      hide Now, IsTaken, IsFlagged;
      ghost var start := Now();
      AllFields();
      r := TakeOut(n, e);
      IsTakenNow(start, e, r);
      IsFlaggedNow(start, n, e, r);
    }

    lemma IsTakenNow(a: View, e: int, r: Outcome)
      requires r == Given(a.chunks, a.length, e) && B.Flatten(buffer.Chunks()) == Left(a.chunks, a.length, e)
      requires short == (a.short || 0 < a.length < e) && delivered == a.delivered + r.Taken()
      requires length == a.length - (if r.Bytes? then e else 0) && ended == a.ended
      requires !a.short && 0 < a.length <= e ==> buffer.Chunks() == [] && delivered == pushed
      requires flowing == a.flowing && reading == a.reading && resumeScheduled == a.resumeScheduled
      requires script == a.script && sources == a.sources && pushed == a.pushed && announced == a.announced
      ensures IsTaken(a, Now(), e, r)
    {
      hide Sound, B.Flatten, B.BufferList.Chunks, B.BufferList.Contents, B.BufferList.Valid, NeverReads, Given, Left;
    }

    lemma IsFlaggedNow(a: View, n: Option<int>, e: int, r: Outcome)
      requires r.Null? ==> needReadable == (length <= highWaterMark)
      requires !r.Threw? && !ended && length == 0 ==> needReadable
      requires r.Bytes? && ended ==> needReadable == a.needReadable
      requires tasks == a.tasks + if !r.Threw? && ended && !endEmitted && length == 0 &&
                                     n != Some(if r.Bytes? then e else 0) then [EndTask] else []
      requires raised == a.raised + (if r.Threw? then 1 else 0) && ended == a.ended
      requires highWaterMark == a.highWaterMark && endEmitted == a.endEmitted && reading == a.reading && sync == a.sync
      requires emittedReadable == a.emittedReadable && readingMore == a.readingMore && asked == a.asked
      requires risked == a.risked
      ensures IsFlagged(a, Now(), n, e, r)
    {
      hide Sound, B.Flatten, B.BufferList.Chunks, B.BufferList.Contents, B.BufferList.Valid, NeverReads, Given, Left;
    }

    method TakeOut(n: Option<int>, e: int) returns (r: Outcome)
      requires Valid() && (!short && 0 < length < e ==> risked)
      modifies this`length, this`needReadable, this`delivered, this`ended, this`tasks, this`short, this`raised
      modifies buffer, buffer.spine
      ensures Valid() && fresh(set n | n in buffer.spine && n !in old(buffer.spine))
      ensures r == Given(old(buffer.Chunks()), old(length), e)
      ensures B.Flatten(buffer.Chunks()) == Left(old(buffer.Chunks()), old(length), e)
      ensures short == (old(short) || 0 < old(length) < e) && delivered == old(delivered) + r.Taken()
      ensures length == old(length) - (if r.Bytes? then e else 0) && ended == old(ended)
      ensures r.Null? ==> needReadable == (length <= highWaterMark)
      ensures !r.Threw? && !ended && length == 0 ==> needReadable
      ensures r.Bytes? && ended ==> needReadable == old(needReadable)
      ensures tasks == old(tasks) + if !r.Threw? && ended && !endEmitted && length == 0 &&
                                       n != Some(if r.Bytes? then e else 0) then [EndTask] else []
      ensures raised == old(raised) + if r.Threw? then 1 else 0
      ensures !old(short) && 0 < old(length) <= e ==> buffer.Chunks() == [] && delivered == pushed
    {
      hide B.Flatten, B.Full, B.BufferList.Chunks, B.BufferList.Valid, NoneInvented, Sound, Given, Left;
      ghost var chunks := buffer.Chunks();
      r := Draw(e);
      SoundTake(chunks, length, delivered, pushed, short, e, buffer.Chunks());
      if !short && 0 < length <= e {
        SoundTakeAll(chunks, length, delivered, pushed, short, e, buffer.Chunks());
      }
      Account(n, e, r);
    }

    /** `fromList`, if anything is wanted. */
    method Draw(e: int) returns (r: Outcome)
      requires Valid()
      modifies buffer, buffer.spine
      ensures buffer.Valid() && fresh(set n | n in buffer.spine && n !in old(buffer.spine))
      ensures r == Given(old(buffer.Chunks()), length, e) && (r.Bytes? ==> length != 0 && e > 0)
      ensures B.Full(buffer.Chunks()) && B.Flatten(buffer.Chunks()) == Left(old(buffer.Chunks()), length, e)
    {
      hide B.Flatten, B.Full, B.BufferList.Chunks, B.BufferList.Valid, Sound, Given, Left;
      GivenKinds(buffer.Chunks(), length, e);
      SoundMeans(buffer.Chunks(), length, delivered, pushed, short);
      r := Null;
      if e > 0 {
        r := FromList(e);
      }
    }

    /** What `read` does with the fields, once it has taken what it takes. */
    method Account(n: Option<int>, e: int, r: Outcome)
      requires buffer.Valid() && (short ==> risked) && (!short && 0 < length < e ==> risked)
      requires ends == (if endEmitted then 1 else 0)
      requires (endEmitted ==> ended && length == 0) && (EndTask in tasks ==> ended)
      requires r.Bytes? ==> length != 0 && e > 0
      requires var left := length - if r.Bytes? then e else 0;
               Sound(buffer.Chunks(), left, delivered + r.Taken(), pushed, short || 0 < length < e)
      modifies this`length, this`needReadable, this`delivered, this`ended, this`tasks, this`short, this`raised
      ensures Valid() && short == (old(short) || 0 < old(length) < e)
      ensures delivered == old(delivered) + r.Taken()
      ensures length == old(length) - (if r.Bytes? then e else 0) && ended == old(ended)
      ensures r.Null? ==> needReadable == (length <= highWaterMark)
      ensures !r.Threw? && !ended && length == 0 ==> needReadable
      ensures r.Bytes? && ended ==> needReadable == old(needReadable)
      ensures tasks == old(tasks) + if !r.Threw? && ended && !endEmitted && length == 0 &&
                                       n != Some(if r.Bytes? then e else 0) then [EndTask] else []
      ensures raised == old(raised) + if r.Threw? then 1 else 0
    {
      hide B.BufferList.Chunks, B.BufferList.Valid, Sound;
      var taken := e;
      short := short || 0 < length < e;
      delivered := delivered + r.Taken();
      if r.Threw? {
        raised := raised + 1;
        return;
      }
      if r.Null? {
        needReadable := length <= highWaterMark;
        taken := 0;
      } else {
        length := length - taken;
      }
      if length == 0 {
        if !ended {
          needReadable := true;
        }
        if n != Some(taken) && ended {
          EndReadable();
        }
      }
    }

    // Steps that run user code. They end when it throws.

    method Read(n: Option<int>) returns (r: Outcome)
      requires Valid()
      modifies this, buffer, buffer.spine
      ensures Valid() && fresh(set n | n in buffer.spine && n !in old(buffer.spine)) && UserCode() <= old(UserCode())
      ensures ReadWell(old(Now()), Now(), n, r)
      // without user code, and as long as no read was short
      ensures UserCode() == old(UserCode()) && !old(short) ==>
                Answers(old(buffer.Contents()), old(FirstChunk(buffer.Chunks())), n, old(flowing) == Some(true),
                    old(ended),
                        r, buffer.Contents())
      ensures UserCode() == old(UserCode()) && !old(short) ==> !r.Threw?
      ensures UserCode() == old(UserCode()) && !old(short) && !old(ended) ==>
                (n.Some? && |old(buffer.Contents())| < n.value <= 0x4000_0000 ==> needReadable)
      // `_read` is called exactly when less would be left than the high-water mark, or a listener waits
      ensures UserCode() == old(UserCode()) && !old(short || ended || reading || needReadable) ==>
                (n.Some? && 0 < n.value <= |old(buffer.Contents())| && n.value <= old(highWaterMark) ==>
                   (asked > old(asked) <==> |old(buffer.Contents())| - n.value < old(highWaterMark)))
      // `_read` is called first, and pushes a chunk at once: the answer is the one for all the bytes
      ensures old(Now().Fetches(Now().Asks(n), Mark(n, length, ended, highWaterMark)) && Now().Fed()) &&
              !old(short) && n != Some(0) ==>
                var chunk := old(sources)[0][0].chunk;
                Answers(old(buffer.Contents()) + chunk, FirstChunk(old(buffer.Chunks()) + [chunk]),
                        n, old(flowing) == Some(true), old(ended), r, buffer.Contents())
      decreases UserCode(), 1, 0
    {
      hide Sound, B.Flatten, B.BufferList.Chunks, B.BufferList.Contents, B.BufferList.Valid, NeverReads, Given, Left;
      ContentsAre();
      if n == Some(0) && needReadable && (ended || if highWaterMark != 0 then length >= highWaterMark else length > 0) {
        ReadNothing();
        r := Null;
      } else {
        r := ReadOn(n);
      }
      Promised(old(Now()), old(UserCode()), n, r);
      Refills(old(Now()), old(UserCode()), n, r);
      ghost var start := old(Now());
      if !start.short && start.Fed() && n != Some(0) &&
         start.Fetches(start.Asks(n), Mark(n, start.length, start.ended, start.highWaterMark)) {
        PromisedFed(start, n, r);
      }
    }

    lemma Refills(a: View, userCode: nat, n: Option<int>, r: Outcome)
      requires SoundView(a) && ReadWell(a, Now(), n, r) && a.UserCode() == userCode
      requires UserCode() == userCode && !a.short ==> !r.Threw?
      ensures UserCode() == userCode && !a.short && !a.ended && !a.reading && !a.needReadable &&
              n.Some? && 0 < n.value <= |B.Flatten(a.chunks)| && n.value <= a.highWaterMark ==>
                (asked > a.asked <==> |B.Flatten(a.chunks)| - n.value < a.highWaterMark)
    {
      hide Sound, Given, Left, B.Flatten, Kept, Took, FellShort, Stolen, Settles, SoundView, Plain, Marks;
      Fields();
      if UserCode() == userCode && !a.short {
        SoundLength(a);
        if !a.ended && !a.reading && !a.needReadable && n.Some? && 0 < n.value <= a.length &&
            n.value <= a.highWaterMark {
          CallsWhenLow(a, Now(), n.value, r);
        }
      }
    }

    /** The same when `_read` pushes a chunk at once. */
    lemma PromisedFed(a: View, n: Option<int>, r: Outcome)
      requires SoundView(a) && ReadWell(a, Now(), n, r) && !a.short && a.Fed() && n != Some(0)
      requires a.Fetches(a.Asks(n), Mark(n, a.length, a.ended, a.highWaterMark))
      ensures var chunk := a.sources[0][0].chunk;
              Answers(B.Flatten(a.chunks) + chunk, FirstChunk(a.chunks + [chunk]), n, a.flowing == Some(true), a.ended,
                      r, buffer.Contents())
    {
      hide Sound, Given, Left, B.Flatten, Kept, Took, FellShort, Stolen, Answers, SoundView, Plain, Marks;
      HasHead(a, n);
      BringSound(a);
      TookMeans(a.Bring(), Now(), n, r);
    }

    lemma ContentsAre()
      ensures buffer.Contents() == B.Flatten(Now().chunks)
    {
    }

    /** What the fields say of the bytes. */
    lemma Promised(a: View, userCode: nat, n: Option<int>, r: Outcome)
      requires SoundView(a) && ReadWell(a, Now(), n, r) && a.UserCode() == userCode
      ensures UserCode() == userCode && !a.short ==>
                && Answers(B.Flatten(a.chunks), FirstChunk(a.chunks), n, a.flowing == Some(true), a.ended,
                           r, buffer.Contents())
                && !r.Threw?
                && (!a.ended && n.Some? && |B.Flatten(a.chunks)| < n.value <= 0x4000_0000 ==> needReadable)
    {
      hide Sound, Given, Left, B.Flatten, Kept, Took, FellShort, Stolen, Answers, NewHighWaterMark, SoundView, Plain;
      Fields();
      if UserCode() == userCode && !a.short {
        ReadMeans(a, Now(), n, r);
        NotThrown(B.Flatten(a.chunks), FirstChunk(a.chunks), n, a.flowing == Some(true), a.ended, r, buffer.Contents());
        SoundLength(a);
        if n.Some? && n.value > 0 {
          HighWaterMarkIsLeast(n.value);
        }
      }
    }

    /** `read(0)` when there is something to read already, or nothing more to come. */
    method ReadNothing()
      requires Valid() && needReadable && (ended || if highWaterMark != 0 then length >= highWaterMark else length > 0)
      modifies this`needReadable, this`emittedReadable, this`tasks, this`ended
      ensures Valid() && ReadWell(old(Now()), Now(), Some(0), Null)
      ensures length != 0 || !ended ==> emittedReadable && !needReadable
    {
      hide Sound, B.Flatten, B.BufferList.Chunks, B.BufferList.Contents, B.BufferList.Valid, NeverReads, Given, Left;
      hide ReadWell;
      ghost var start := Now();
      if length == 0 && ended {
        EndReadable();
      } else {
        EmitReadable();
      }
      NothingRead(start, Now());
    }

    method ReadOn(n: Option<int>) returns (r: Outcome)
      requires Valid() && !Now().Reports(n)
      modifies this, buffer, buffer.spine
      ensures Valid() && fresh(set n | n in buffer.spine && n !in old(buffer.spine)) && UserCode() <= old(UserCode())
      ensures ReadWell(old(Now()), Now(), n, r)
      decreases UserCode(), 0, 7
    {
      hide Sound, B.Flatten, B.BufferList.Chunks, B.BufferList.Contents, B.BufferList.Valid, NeverReads, Given, Left;
      hide ReadWell, SomeWell, Sized, View.Reset, View.Reports, View.Asks, View.NoHead, Now;
      Fields();
      ghost var start := Now();
      Prepare(n);
      Begin(n);
      var e, threw := SizeUp(n);
      ghost var sized := Now();
      Fields();
      SizedAsks(start, sized, n);
      if threw {
        ThrewAtOnce(start, sized, n);
        return Threw;
      }
      if e == 0 && ended {
        ReadNoMore();
        NoMoreToRead(start, sized, Now(), n);
        return Null;
      }
      r := ReadSome(n, e);
      SizedThenSome(start, sized, Now(), n, r);
    }

    /** Unless it is `read(0)`, the next chunk is to be announced again. */
    method Begin(n: Option<int>)
      requires Valid()
      modifies this`emittedReadable
      ensures Valid() && Now() == old(Now()).Reset(n)
    {
      hide Sound, B.Flatten, B.BufferList.Chunks, B.BufferList.Contents, B.BufferList.Valid, NeverReads, Given, Left;
      if n != Some(0) {
        emittedReadable := false;
      }
    }

    /** Nothing is taken at the end. */
    method ReadNoMore()
      requires Valid() && ended
      modifies this`ended, this`tasks
      ensures Valid()
      ensures var a := old(Now()); Now() == a.(tasks := a.tasks + if a.length == 0 &&
                !a.endEmitted then [EndTask] else [])
    {
      hide Sound, B.Flatten, B.BufferList.Chunks, B.BufferList.Contents, B.BufferList.Valid, NeverReads, Given, Left;
      if length == 0 {
        EndReadable();
      }
    }

    method ReadSome(n: Option<int>, e: int) returns (r: Outcome)
      requires Valid() && (!short ==> e <= length)
      modifies this, buffer, buffer.spine
      ensures Valid() && fresh(set n | n in buffer.spine && n !in old(buffer.spine)) && UserCode() <= old(UserCode())
      ensures SomeWell(old(Now()), Now(), n, e, r)
      decreases UserCode(), 0, 6
    {
      hide Sound, B.Flatten, B.BufferList.Chunks, B.BufferList.Contents, B.BufferList.Valid, NeverReads, Given, Left;
      hide SomeWell, TakeWell, Now;
      ghost var start := Now();
      var more, threw := Refill(n, e);
      ghost var refilled := Now();
      if threw {
        RefillAndThrow(start, refilled, n, e, more);
        return Threw;
      }
      r := TakeAndTell(n, more);
      RefillAndTake(start, refilled, Now(), n, e, more, r);
    }

    method TakeAndTell(n: Option<int>, e: int) returns (r: Outcome)
      requires Valid() && (!Now().short && 0 < Now().length < e ==> Now().risked)
      modifies this, buffer, buffer.spine
      ensures Valid() && fresh(set n | n in buffer.spine && n !in old(buffer.spine)) && UserCode() <= old(UserCode())
      ensures TakeWell(old(Now()), Now(), n, e, r)
      decreases UserCode(), 0, 3
    {
      hide Sound, B.Flatten, B.BufferList.Chunks, B.BufferList.Contents, B.BufferList.Valid, NeverReads, Given, Left;
      hide Now, TakeWell, TakenWell, ListenWell;
      Fields();
      ghost var start := Now();
      r := Take(n, e);
      ghost var taken := Now();
      ghost var o := r;
      var threw := false;
      if r.Bytes? {
        threw := RunListener();
        if threw {
          r := Threw;
        }
      }
      Told(start, taken, Now(), n, e, o, threw);
    }

    /** Ask for more if there is room. */
    method Refill(n: Option<int>, e: int) returns (more: int, threw: bool)
      requires Valid() && (!short ==> e <= length)
      modifies this, buffer, buffer.spine
      ensures Valid() && fresh(set n | n in buffer.spine && n !in old(buffer.spine)) && UserCode() <= old(UserCode())
      ensures RefillWell(old(Now()), Now(), n, e, more, threw)
      decreases UserCode(), 0, 5
    {
      hide Sound, B.Flatten, B.BufferList.Chunks, B.BufferList.Contents, B.BufferList.Valid, NeverReads, Given, Left;
      more, threw := e, false;
      var doRead := needReadable;
      if length == 0 || length - e < highWaterMark {
        doRead := true;
      }
      if !ended && !reading && doRead {
        more, threw := Fetch(n, e);
      }
    }

    /** Call `_read`, and look again at how much to read if it has pushed something at once. */
    method Fetch(n: Option<int>, e: int) returns (more: int, threw: bool)
      requires Valid() && (!short ==> e <= length) && Now().Fetches(e, highWaterMark)
      modifies this, buffer, buffer.spine
      ensures Valid() && fresh(set n | n in buffer.spine && n !in old(buffer.spine)) && UserCode() <= old(UserCode())
      ensures RefillWell(old(Now()), Now(), n, e, more, threw)
      decreases UserCode(), 0, 4
    {
      hide Sound, B.Flatten, B.BufferList.Chunks, B.BufferList.Contents, B.BufferList.Valid, NeverReads, Given, Left;
      hide Now, AskWell, RefillWell, Sized;
      ghost var start := Now();
      Fields();
      MarkRisk(e);
      ghost var marked := Now();
      more := e;
      threw := Ask();
      ghost var answered := Now();
      Fields();
      if threw || reading {
        AskedOnly(start, marked, answered, n, e, threw);
      } else {
        Prepare(n);
        more, threw := SizeUp(n);
        AskedAndSized(start, marked, answered, Now(), n, e, more, threw);
      }
    }

    ghost method MarkRisk(e: int)
      requires Valid()
      modifies this`risked
      ensures Valid() && Marked(old(Now()), Now(), e)
    {
      hide Sound, B.Flatten, B.BufferList.Chunks, B.BufferList.Contents, B.BufferList.Valid, NeverReads, Given, Left;
      risked := risked || e >= 2;
    }

    method Ask() returns (threw: bool)
      requires Valid() && !ended && !reading
      modifies this, buffer, buffer.spine
      ensures Valid() && fresh(set n | n in buffer.spine && n !in old(buffer.spine)) && UserCode() <= old(UserCode())
      ensures AskWell(old(Now()), Now(), threw)
      decreases UserCode(), 0, 3
    {
      hide Sound, B.Flatten, B.BufferList.Chunks, B.BufferList.Contents, B.BufferList.Valid, NeverReads, Given, Left;
      hide AskWell, SourceWell, Now;
      ghost var start := Now();
      StartAsking();
      ghost var asking := Now();
      threw := RunSource();
      ghost var answered := Now();
      if !threw {
        StopAsking();
      }
      AskedSource(start, asking, answered, Now(), threw);
    }

    method StartAsking()
      requires Valid() && !ended && !reading
      modifies this`asked, this`reading, this`sync, this`needReadable
      ensures Valid() && sync && Asking(old(Now()), Now())
    {
      hide Sound, B.Flatten, B.BufferList.Chunks, B.BufferList.Contents, B.BufferList.Valid, NeverReads, Given, Left;
      asked := asked + 1;
      reading := true;
      sync := true;
      if length == 0 {
        needReadable := true;
      }
    }

    method StopAsking()
      requires Valid()
      modifies this`sync
      ensures Valid() && Now() == old(Now()).(sync := false)
    {
      hide Sound, B.Flatten, B.BufferList.Chunks, B.BufferList.Contents, B.BufferList.Valid, NeverReads, Given, Left;
      sync := false;
    }

    method PopSource() returns (requests: seq<Request>)
      requires Valid() && sources != []
      modifies this`sources
      ensures Valid() && requests == old(Now()).sources[0] && Now() == old(Now()).(sources := old(sources)[1..])
    {
      hide Sound, B.Flatten, B.BufferList.Chunks, B.BufferList.Contents, B.BufferList.Valid, NeverReads, Given, Left;
      requests := sources[0];
      sources := sources[1..];
    }

    method PopScript() returns (requests: seq<Request>)
      requires Valid() && script != []
      modifies this`script
      ensures Valid() && requests == old(Now()).script[0] && Now() == old(Now()).(script := old(script)[1..])
    {
      hide Sound, B.Flatten, B.BufferList.Chunks, B.BufferList.Contents, B.BufferList.Valid, NeverReads, Given, Left;
      requests := script[0];
      script := script[1..];
    }

    /** `_read` is called. */
    method RunSource() returns (threw: bool)
      requires Valid() && sync
      modifies this, buffer, buffer.spine
      ensures Valid() && fresh(set n | n in buffer.spine && n !in old(buffer.spine)) && UserCode() <= old(UserCode())
      ensures SourceWell(old(Now()), Now(), threw)
      decreases UserCode(), 0, 2
    {
      hide Sound, B.Flatten, B.BufferList.Chunks, B.BufferList.Contents, B.BufferList.Valid, NeverReads, Given, Left;
      threw := false;
      if sources != [] {
        ghost var start := Now();
        var requests := PopSource();
        ghost var popped := Now();
        threw := PerformAll(requests);
        PoppedSource(start, popped, Now(), threw);
      }
    }

    /** A listener is called. */
    method RunListener() returns (threw: bool)
      requires Valid()
      modifies this, buffer, buffer.spine
      ensures Valid() && fresh(set n | n in buffer.spine && n !in old(buffer.spine)) && UserCode() <= old(UserCode())
      ensures ListenWell(old(Now()), Now(), threw)
      decreases UserCode(), 0, 1
    {
      hide Sound, B.Flatten, B.BufferList.Chunks, B.BufferList.Contents, B.BufferList.Valid, NeverReads, Given, Left;
      hide AllWell, Kept;
      threw := false;
      KeptFlags(Now(), Now());
      if script != [] {
        ghost var start := Now();
        var requests := PopScript();
        ghost var popped := Now();
        threw := PerformAll(requests);
        Popped(start, popped, Now(), requests, threw);
      }
    }

    /** User code runs. */
    method PerformAll(requests: seq<Request>) returns (threw: bool)
      requires Valid()
      modifies this, buffer, buffer.spine
      ensures Valid() && fresh(set n | n in buffer.spine && n !in old(buffer.spine)) && UserCode() <= old(UserCode())
      ensures AllWell(old(Now()), Now(), requests, threw)
      decreases UserCode(), 6, |requests|
    {
      hide Sound, B.Flatten, B.BufferList.Chunks, B.BufferList.Contents, B.BufferList.Valid, NeverReads, Given, Left;
      hide AllWell, PerformWell, Now;
      ghost var start := Now();
      if requests == [] {
        AllOfNone(start);
        return false;
      }
      threw := Perform(requests[0]);
      ghost var next := Now();
      if threw {
        AllOfOne(start, next, requests);
        return;
      }
      threw := PerformAll(requests[1..]);
      AllOfMore(start, next, Now(), requests, threw);
    }

    /** `push` of a chunk. */
    method PushChunk(chunk: seq<Byte>) returns (threw: bool)
      requires Valid()
      modifies this, buffer, buffer.spine
      ensures Valid() && fresh(set n | n in buffer.spine && n !in old(buffer.spine)) && UserCode() <= old(UserCode())
      ensures PushWell(old(Now()), Now(), chunk, threw)
      decreases UserCode(), 4
    {
      hide Sound, B.Flatten, B.BufferList.Chunks, B.BufferList.Contents, B.BufferList.Valid, NeverReads, Given, Left;
      hide Now, PushWell, AddWell;
      Fields();
      ghost var start := Now();
      threw := false;
      if chunk == [] {
        StopReading();
        ghost var stopped := Now();
        MaybeReadMore();
        PushedNothing(start, stopped, Now(), chunk);
      } else if !ended {
        StopReading();
        ghost var accepted := Now();
        threw := AddChunk(chunk);
        PushAdded(start, accepted, Now(), chunk, threw);
      } else {
        PushedNothing(start, start, start, chunk);
      }
    }

    method StopReading()
      requires Valid()
      modifies this`reading
      ensures Valid() && Now() == old(Now()).(reading := false) && !reading
    {
      hide Sound, B.Flatten, B.BufferList.Chunks, B.BufferList.Contents, B.BufferList.Valid, NeverReads, Given, Left;
      reading := false;
    }

    method AddChunk(chunk: seq<Byte>) returns (threw: bool)
      requires Valid() && !ended && chunk != [] && !reading
      modifies this, buffer, buffer.spine
      ensures Valid() && fresh(set n | n in buffer.spine && n !in old(buffer.spine)) && UserCode() <= old(UserCode())
      ensures AddWell(old(Now()), Now(), chunk, threw)
      decreases UserCode(), 3
    {
      hide Sound, B.Flatten, B.BufferList.Chunks, B.BufferList.Contents, B.BufferList.Valid, NeverReads, Given, Left;
      hide Kept, AddWell, PassedWell, More, Now;
      Fields();
      ghost var start := Now();
      threw := false;
      if flowing == Some(true) && length == 0 && !sync {
        threw := PassChunk(chunk);
        ghost var passed := Now();
        if threw {
          AddPassed(start, passed, passed, chunk, threw);
          return;
        }
        MaybeReadMore();
        AddPassed(start, passed, Now(), chunk, threw);
      } else {
        Store(chunk);
        ghost var stored := Now();
        Fields();
        if needReadable {
          EmitReadable();
        }
        ghost var announced := Now();
        MaybeReadMore();
        AddStored(start, stored, announced, Now(), chunk);
      }
    }

    /** The chunk is emitted. */
    method PassChunk(chunk: seq<Byte>) returns (threw: bool)
      requires Valid() && flowing == Some(true) && length == 0 && !sync && !ended
      modifies this, buffer, buffer.spine
      ensures Valid() && fresh(set n | n in buffer.spine && n !in old(buffer.spine)) && UserCode() <= old(UserCode())
      ensures PassedWell(old(Now()), Now(), chunk, threw)
      decreases UserCode(), 2
    {
      hide Sound, B.Flatten, B.BufferList.Chunks, B.BufferList.Contents, B.BufferList.Valid, NeverReads, Given, Left;
      hide Kept, PassedWell;
      ghost var start := Now();
      SoundPass(buffer.Chunks(), delivered, pushed, short, chunk);
      pushed := pushed + chunk;
      delivered := delivered + chunk;
      ghost var passed := Now();
      threw := RunListener();
      PassedOn(start, passed, Now(), chunk, threw);
    }

    /** The chunk waits in the buffer. */
    method Store(chunk: seq<Byte>)
      requires Valid() && !ended && chunk != [] && !reading
      requires !(flowing == Some(true) && length == 0 && !sync)
      modifies this`length, this`pushed, buffer, buffer.spine
      ensures Valid() && fresh(set n | n in buffer.spine && n !in old(buffer.spine))
      ensures var a := old(Now());
              Now() == a.(length := a.length + |chunk|, chunks := a.chunks + [chunk], pushed := a.pushed + chunk)
    {
      hide Sound, B.Flatten, B.BufferList.Chunks, B.BufferList.Contents, B.BufferList.Valid, NeverReads, Given, Left;
      SoundStore(buffer.Chunks(), length, delivered, pushed, short, chunk);
      length := length + |chunk|;
      pushed := pushed + chunk;
      buffer.Push(chunk);
    }

    /** `push(null)`. */
    method PushEnd() returns (threw: bool)
      requires Valid()
      modifies this, buffer, buffer.spine
      ensures Valid() && fresh(set n | n in buffer.spine && n !in old(buffer.spine)) && UserCode() <= old(UserCode())
      ensures EndWell(old(Now()), Now(), threw)
      decreases UserCode(), 4
    {
      hide Sound, B.Flatten, B.BufferList.Chunks, B.BufferList.Contents, B.BufferList.Valid, NeverReads, Given, Left;
      hide Kept, EmitEndWell, EndWell, View.EndMarked, Now;
      ghost var start := Now();
      Fields();
      threw := false;
      var first := EndPushed();
      ghost var marked := Now();
      Fields();
      if first {
        if sync {
          EmitReadable();
        } else {
          threw := EmitEnd();
        }
      }
      Ending(start, marked, Now(), threw);
    }

    method EmitEnd() returns (threw: bool)
      requires Valid()
      modifies this, buffer, buffer.spine
      ensures Valid() && fresh(set n | n in buffer.spine && n !in old(buffer.spine)) && UserCode() <= old(UserCode())
      ensures EmitEndWell(old(Now()), Now(), threw)
      decreases UserCode(), 3, 1
    {
      hide Sound, B.Flatten, B.BufferList.Chunks, B.BufferList.Contents, B.BufferList.Valid, NeverReads, Given, Left;
      hide Now, Kept, EmitWell;
      Fields();
      threw := false;
      var due := AboutToEmit();
      if due {
        threw := EmitReadableNow();
      }
    }

    method AboutToEmit() returns (due: bool)
      requires Valid()
      modifies this`needReadable, this`emittedReadable
      ensures Valid() && due == !old(emittedReadable) && emittedReadable
      ensures Now() == old(Now()).(needReadable := false, emittedReadable := true)
    {
      hide Sound, B.Flatten, B.BufferList.Chunks, B.BufferList.Contents, B.BufferList.Valid, NeverReads, Given, Left;
      due := !emittedReadable;
      needReadable, emittedReadable := false, true;
    }

    method EndPushed() returns (first: bool)
      requires Valid()
      modifies this`reading, this`ended
      ensures Valid() && first == !old(ended) && ended && sync == old(sync) && Now() == old(Now()).EndMarked()
    {
      hide Sound, B.Flatten, B.BufferList.Chunks, B.BufferList.Contents, B.BufferList.Valid, NeverReads, Given, Left;
      first := !ended;
      reading := false;
      ended := true;
    }

    /** `emitReadable_`. */
    method EmitReadableNow() returns (threw: bool)
      requires Valid()
      modifies this, buffer, buffer.spine
      ensures Valid() && fresh(set n | n in buffer.spine && n !in old(buffer.spine)) && UserCode() <= old(UserCode())
      ensures EmitWell(old(Now()), Now(), threw)
      decreases UserCode(), 3, 0
    {
      hide Sound, B.Flatten, B.BufferList.Chunks, B.BufferList.Contents, B.BufferList.Valid, NeverReads, Given, Left;
      hide Kept, AnnounceWell, FlowWell, EmitWell, Now;
      ghost var start := Now();
      threw := Announce();
      ghost var announcement := Now();
      if threw {
        EmitThrew(start, announcement);
        return;
      }
      Fields();
      NeedMore();
      ghost var needing := Now();
      threw := Flow();
      EmitThenFlow(start, announcement, needing, Now(), threw);
    }

    /** Its event. */
    method Announce() returns (threw: bool)
      requires Valid()
      modifies this, buffer, buffer.spine
      ensures Valid() && fresh(set n | n in buffer.spine && n !in old(buffer.spine)) && UserCode() <= old(UserCode())
      ensures AnnounceWell(old(Now()), Now(), threw)
      decreases UserCode(), 1
    {
      hide Sound, B.Flatten, B.BufferList.Chunks, B.BufferList.Contents, B.BufferList.Valid, NeverReads, Given, Left;
      hide AnnounceWell, ListenWell, Now;
      ghost var start := Now();
      Fields();
      threw := false;
      if length != 0 || ended {
        threw := TellReadable();
        ghost var told := Now();
        if !threw {
          StopAnnouncing();
        }
        Announced(start, told, Now(), threw);
      } else {
        NotDue(start);
      }
    }

    /** The listener of `readable` is called. */
    method TellReadable() returns (threw: bool)
      requires Valid()
      modifies this, buffer, buffer.spine
      ensures Valid() && fresh(set n | n in buffer.spine && n !in old(buffer.spine)) && UserCode() <= old(UserCode())
      ensures var a := old(Now()); ListenWell(a.(announced := a.announced + 1), Now(), threw)
      decreases UserCode(), 0, 2
    {
      hide Sound, B.Flatten, B.BufferList.Chunks, B.BufferList.Contents, B.BufferList.Valid, NeverReads, Given, Left;
      hide ListenWell, Now;
      StartAnnouncing();
      threw := RunListener();
    }

    method StartAnnouncing()
      requires Valid()
      modifies this`announced
      ensures Valid() && Now() == old(Now()).(announced := old(Now()).announced + 1)
    {
      hide Sound, B.Flatten, B.BufferList.Chunks, B.BufferList.Contents, B.BufferList.Valid, NeverReads, Given, Left;
      announced := announced + 1;
    }

    method StopAnnouncing()
      requires Valid()
      modifies this`emittedReadable
      ensures Valid() && Now() == old(Now()).(emittedReadable := false)
    {
      hide Sound, B.Flatten, B.BufferList.Chunks, B.BufferList.Contents, B.BufferList.Valid, NeverReads, Given, Left;
      emittedReadable := false;
    }

    method NeedMore()
      requires Valid()
      modifies this`needReadable
      ensures Valid()
      ensures Now() == old(Now()).(needReadable := old(flowing != Some(true) && !ended && length <= highWaterMark))
    {
      hide Sound, B.Flatten, B.BufferList.Chunks, B.BufferList.Contents, B.BufferList.Valid, NeverReads, Given, Left;
      needReadable := flowing != Some(true) && !ended && length <= highWaterMark;
    }

    method Flow() returns (threw: bool)
      requires Valid()
      modifies this, buffer, buffer.spine
      ensures Valid() && fresh(set n | n in buffer.spine && n !in old(buffer.spine)) && UserCode() <= old(UserCode())
      ensures FlowWell(old(Now()), Now(), threw)
      decreases UserCode(), 2
    {
      hide Sound, B.Flatten, B.BufferList.Chunks, B.BufferList.Contents, B.BufferList.Valid, NeverReads, Given, Left;
      hide Kept, FlowWell, ReadWell, FlowLoop;
      ghost var start := Now();
      FlowStarts(start);
      var more := true;
      while flowing == Some(true) && more
        invariant Valid() && fresh(set n | n in buffer.spine && n !in old(buffer.spine))
        invariant UserCode() <= old(UserCode()) && FlowLoop(start, Now(), more)
        decreases UserCode(), more, |B.Flatten(buffer.Chunks())|
      {
        ghost var before := Now();
        HeadNotEmpty();
        var r := Read(None);
        FlowMore(start, before, Now(), r);
        if r.Threw? {
          return true;
        }
        more := r.Bytes?;
      }
      FlowEnds(start, Now(), more);
      threw := false;
    }

    lemma NoBytes()
      requires B.Flatten(buffer.Chunks()) == [] || buffer.Chunks() == []
      ensures buffer.Contents() == []
    {
    }

    lemma HeadNotEmpty()
      requires Valid()
      ensures Now().chunks != [] ==> |Now().chunks[0]| > 0
    {
      SoundMeans(buffer.Chunks(), length, delivered, pushed, short);
      hide Sound, B.Flatten, B.Full;
    }

    method Perform(request: Request) returns (threw: bool)
      requires Valid()
      modifies this, buffer, buffer.spine
      ensures Valid() && fresh(set n | n in buffer.spine && n !in old(buffer.spine)) && UserCode() <= old(UserCode())
      ensures PerformWell(old(Now()), Now(), request, threw)
      decreases UserCode(), 5
    {
      hide Sound, B.Flatten, B.BufferList.Chunks, B.BufferList.Contents, B.BufferList.Valid, NeverReads, Given, Left;
      hide Kept, PushWell, ReadWell, EndWell, PauseWell, SwitchWell, Stolen, FellShort, PerformWell, Now;
      ghost var start := Now();
      threw := false;
      match request {
        case Push(chunk) =>
          threw := PushChunk(chunk);
          PerformedPush(start, Now(), chunk, threw);
        case PushEnd =>
          threw := PushEnd();
          PerformedEnd(start, Now(), threw);
        case Read(n) =>
          var r := Read(n);
          PerformedRead(start, Now(), n, r);
          threw := r.Threw?;
        case Pause =>
          threw := Pause();
          PerformedPause(start, Now(), threw);
        case Throw =>
          threw := true;
          Raise();
          PerformedThrow(start, Now());
        case _ =>
          Switch(request);
          PerformedSwitch(start, Now(), request);
      }
    }

    ghost method Raise()
      requires Valid()
      modifies this`raised
      ensures Valid() && Now() == old(Now()).(raised := old(Now()).raised + 1)
    {
      hide Sound, B.Flatten, B.BufferList.Chunks, B.BufferList.Contents, B.BufferList.Valid, NeverReads, Given, Left;
      raised := raised + 1;
    }

    /** The calls that run no user code. */
    method Switch(request: Request)
      requires Valid() && (request.Resume? || request.OnReadable? || request.OnData? || request.RemoveReadable?)
      modifies this`flowing, this`resumeScheduled, this`tasks, this`paused
      modifies this`readableListening, this`needReadable, this`emittedReadable
      ensures Valid() && SwitchWell(old(Now()), Now(), request)
    {
      hide Sound, B.Flatten, B.BufferList.Chunks, B.BufferList.Contents, B.BufferList.Valid, NeverReads, Given, Left;
      hide ResumeWell, ListensWell, Now;
      Fields();
      match request {
        case Resume => Resume();
        case OnReadable => OnReadable();
        case OnData(readableListeners) => OnData(readableListeners);
        case RemoveReadable(readableListeners, dataListeners) => RemoveReadable(readableListeners, dataListeners);
      }
    }

    method OnData(readableListeners: bool)
      requires Valid()
      modifies this`flowing, this`resumeScheduled, this`tasks, this`paused, this`readableListening
      ensures Valid() && if old(flowing) == Some(false) then Now() == old(Now()) else ResumeWell(old(Now()), Now())
      ensures readableListening == readableListeners
      ensures flowing == if old(flowing) == Some(false) then Some(false)
                         else if old(flowing) == Some(true) then Some(true)
                         else Some(!readableListeners)
    {
      hide Sound, B.Flatten, B.BufferList.Chunks, B.BufferList.Contents, B.BufferList.Valid, NeverReads, Given, Left;
      readableListening := readableListeners;
      if flowing != Some(false) {
        Resume();
      }
    }

    method RemoveReadable(readableListeners: bool, dataListeners: bool)
      requires Valid()
      modifies this`tasks
      ensures Valid() && Now() == old(Now()).(tasks := old(Now()).tasks + [ListeningTask(readableListeners,
                dataListeners)])
      ensures tasks == old(tasks) + [ListeningTask(readableListeners, dataListeners)]
    {
      hide Sound, B.Flatten, B.BufferList.Chunks, B.BufferList.Contents, B.BufferList.Valid, NeverReads, Given, Left;
      tasks := tasks + [ListeningTask(readableListeners, dataListeners)];
    }

    method Resume()
      requires Valid()
      modifies this`flowing, this`resumeScheduled, this`tasks, this`paused
      ensures Valid() && ResumeWell(old(Now()), Now())
      ensures !paused && flowing == if old(flowing) == Some(true) then Some(true) else Some(!readableListening)
      ensures if old(flowing) != Some(true) && !old(resumeScheduled)
              then resumeScheduled && tasks == old(tasks) + [ResumeTask]
              else resumeScheduled == old(resumeScheduled) && tasks == old(tasks)
    {
      hide Sound, B.Flatten, B.BufferList.Chunks, B.BufferList.Contents, B.BufferList.Valid, NeverReads, Given, Left;
      if flowing != Some(true) {
        flowing := Some(!readableListening);
        if !resumeScheduled {
          resumeScheduled := true;
          tasks := tasks + [ResumeTask];
        }
      }
      paused := false;
    }

    method Pause() returns (threw: bool)
      requires Valid()
      modifies this, buffer, buffer.spine
      ensures Valid() && fresh(set n | n in buffer.spine && n !in old(buffer.spine)) && UserCode() <= old(UserCode())
      ensures PauseWell(old(Now()), Now(), threw) && (!threw ==> paused)
      decreases UserCode(), 1
    {
      hide Sound, B.Flatten, B.BufferList.Chunks, B.BufferList.Contents, B.BufferList.Valid, NeverReads, Given, Left;
      hide Kept, Now;
      ghost var start := Now();
      Fields();
      threw := false;
      var stops := StopFlowing();
      ghost var pausing := Now();
      Fields();
      if stops {
        threw := RunListener();
      }
      Pausing(start, pausing, Now(), threw);
      if !threw {
        SetPaused();
      }
    }

    method StopFlowing() returns (stops: bool)
      requires Valid()
      modifies this`flowing
      ensures Valid() && stops == (old(flowing) != Some(false)) && Now() == old(Now()).(flowing := Some(false))
    {
      hide Sound, B.Flatten, B.BufferList.Chunks, B.BufferList.Contents, B.BufferList.Valid, NeverReads, Given, Left;
      stops := flowing != Some(false);
      flowing := Some(false);
    }

    method SetPaused()
      requires Valid()
      modifies this`paused
      ensures Valid() && paused && Now() == old(Now())
    {
      hide Sound, B.Flatten, B.BufferList.Chunks, B.BufferList.Contents, B.BufferList.Valid, NeverReads, Given, Left;
      paused := true;
    }

    /** A listener for `readable` is added. */
    method OnReadable()
      requires Valid()
      modifies this`readableListening, this`needReadable, this`flowing, this`emittedReadable, this`tasks
      ensures Valid() && ListensWell(old(Now()), Now())
      ensures !endEmitted ==> readableListening
      ensures if !endEmitted && !old(readableListening)
              then
                && flowing == Some(false)
                && tasks == old(tasks) + if length != 0 then [EmitReadableTask]
                                         else if reading then [] else [ReadZeroTask]
              else flowing == old(flowing) && tasks == old(tasks)
    {
      hide Sound, B.Flatten, B.BufferList.Chunks, B.BufferList.Contents, B.BufferList.Valid, NeverReads, Given, Left;
      hide Now;
      Fields();
      if !endEmitted && !readableListening {
        StartListening();
        Fields();
        if length != 0 {
          EmitReadable();
          Fields();
        } else if !reading {
          Later(ReadZeroTask);
        }
      }
    }

    method StartListening()
      requires Valid()
      modifies this`readableListening, this`needReadable, this`flowing, this`emittedReadable
      ensures Valid() && Now() == old(Now()).(needReadable := true, emittedReadable := false, flowing := Some(false))
      ensures readableListening && !emittedReadable && flowing == Some(false)
    {
      hide Sound, B.Flatten, B.BufferList.Chunks, B.BufferList.Contents, B.BufferList.Valid, NeverReads, Given, Left;
      readableListening, needReadable, flowing, emittedReadable := true, true, Some(false), false;
    }

    method Later(task: Task)
      requires Valid() && task != EndTask
      modifies this`tasks
      ensures Valid() && tasks == old(tasks) + [task] && Now() == old(Now()).(tasks := tasks)
    {
      hide Sound, B.Flatten, B.BufferList.Chunks, B.BufferList.Contents, B.BufferList.Valid, NeverReads, Given, Left;
      tasks := tasks + [task];
    }

    // What `nextTick` runs.

    method RunTask() returns (threw: bool)
      requires Valid()
      modifies this, buffer, buffer.spine
      ensures Valid() && fresh(set n | n in buffer.spine && n !in old(buffer.spine)) && UserCode() <= old(UserCode())
      ensures var a := old(Now());
              if a.tasks == [] then !threw && Now() == a
              else TaskWell(a.(tasks := a.tasks[1..]), Now(), a.tasks[0], threw)
    {
      hide Sound, B.Flatten, B.BufferList.Chunks, B.BufferList.Contents, B.BufferList.Valid, NeverReads, Given, Left;
      hide TaskWell, Now;
      Fields();
      threw := false;
      if tasks != [] {
        var task := PopTask();
        threw := Dispatch(task);
      }
    }

    method PopTask() returns (task: Task)
      requires Valid() && tasks != []
      modifies this`tasks
      ensures Valid() && task == old(Now()).tasks[0] && (task.EndTask? ==> ended)
      ensures Now() == old(Now()).(tasks := old(Now()).tasks[1..])
    {
      hide Sound, B.Flatten, B.BufferList.Chunks, B.BufferList.Contents, B.BufferList.Valid, NeverReads, Given, Left;
      task := tasks[0];
      tasks := tasks[1..];
    }

    method Dispatch(task: Task) returns (threw: bool)
      requires Valid() && (task.EndTask? ==> ended)
      modifies this, buffer, buffer.spine
      ensures Valid() && fresh(set n | n in buffer.spine && n !in old(buffer.spine)) && UserCode() <= old(UserCode())
      ensures TaskWell(old(Now()), Now(), task, threw)
    {
      hide Sound, B.Flatten, B.BufferList.Chunks, B.BufferList.Contents, B.BufferList.Valid, NeverReads, Given, Left;
      hide Kept, Now, EmitWell, ReadWell, MoreWell, EndsWell, ResumesWell, ZeroWell, UpdateWell;
      ghost var start := Now();
      threw := false;
      match task {
        case EmitReadableTask => threw := EmitReadableNow();
        case ReadMoreTask => threw := ReadMore();
        case EndTask => threw := End();
        case ResumeTask => threw := ResumeNow();
        case ReadZeroTask =>
          var r := Read(Some(0));
          ReadZero(start, Now(), r);
          threw := r.Threw?;
        case ListeningTask(readableListeners, dataListeners) =>
          UpdateReadableListening(readableListeners, dataListeners);
      }
    }

    method UpdateReadableListening(readableListeners: bool, dataListeners: bool)
      requires Valid()
      modifies this`readableListening, this`flowing, this`resumeScheduled, this`tasks, this`paused
      ensures Valid() && readableListening == readableListeners && UpdateWell(old(Now()), Now())
      ensures if old(resumeScheduled && !paused) then flowing == Some(true) && tasks == old(tasks)
              else if !dataListeners then flowing == old(flowing) && tasks == old(tasks)
              else flowing == if old(flowing) == Some(true) then Some(true) else Some(!readableListeners)
    {
      hide Sound, B.Flatten, B.BufferList.Chunks, B.BufferList.Contents, B.BufferList.Valid, NeverReads, Given, Left;
      readableListening := readableListeners;
      if resumeScheduled && !paused {
        flowing := Some(true);
      } else if dataListeners {
        Resume();
      }
    }

    /** `endReadableNT`: the one place that emits `end`. */
    method End() returns (threw: bool)
      requires Valid() && ended
      modifies this, buffer, buffer.spine
      ensures Valid() && fresh(set n | n in buffer.spine && n !in old(buffer.spine)) && UserCode() <= old(UserCode())
      ensures EndsWell(old(Now()), Now(), threw)
      ensures ends == old(ends) + if !old(endEmitted) && old(length) == 0 then 1 else 0
    {
      hide Sound, B.Flatten, B.BufferList.Chunks, B.BufferList.Contents, B.BufferList.Valid, NeverReads, Given, Left;
      hide EndsWell, ListenWell, Now;
      ghost var start := Now();
      AllFields();
      threw := false;
      ghost var emitting := start;
      if !endEmitted && length == 0 {
        StartEnding();
        emitting := Now();
        threw := RunListener();
        StillEnded(emitting, Now(), threw);
        AllFields();
      }
      Emitted(start, emitting, Now(), threw);
    }

    method StartEnding()
      requires Valid() && ended && !endEmitted && length == 0
      modifies this`endEmitted, this`ends
      ensures Valid() && ends == old(ends) + 1 && endEmitted && Now() == old(Now()).(endEmitted := true)
    {
      hide Sound, B.Flatten, B.BufferList.Chunks, B.BufferList.Contents, B.BufferList.Valid, NeverReads, Given, Left;
      endEmitted := true;
      ends := ends + 1;
    }

    /** `maybeReadMore_`. */
    method ReadMore() returns (threw: bool)
      requires Valid()
      modifies this, buffer, buffer.spine
      ensures Valid() && fresh(set n | n in buffer.spine && n !in old(buffer.spine)) && UserCode() <= old(UserCode())
      ensures MoreWell(old(Now()), Now(), threw)
    {
      hide Sound, B.Flatten, B.BufferList.Chunks, B.BufferList.Contents, B.BufferList.Valid, NeverReads, Given, Left;
      hide Kept, ReadWell, Calm, Rises, MoreWell, MoreLoop, ZeroWell, Now;
      ghost var start := Now();
      Fields();
      threw := false;
      var more := true;
      MoreStarts(start);
      while !reading && !ended && (length < highWaterMark || (flowing == Some(true) && length == 0)) && more
        invariant Valid() && fresh(set n | n in buffer.spine && n !in old(buffer.spine))
        invariant UserCode() <= old(UserCode()) && MoreLoop(start, Now(), more)
        decreases UserCode(), more
      {
        Fields();
        ghost var asking := Now();
        var before := length;
        var r := Read(Some(0));
        ReadZero(asking, Now(), r);
        Fields();
        MoreTurn(start, asking, Now(), r.Threw?);
        if r.Threw? {
          return true;
        }
        more := length != before;
        Fields();
      }
      Fields();
      ghost var last := Now();
      StopReadingMore();
      MoreEnds(start, last, Now(), more);
    }

    method StopReadingMore()
      requires Valid()
      modifies this`readingMore
      ensures Valid() && !readingMore && Now() == old(Now()).(readingMore := false)
    {
      hide Sound, B.Flatten, B.BufferList.Chunks, B.BufferList.Contents, B.BufferList.Valid, NeverReads, Given, Left;
      readingMore := false;
    }

    /** `resume_`. */
    method ResumeNow() returns (threw: bool)
      requires Valid()
      modifies this, buffer, buffer.spine
      ensures Valid() && fresh(set n | n in buffer.spine && n !in old(buffer.spine)) && UserCode() <= old(UserCode())
      ensures ResumesWell(old(Now()), Now(), threw)
    {
      hide Sound, B.Flatten, B.BufferList.Chunks, B.BufferList.Contents, B.BufferList.Valid, NeverReads, Given, Left;
      hide ZeroWell, RestartWell, ResumesWell, Now;
      Fields();
      ghost var start := Now();
      threw := AskAgain(!reading);
      ghost var refreshed := Now();
      Fields();
      if threw {
        ResumedNot(start, refreshed);
        return;
      }
      threw := Restart();
      ghost var restarted := Now();
      Fields();
      if threw {
        ResumedHalf(start, refreshed, restarted);
        return;
      }
      threw := AskAgain(flowing == Some(true) && !reading);
      ResumedAll(start, refreshed, restarted, Now(), threw);
    }

    /** `read(0)`, in some states. */
    method AskAgain(wanted: bool) returns (threw: bool)
      requires Valid()
      modifies this, buffer, buffer.spine
      ensures Valid() && fresh(set n | n in buffer.spine && n !in old(buffer.spine)) && UserCode() <= old(UserCode())
      ensures ZeroWell(old(Now()), Now(), threw)
      ensures if wanted
              then old(!reading && !ended && (length < highWaterMark || length == 0)) ==> asked > old(asked)
              else !threw && Now() == old(Now())
    {
      hide Sound, B.Flatten, B.BufferList.Chunks, B.BufferList.Contents, B.BufferList.Valid, NeverReads, Given, Left;
      hide Kept, ReadWell;
      ghost var start := Now();
      threw := false;
      KeptFlags(start, start);
      if wanted {
        var r := Read(Some(0));
        ReadZero(start, Now(), r);
        threw := r.Threw?;
      }
    }

    /** The `resume` event, and the flow after it. */
    method Restart() returns (threw: bool)
      requires Valid()
      modifies this, buffer, buffer.spine
      ensures Valid() && fresh(set n | n in buffer.spine && n !in old(buffer.spine)) && UserCode() <= old(UserCode())
      ensures RestartWell(old(Now()), Now(), threw)
    {
      hide Sound, B.Flatten, B.BufferList.Chunks, B.BufferList.Contents, B.BufferList.Valid, NeverReads, Given, Left;
      hide RestartWell, ListenWell, FlowWell, Now;
      ghost var start := Now();
      StopScheduling();
      threw := RunListener();
      ghost var resumed := Now();
      if threw {
        RestartThrew(start, resumed);
        return;
      }
      threw := Flow();
      Restarted(start, resumed, Now(), threw);
    }

    method StopScheduling()
      requires Valid()
      modifies this`resumeScheduled
      ensures Valid() && Now() == old(Now()).(resumeScheduled := false)
    {
      hide Sound, B.Flatten, B.BufferList.Chunks, B.BufferList.Contents, B.BufferList.Valid, NeverReads, Given, Left;
      resumeScheduled := false;
    }
  }

  /** User code outside the stream makes a call, or `nextTick` runs a task. */
  datatype Event = Call(request: Request) | Tick

  /** Any run. No read is short if `_read` never reads. */
  method Run(highWaterMark: nat, script: seq<seq<Request>>, sources: seq<seq<Request>>, events: seq<Event>)
    returns (r: Readable)
    ensures r.Valid() && (NeverReads(sources) ==> !r.short) && (Call(PushEnd) in events ==> r.ended)
    // with no user code, when all tasks have run: what was to be announced was announced, what was to be resumed was
    // resumed, and a stream that flows has emitted all bytes, and `end` if it was ended
    ensures script == [] && sources == [] && r.tasks == [] ==>
              && !r.emittedReadable && !r.resumeScheduled
              && (r.flowing == Some(true) ==> r.delivered == r.pushed && (r.ended ==> r.ends == 1))
  {
    hide Sound, B.Flatten, B.BufferList.Chunks, B.BufferList.Contents, B.BufferList.Valid, NeverReads, Given, Left;
    hide Kept, PerformWell, TaskWell, LivelyBut, SoundView;
    r := new Readable(highWaterMark, script, sources);
    LivelyStart(r.Now());
    var threw;
    for i := 0 to |events|
      invariant r.Valid() && fresh(r) && fresh(r.buffer) && fresh(set n | n in r.buffer.spine)
      invariant NeverReads(sources) ==> r.Now().Tame()
      invariant Call(PushEnd) in events[..i] ==> r.ended
      invariant script == [] && sources == [] ==> Lively(r.Now())
    {
      ghost var before := r.Now();
      r.IsSound();
      assert events[..i + 1] == events[..i] + [events[i]];
      match events[i] {
        case Call(request) =>
          threw := r.Perform(request);
          PerformKept(before, r.Now(), request, threw);
          KeptTicked(before, r.Now());
          if script == [] && sources == [] {
            LivelyPerform(before, r.Now(), request, threw);
          }
        case Tick =>
          threw := r.RunTask();
          TaskTicked(before, r.Now(), threw);
          if script == [] && sources == [] {
            LivelyTick(before, r.Now(), threw);
          }
      }
      StaysTame(before, r.Now());
    }
    assert events[..|events|] == events;
    r.IsSound();
    if script == [] && sources == [] && r.tasks == [] {
      LivelyDelivers(r.Now());
    }
  }

  /**
    * What a run keeps. As long as no read was short, the bytes emitted, then those in the buffer, are the bytes pushed,
    * and `length` counts those in the buffer; `end` comes once at most, and then nothing is left. No read is short
    * unless one was `Risky`. No byte is ever made up.
    */
  lemma Conserved(r: Readable)
    requires r.Valid()
    ensures !r.short ==> r.delivered + r.buffer.Contents() == r.pushed && r.length == |r.buffer.Contents()|
    ensures r.ends <= 1 && (r.ends == 1 ==> r.ended && r.length == 0)
    ensures r.ends == 1 && !r.short ==> r.buffer.Contents() == [] && r.delivered == r.pushed
    ensures r.length <= |r.buffer.Contents()| && (r.short ==> r.risked)
    ensures multiset(r.delivered) + multiset(r.buffer.Contents()) <= multiset(r.pushed)
  {
    hide B.Flatten, B.Full, B.BufferList.Valid, B.BufferList.Chunks;
    if r.ends == 1 && !r.short {
      assert r.delivered + [] == r.delivered;
    }
  }

  /** Every `Risky` read is short, if `_read` takes all bytes but one, and listeners do nothing. */
  method CanBeShort(r: Readable, n: Option<int>) returns (o: Outcome)
    requires r.Valid() && !r.short && r.Now().Risky(n)
    requires r.script == [] && r.sources != [] && r.sources[0] == [Read(Some(r.length - 1))]
    modifies r, r.buffer, r.buffer.spine
    ensures r.Valid() && r.short && r.length < 0 && r.buffer.Contents() == []
  {
    hide Sound, B.Flatten, B.BufferList.Chunks, B.BufferList.Contents, B.BufferList.Valid, NeverReads, Given, Left;
    hide Kept, Plain, Stolen;
    r.Prepare(n);
    o := r.Read(n);
    r.NoBytes();
  }

  /** `read(3)` of five bytes, when `_read` itself calls `read(3)`: two bytes are left, and `length` becomes -1. */
  method ReadInsideRead(chunk: seq<Byte>) returns (r: Readable)
    requires |chunk| == 5
    ensures r.Valid() && fresh(r) && fresh(r.buffer) && fresh(set n | n in r.buffer.spine)
    ensures var v := r.Now();
            v.short && v.length == -1 && v.chunks == [] && v.delivered == v.pushed == chunk && AtRest(v)
  {
    hide Sound, B.Flatten, B.BufferList.Chunks, B.BufferList.Contents, B.BufferList.Valid, NeverReads, Given, Left;
    hide Kept, Plain, Stolen, NewHighWaterMark;
    r := new Readable(16, [], [[Read(Some(3))]]);
    var threw := r.PushChunk(chunk);
    var o := r.Read(Some(3));
  }

  ghost predicate AtRest(v: View) {
    v.flowing == None && !v.ended && v.UserCode() == 0
  }

  /** Then two chunks of three bytes make `length` 5, and `read()` loses the last byte. */
  method LosesAByte(first: seq<Byte>, second: seq<Byte>, third: seq<Byte>) returns (r: Readable)
    requires |first| == 5 && |second| == 3 && |third| == 3
    ensures r.Valid() && r.pushed == first + second + third && r.delivered == first + second + third[..2]
    ensures r.length == 0 && r.buffer.Contents() == []
  {
    hide Sound, B.Flatten, B.BufferList.Chunks, B.BufferList.Contents, B.BufferList.Valid, NeverReads, Given, Left;
    hide Kept, Plain, ReadWell, PushWell, AtRest;
    r := ReadInsideRead(first);
    ghost var v := r.Now();
    var threw := r.PushChunk(second);
    ghost var w := r.Now();
    Buffered(v, w, second, threw);
    threw := r.PushChunk(third);
    ghost var x := r.Now();
    Buffered(w, x, third, threw);
    assert x.chunks == [second, third];
    var o := r.Read(None);
    ReadsFive(x, r.Now(), second, third, o);
    r.NoBytes();
  }

  lemma Buffered(v: View, w: View, chunk: seq<Byte>, threw: bool)
    requires PushWell(v, w, chunk, threw) && AtRest(v) && chunk != []
    ensures AtRest(w) && w.chunks == v.chunks + [chunk] && w.length == v.length + |chunk|
    ensures w.pushed == v.pushed + chunk && w.delivered == v.delivered
  {
    hide Kept;
  }

  lemma ReadsFive(v: View, w: View, second: seq<Byte>, third: seq<Byte>, o: Outcome)
    requires ReadWell(v, w, None, o) && AtRest(v) && v.length == 5 && v.chunks == [second, third]
    requires |second| == 3 && |third| == 3
    ensures w.length == 0 && B.Flatten(w.chunks) == [] && w.pushed == v.pushed
    ensures w.delivered == v.delivered + (second + third[..2])
  {
    LessUserCode(v, w);
    B.FlattenPush([second], third);
    B.FlattenOne(second);
    assert [second] + [third] == v.chunks;
    assert (second + third)[..5] == second + third[..2];
    hide Kept, B.Flatten;
  }
}
