/**
  * `Writable` streams: writes are passed on to `_write` one at a time, buffered while one is in
  * flight or the stream is corked, and completed synchronously or later.  Errors, `destroy`,
  * `_writev` and `_final` are not modelled.
  *
  * User code runs in the middle of the methods: the `_write` implementation, the callbacks of the
  * writes, the listeners of `drain`, `prefinish` and `finish`.  What it does there is arbitrary, so a
  * run has a `script`: the n-th piece of user code that runs performs the n-th list of actions.
  */
module WritableStream {
  import opened Prelude

  /** An accepted write: its number, its size, and implicitly its chunk and its callback. */
  datatype Request = Request(id: nat, size: nat)

  /** What user code may do.  `Complete` calls the callback that `_write` was given. */
  datatype Action = Write(size: nat) | Cork | Uncork | End | Complete

  /** A call of `afterWrite` that waits in the `nextTick` queue. */
  datatype Tick = Tick(finished: bool, cb: Request)

  function Callbacks(ticks: seq<Tick>): (s: seq<Request>)
    ensures |s| == |ticks|
  {
    seq(|ticks|, i requires 0 <= i < |ticks| => ticks[i].cb)
  }

  function TotalSize(reqs: seq<Request>): nat {
    if reqs == [] then 0 else TotalSize(reqs[..|reqs| - 1]) + reqs[|reqs| - 1].size
  }

  lemma {:induction false} TotalSizeHead(reqs: seq<Request>)
    requires reqs != []
    ensures TotalSize(reqs) == reqs[0].size + TotalSize(reqs[1..])
  {
    var n := |reqs| - 1;
    if n > 0 {
      TotalSizeHead(reqs[..n]);
      assert reqs[..n][1..] == reqs[1..][..n - 1];
    }
  }

  /** Two requests are out of order. */
  ghost predicate Inverted(s: seq<Request>) {
    exists i, j :: 0 <= i < j < |s| && s[i].id > s[j].id
  }

  /** The requests are numbered in order. */
  ghost predicate Numbered(s: seq<Request>) {
    forall i :: 0 <= i < |s| ==> s[i].id == i
  }

  /** The fields of a stream, and the history of its run. */
  datatype State = State(
    ending: bool, finished: bool, length: int, writing: bool, writelen: int, writecb: Option<Request>,
    corked: nat, processing: bool, buffered: seq<Request>, pendingcb: int, ticks: seq<Tick>, script: nat,
    taken: nat, accepted: seq<Request>, sent: seq<Request>, called: seq<Request>, hand: seq<Request>,
    finishes: nat, overtaken: bool)
  {
    /** The requests still to be passed on. */
    ghost function Waiting(): seq<Request> {
      if taken <= |buffered| then buffered[taken..] else []
    }

    ghost function InFlight(): multiset<Request> {
      if writecb.Some? then multiset{writecb.value} else multiset{}
    }

    /** First in, first out, unless and only unless a write overtook others. */
    ghost predicate Order() {
      && Numbered(accepted)
      && if overtaken then Inverted(sent + Waiting()) else sent + Waiting() == accepted
    }

    /** Every accepted write is in exactly one place, and `pendingcb` counts those not called back. */
    ghost predicate Places() {
      && taken <= |buffered| && (!processing ==> taken == 0)
      && multiset(sent) + multiset(Waiting()) == multiset(accepted)
      && multiset(called) + multiset(hand) + multiset(Callbacks(ticks)) + InFlight() == multiset(sent)
      && pendingcb == |hand| + |ticks| + (if writecb.Some? then 1 else 0) + |Waiting()|
    }

    /** `length` is the size in flight and the sizes waiting; the write in flight is the last one sent. */
    ghost predicate Sizes() {
      && writing == writecb.Some?
      && (writing ==> sent != [] && writecb.value == sent[|sent| - 1])
      && writelen == (if writing then writecb.value.size else 0)
      && length == writelen + TotalSize(Waiting())
    }

    /** A waiting request has something that will take it further. */
    ghost predicate Liveness() {
      Waiting() != [] ==> writing || corked > 0 || processing
    }

    ghost predicate Finish() {
      && finishes == (if finished then 1 else 0)
      && (finished ==> ending && pendingcb == 0)
    }

    /** The invariant without `Liveness`. */
    ghost predicate Sound() {
      Order() && Places() && Sizes() && Finish()
    }

    ghost predicate Inv() {
      Sound() && Liveness()
    }

    /** `req` has just been counted as sent and is about to be passed to `_write`. */
    ghost predicate Loaded(req: Request) {
      && Order() && Finish() && !finished && (!ending || buffered != [])
      && taken <= |buffered| && (!processing ==> taken == 0)
      && multiset(sent) + multiset(Waiting()) == multiset(accepted)
      && multiset(called) + multiset(hand) + multiset(Callbacks(ticks)) + multiset{req} == multiset(sent)
      && pendingcb == |hand| + |ticks| + 1 + |Waiting()|
      && !writing && writecb == None && writelen == 0
      && sent != [] && req == sent[|sent| - 1]
      && length == req.size + TotalSize(Waiting())
    }

    /** Nothing is left to write after `end`. */
    ghost predicate Quiet() {
      ending && !writing && buffered == [] && length == 0
    }

    /** Nothing that a write depends on has changed, except that the write in flight may be over. */
    ghost predicate Idle(t: State) {
      && t.ending == ending && t.corked == corked && t.processing == processing && t.buffered == buffered
      && t.taken == taken && t.script == script && t.accepted == accepted && t.sent == sent && t.overtaken == overtaken
    }

    /** A write was held back. */
    ghost predicate Held(t: State, req: Request) {
      t == this.(pendingcb := pendingcb + 1, accepted := accepted + [req], length := length + req.size,
                 buffered := buffered + [req])
    }

    /** A write was passed on, past the requests that wait, and is in flight. */
    ghost predicate Passed(t: State, req: Request) {
      && t.sent == sent + [req] && t.writing && t.script == 0 && t.buffered == buffered && t.taken == taken
      && t.corked == corked && t.processing == processing && t.ending == ending
      && t.overtaken == (overtaken || Waiting() != [])
    }

    /** `clearBuffer` passed a request on, and then a write went past the others. */
    ghost predicate PassedTwo(t: State, req: Request) {
      && buffered != [] && t.sent == sent + [buffered[0], req] && t.buffered == buffered[1..] && t.writing
      && t.corked == 0 && !t.processing && t.ending == ending && t.overtaken == (overtaken || |buffered| > 1)
    }

    /** What every call keeps, whatever user code runs in it. */
    ghost predicate Keeps(t: State) {
      && KeepsBase(t) && t.hand == hand
      && (Quiet() ==> t.Quiet() && t.pendingcb == pendingcb && t.finished == finished)
    }

    ghost predicate KeepsBase(t: State) {
      && t.script <= script
      && t.processing == processing
      && (processing ==> t.taken == taken && buffered <= t.buffered)
      && (ending ==> t.ending && t.accepted == accepted)
      && accepted <= t.accepted && sent <= t.sent && called <= t.called && ticks <= t.ticks
      && (overtaken ==> t.overtaken)
    }
  }

  lemma AppendCallback(ticks: seq<Tick>, t: Tick)
    ensures Callbacks(ticks + [t]) == Callbacks(ticks) + [t.cb]
  {
  }

  lemma AppendSize(reqs: seq<Request>, req: Request)
    ensures TotalSize(reqs + [req]) == TotalSize(reqs) + req.size
  {
    assert (reqs + [req])[..|reqs|] == reqs;
  }

  /** Putting an element between the two parts of a sequence does not undo an inversion. */
  lemma StillInverted(s: seq<Request>, x: Request, w: seq<Request>)
    requires Inverted(s + w)
    ensures Inverted(s + [x] + w)
  {
    var u, v := s + w, s + [x] + w;
    var i, j :| 0 <= i < j < |u| && u[i].id > u[j].id;
    var i' := if i < |s| then i else i + 1;
    var j' := if j < |s| then j else j + 1;
    assert v[i'] == u[i] && v[j'] == u[j];
  }

  type Bag = multiset<Request>

  lemma Move2(a: Bag, b: Bag, x: Bag)
    ensures (a + x) + b == a + (x + b) == a + (b + x) == (a + b) + x
  {
  }

  lemma Move4(a: Bag, b: Bag, c: Bag, d: Bag, x: Bag)
    ensures (a + x) + b + c + d == a + (b + x) + c + d
    ensures a + (b + x) + c + d == a + b + (c + x) + d
    ensures a + (b + x) + c + multiset{} == a + b + c + x
    ensures c + x == x + c
  {
  }

  // One lemma for each change of the state between two pieces of user code.

  lemma EnqueueOrder(s: State, req: Request)
    requires s.Order() && s.taken <= |s.buffered| && req.id == |s.accepted|
    ensures s.(accepted := s.accepted + [req], buffered := s.buffered + [req]).Order()
  {
    var t := s.(accepted := s.accepted + [req], buffered := s.buffered + [req]);
    assert t.Waiting() == s.Waiting() + [req];
    if s.overtaken {
      var line := s.sent + s.Waiting();
      assert line + [] == line;
      StillInverted(line, req, []);
      assert t.sent + t.Waiting() == line + [req] + [];
    } else {
      assert t.sent + t.Waiting() == t.accepted;
    }
  }

  /** `write` while one is in flight or the stream is corked. */
  lemma Enqueue(s: State, req: Request)
    requires s.Inv() && !s.ending && (s.writing || s.corked > 0) && req.id == |s.accepted|
    ensures var t := s.(pendingcb := s.pendingcb + 1, accepted := s.accepted + [req],
                        length := s.length + req.size, buffered := s.buffered + [req]);
            t.Inv() && s.Keeps(t)
  {
    hide Inverted, Numbered, TotalSize, Callbacks;
    Move2(multiset(s.sent), multiset(s.Waiting()), multiset{req});
    EnqueueOrder(s, req);
    AppendSize(s.Waiting(), req);
    assert (s.buffered + [req])[s.taken..] == s.Waiting() + [req];
  }

  /** `write` straight to `_write`, past the requests that wait. */
  lemma Bypass(s: State, req: Request)
    requires s.Inv() && !s.ending && !s.writing && req.id == |s.accepted|
    ensures var t := s.(pendingcb := s.pendingcb + 1, accepted := s.accepted + [req],
                        length := s.length + req.size, sent := s.sent + [req],
                        overtaken := s.overtaken || s.Waiting() != []);
            t.Loaded(req) && s.Keeps(t)
  {
    Move2(multiset(s.sent), multiset(s.Waiting()), multiset{req});
    var t := s.(pendingcb := s.pendingcb + 1, accepted := s.accepted + [req],
                length := s.length + req.size, sent := s.sent + [req],
                overtaken := s.overtaken || s.Waiting() != []);
    var w := s.Waiting();
    assert t.Waiting() == w;
    if s.overtaken {
      StillInverted(s.sent, req, w);
    } else if w != [] {
      var line, n := t.sent + w, |s.sent|;
      assert s.accepted[n] == (s.sent + w)[n] == w[0];
      assert line[n] == req && line[n + 1] == w[0];
      assert line[n].id > line[n + 1].id;
    }
  }

  /** `clearBuffer` takes the next request. */
  lemma TakeNext(s: State)
    requires s.Sound() && s.processing && !s.writing && s.taken < |s.buffered|
    ensures s.(taken := s.taken + 1, sent := s.sent + [s.buffered[s.taken]]).Loaded(s.buffered[s.taken])
  {
    hide Inverted, Numbered, TotalSize, Callbacks, State.Order;
    Shift(s.sent, s.buffered[s.taken], s.buffered[s.taken + 1..], s.Waiting());
    TakeNextOrder(s);
  }

  lemma TakeNextOrder(s: State)
    requires s.Order() && s.taken < |s.buffered|
    ensures s.(taken := s.taken + 1, sent := s.sent + [s.buffered[s.taken]]).Order()
  {
    hide Inverted, Numbered;
    var req, rest := s.buffered[s.taken], s.buffered[s.taken + 1..];
    assert s.Waiting() == [req] + rest;
    assert s.sent + ([req] + rest) == s.sent + [req] + rest;
  }

  lemma Shift(sent: seq<Request>, req: Request, rest: seq<Request>, all: seq<Request>)
    requires all == [req] + rest
    ensures sent + all == sent + [req] + rest
    ensures TotalSize(all) == req.size + TotalSize(rest)
    ensures multiset(sent) + multiset(all) == multiset(sent + [req]) + multiset(rest)
    ensures multiset(sent + [req]) == multiset(sent) + multiset{req}
  {
    TotalSizeHead(all);
    assert all[1..] == rest;
    assert multiset(all) == multiset{req} + multiset(rest);
    Move2(multiset(sent), multiset(rest), multiset{req});
  }

  /** `doWrite` records the write in flight. */
  lemma Launch(s: State, req: Request)
    requires s.Loaded(req)
    ensures var t := s.(writing := true, writecb := Some(req), writelen := req.size); t.Inv() && s.Keeps(t)
  {
  }

  /** The write in flight is over; its callback has still to be called. */
  lemma FinishWrite(s: State)
    requires s.Inv() && s.writecb.Some?
    ensures var t := s.(length := s.length - s.writelen, writing := false, writecb := None, writelen := 0,
                        hand := s.hand + [s.writecb.value]);
            t.Sound() && !t.finished && (t.Inv() || (t.corked == 0 && !t.processing && t.buffered != [])) &&
                s.KeepsBase(t)
  {
    hide Inverted, Numbered, TotalSize, Callbacks;
    Move4(multiset(s.called), multiset(s.hand), multiset(Callbacks(s.ticks)), multiset{}, multiset{s.writecb.value});
  }

  /** The last callback in hand goes to the end of the queue. */
  lemma MoveLast(called: Bag, hand: seq<Request>, ticks: seq<Tick>, inFlight: Bag, t: Tick)
    requires hand != [] && t.cb == hand[|hand| - 1]
    ensures var h := hand[..|hand| - 1];
            && called + multiset(hand) + multiset(Callbacks(ticks)) + inFlight
               == called + multiset(h) + multiset(Callbacks(ticks + [t])) + inFlight
            && called + multiset(hand) + multiset(Callbacks(ticks)) + inFlight
               == (called + multiset{t.cb}) + multiset(h) + multiset(Callbacks(ticks)) + inFlight
  {
    hide Callbacks;
    var h := hand[..|hand| - 1];
    assert hand == h + [t.cb];
    assert multiset(hand) == multiset(h) + multiset{t.cb};
    AppendCallback(ticks, t);
    Move4(called, multiset(h), multiset(Callbacks(ticks)), inFlight, multiset{t.cb});
  }

  /** The callback goes to the `nextTick` queue. */
  lemma Postpone(s: State, done: bool)
    requires s.Inv() && s.hand != []
    ensures var n := |s.hand| - 1;
            var t := s.(hand := s.hand[..n], ticks := s.ticks + [Tick(done, s.hand[n])]);
            t.Inv() && s.KeepsBase(t)
  {
    hide Inverted, Numbered, TotalSize, Callbacks;
    MoveLast(multiset(s.called), s.hand, s.ticks, s.InFlight(), Tick(done, s.hand[|s.hand| - 1]));
  }

  /** The callback is called. */
  lemma CallBack(s: State)
    requires s.Inv() && s.hand != []
    ensures var n := |s.hand| - 1;
            var t := s.(pendingcb := s.pendingcb - 1, hand := s.hand[..n], called := s.called + [s.hand[n]]);
            t.Inv() && s.KeepsBase(t)
  {
    hide Inverted, Numbered, TotalSize, Callbacks;
    MoveLast(multiset(s.called), s.hand, s.ticks, s.InFlight(), Tick(true, s.hand[|s.hand| - 1]));
  }

  /** The event loop takes the first call of `afterWrite` out of the queue. */
  lemma TakeTick(s: State)
    requires s.Inv() && s.ticks != []
    ensures s.(ticks := s.ticks[1..], hand := s.hand + [s.ticks[0].cb]).Inv()
  {
    hide Inverted, Numbered, TotalSize;
    var rest, cb := s.ticks[1..], s.ticks[0].cb;
    assert Callbacks(s.ticks) == [cb] + Callbacks(rest);
    Move4(multiset(s.called), multiset(s.hand), multiset(Callbacks(rest)), s.InFlight(), multiset{cb});
  }

  /** A piece of user code starts. */
  lemma PopScript(s: State)
    requires s.Inv() && s.script > 0
    ensures var t := s.(script := s.script - 1); t.Inv() && s.Keeps(t)
  {
    assert s.(script := s.script - 1).Waiting() == s.Waiting();
  }

  lemma SameWaiting(s: State, t: State)
    requires t.buffered == s.buffered && t.taken == s.taken
    ensures t.Waiting() == s.Waiting()
  {
  }

  lemma SetCorked(s: State, corked: nat)
    requires s.Inv()
    ensures var t := s.(corked := corked);
            && t.Sound() && s.Keeps(t)
            && (corked > 0 || s.writing || s.processing || s.buffered == [] ==> t.Inv())
  {
    assert s.(corked := corked).Waiting() == s.Waiting();
  }

  lemma SetEnding(s: State)
    requires s.Inv() && !s.ending
    ensures var t := s.(ending := true); t.Inv() && s.Keeps(t) && !s.finished
  {
    assert s.(ending := true).Waiting() == s.Waiting();
  }

  /** `finish` is emitted. */
  lemma FinishNow(s: State)
    requires s.Inv() && s.ending && !s.finished && s.pendingcb == 0
    ensures var t := s.(finished := true, finishes := s.finishes + 1); t.Inv() && s.KeepsBase(t)
  {
    assert s.(finished := true).Waiting() == s.Waiting();
  }

  /** What a method may use of the invariant. */
  lemma Facts(s: State)
    requires s.Sound()
    ensures s.writing == s.writecb.Some? && s.taken <= |s.buffered| && (!s.processing ==> s.taken == 0)
    ensures s.finished ==> s.ending && s.pendingcb == 0 && s.Waiting() == []
  {
  }

  lemma InvIsSound(s: State)
    requires s.Inv()
    ensures s.Sound()
  {
  }

  lemma KeptFacts(s: State, t: State)
    requires s.Keeps(t) && t.Inv()
    ensures t.script <= s.script && t.processing == s.processing && t.Sound() && t.hand == s.hand
    ensures s.ending ==> t.ending
    ensures s.processing ==> t.taken == s.taken && s.buffered <= t.buffered
  {
  }

  lemma KeptQuiet(s: State, t: State)
    requires s.Keeps(t)
    ensures s.KeepsBase(t) && t.hand == s.hand
    ensures s.ending && !s.writing && s.buffered == [] && s.length == 0
        ==> t.ending && !t.writing && t.buffered == [] && t.length == 0
            && t.pendingcb == s.pendingcb && t.finished == s.finished
  {
  }

  lemma Unchanged(s: State)
    ensures s.Keeps(s)
  {
  }

  lemma KeepsTransitive(s: State, t: State, u: State)
    requires s.Keeps(t) && t.Keeps(u)
    ensures s.Keeps(u)
  {
  }

  lemma KeepsBaseTransitive(s: State, t: State, u: State)
    requires s.KeepsBase(t) && t.KeepsBase(u)
    ensures s.KeepsBase(u)
  {
  }

  /** A call that starts with a write in flight, or before `end`, starts with something left to do. */
  lemma KeepsWhenBusy(s: State, t: State)
    requires s.KeepsBase(t) && t.hand == s.hand && (s.writing || !s.ending)
    ensures s.Keeps(t)
  {
  }

  lemma StartProcessing(s: State)
    requires s.Sound() && !s.processing
    ensures s.(processing := true).Sound() && s.taken == 0
  {
    assert s.(processing := true).Waiting() == s.Waiting();
  }

  /** One more turn of `clearBuffer`. */
  lemma NextTurn(before: State, s: State)
    requires before.Keeps(s) && before.processing && s.taken < |s.buffered|
    ensures before.(taken := s.taken + 1).Keeps(s.(taken := s.taken + 1, sent := s.sent + [s.buffered[s.taken]]))
  {
  }

  /** The end of `clearBuffer`: the stale part of the list is dropped. */
  lemma Release(s: State, before: State)
    requires s.Sound() && s.processing && (s.writing || s.taken == |s.buffered|)
    requires before.(processing := true, taken := s.taken).Keeps(s)
    requires !before.processing && before.buffered != []
    ensures var t := s.(buffered := s.buffered[s.taken..], taken := 0, processing := false);
            t.Inv() && before.Keeps(t)
  {
    var t := s.(buffered := s.buffered[s.taken..], taken := 0, processing := false);
    assert t.Waiting() == s.Waiting();
  }

  lemma Launched(s: State, t: State, u: State, req: Request)
    requires t.buffered == s.buffered && t.taken == s.taken && t.sent == s.sent && t.overtaken == s.overtaken
    requires t.corked == s.corked && t.processing == s.processing && t.ending == s.ending
    ensures t.Passed(u, req) ==> s.Passed(u, req)
  {
    hide State.Waiting;
    SameWaiting(s, t);
  }

  lemma WaitingIs(s: State)
    requires s.taken <= |s.buffered|
    ensures s.Waiting() == s.buffered[s.taken..]
  {
  }

  lemma AfterPop(s: State, t: State, u: State, req: Request)
    requires s.script > 0 && t == s.(script := s.script - 1)
    ensures t.Passed(u, req) ==> s.Passed(u, req)
  {
    hide State.Waiting;
    SameWaiting(s, t);
  }

  lemma IdlePassed(s: State, t: State, u: State)
    requires s.Idle(t)
    ensures forall req :: t.Passed(u, req) ==> s.Passed(u, req)
  {
    hide State.Waiting;
    SameWaiting(s, t);
  }

  class Writable {
    const highWaterMark: nat
    var ending: bool
    var ended: bool
    var prefinished: bool
    var finished: bool
    var needDrain: bool
    var length: int
    var writing: bool
    var writelen: int
    var writecb: Option<Request>
    var sync: bool
    var corked: nat
    var bufferProcessing: bool
    /** The list at `bufferedRequest`; while it is being processed, `taken` of its nodes are stale. */
    var buffered: seq<Request>
    var pendingcb: int
    /** The pending calls of `afterWrite`. */
    var ticks: seq<Tick>
    /** What the next pieces of user code will do. */
    var script: seq<seq<Action>>
    /** The number of writes accepted, which names the next one. */
    var count: nat

    ghost var taken: nat
    /** The writes accepted, those passed to `_write` and those whose callback was called, in order. */
    ghost var accepted: seq<Request>
    ghost var sent: seq<Request>
    ghost var called: seq<Request>
    /** The callbacks of the calls of `afterWrite` that have not reached them yet. */
    ghost var hand: seq<Request>
    /** The number of `finish` events. */
    ghost var finishes: nat
    /** Some write went past buffered ones. */
    ghost var overtaken: bool

    ghost function Now(): State
      reads this
    {
      State(ending, finished, length, writing, writelen, writecb, corked, bufferProcessing, buffered, pendingcb,
            ticks, |script|, taken, accepted, sent, called, hand, finishes, overtaken)
    }

    ghost predicate Inv()
      reads this
    {
      Core() && Busy()
    }

    ghost predicate Core()
      reads this
    {
      Now().Inv() && count == |accepted| && TicksEnd()
    }

    /** What `afterWrite` was told about the end is true. */
    ghost predicate TicksEnd()
      reads this`ticks, this`ending
    {
      forall t :: t in ticks && t.finished ==> ending
    }

    /** User code does not find `clearBuffer` running, and nothing left to call back. */
    ghost predicate Busy()
      reads this`bufferProcessing, this`ticks, this`buffered, this`writing, this`sync, this`taken
    {
      !bufferProcessing || ticks != [] || taken < |buffered| || (writing && sync)
    }

    /** `finish` is due. */
    predicate Owing()
      reads this`ending, this`finished, this`pendingcb
    {
      ending && !finished && pendingcb == 0
    }

    /** A writer waits for `drain`, and there is nothing left that could lead to it. */
    ghost predicate Dry()
      reads this`needDrain, this`ending, this`ticks, this`writing, this`taken, this`buffered
    {
      needDrain && !ending && ticks == [] && !writing && taken >= |buffered|
    }

    /** Neither has come about. */
    twostate predicate Settled()
      reads this
    {
      (Owing() ==> old(Owing())) && (Dry() ==> old(Dry()))
    }

    /** The only user code left completes the write in flight at once, and writes again. */
    predicate WritesBack()
      reads this`script
    {
      |script| == 1 && |script[0]| == 2 && script[0][0].Complete? && script[0][1].Write?
    }

    /** What it writes. */
    function Answer(): Request
      reads this`script, this`count
    {
      Request(count, if WritesBack() then script[0][1].size else 0)
    }

    constructor (highWaterMark: nat, script: seq<seq<Action>>)
      ensures !writing && !ending && !needDrain && corked == 0 && buffered == [] && sent == [] &&
                this.highWaterMark == highWaterMark
      ensures Inv() && accepted == [] && hand == [] && !bufferProcessing && this.script == script
    {
      this.highWaterMark, this.script := highWaterMark, script;
      ending, ended, prefinished, finished, needDrain := false, false, false, false, false;
      length, writing, writelen, writecb, sync := 0, false, 0, None, true;
      corked, bufferProcessing, buffered, pendingcb, ticks := 0, false, [], 0, [];
      count, taken, accepted, sent, called, hand, finishes, overtaken := 0, 0, [], [], [], [], 0, false;
    }

    /** A piece of user code: the next list of actions of the script. */
    method RunUser()
      requires Inv()
      modifies this
      ensures Inv() && old(Now()).Keeps(Now()) && |script| <= old(|script|)
      ensures Settled()
      ensures old(script) != [] ==> |script| < old(|script|)
      ensures old(script) == [] ==>
                Now() == old(Now()) && script == [] && needDrain == old(needDrain) && prefinished == old(prefinished)
      ensures old(WritesBack() && bufferProcessing && writing && sync && !ending && corked == 0) ==>
                script == [] && old(Now()).Passed(Now(), old(Answer()))
      decreases |script|, 0, 0
    {
      hide State.Inv, State.Sound, State.Keeps, State.KeepsBase, State.Loaded, State.Waiting, Writable.TicksEnd,
           State.Passed, State.Held;
      Unchanged(Now());
      if script == [] {
        return;
      }
      PopScript(Now());
      var actions := script[0];
      script := script[1..];
      ghost var popped := Now();
      PerformAll(actions);
      KeepsTransitive(old(Now()), popped, Now());
      AfterPop(old(Now()), popped, Now(), old(Answer()));
    }

    method PerformAll(actions: seq<Action>)
      requires Inv()
      modifies this
      ensures Inv() && old(Now()).Keeps(Now()) && |script| <= old(|script|)
      ensures Settled()
      ensures old(script == [] && bufferProcessing && writing && sync && !ending && corked == 0) &&
              |actions| == 2 && actions[0].Complete? && actions[1].Write? ==>
                script == [] && old(Now()).Passed(Now(), Request(old(count), actions[1].size))
      ensures old(script == [] && !writing && !ending && corked == 0) && |actions| == 1 && actions[0].Write? ==>
                script == [] && old(Now()).Passed(Now(), Request(old(count), actions[0].size))
      ensures actions == [] ==> Now() == old(Now()) && script == old(script) && count == old(count)
      decreases |script|, 7, |actions|
    {
      hide State.Inv, State.Sound, State.Keeps, State.KeepsBase, State.Loaded, State.Waiting, Writable.TicksEnd,
           State.Passed, State.Held;
      ghost var start := Now();
      Unchanged(start);
      if actions != [] {
        Perform(actions[0]);
        ghost var next := Now();
        PerformAll(actions[1..]);
        KeepsTransitive(start, next, Now());
        if start.Idle(next) {
          IdlePassed(start, next, Now());
        }
      }
    }

    method Perform(action: Action)
      requires Inv()
      modifies this
      ensures Inv() && old(Now()).Keeps(Now()) && |script| <= old(|script|)
      ensures Settled()
      ensures action.Write? && !old(ending) ==> old(accepted) + [Request(old(count), action.size)] <= accepted
      ensures action.Cork? ==> Now() == old(Now()).(corked := old(corked) + 1) && script == old(script)
      ensures action.Write? && !old(ending) && old(writing || corked > 0) ==>
                old(Now()).Held(Now(), Request(old(count), action.size)) && script == old(script)
      ensures action.Write? && old(!ending && !writing && corked == 0 && Now().Waiting() != []) ==> overtaken
      ensures action.Write? && old(!ending && !writing && corked == 0 && script == []) ==>
                old(Now()).Passed(Now(), Request(old(count), action.size)) && script == []
      ensures action.End? ==> ending && (old(script) == [] ==> corked == 0)
      ensures action.End? && old(corked > 0 && !writing && !bufferProcessing && buffered != []) ==>
                old(sent) + [old(buffered)[0]] <= sent
      ensures action.Complete? && old(writing && sync && bufferProcessing) ==>
                old(Now()).Idle(Now()) && !writing && script == old(script) && count == old(count)
      ensures action.Complete? && old(writing && corked == 0 && !bufferProcessing && buffered != []) ==>
                old(sent) + [old(buffered)[0]] <= sent
      ensures action.Uncork? &&
              old(WritesBack() && corked == 1 && !writing && !bufferProcessing && !ending && buffered != []) ==>
                script == [] && old(Now()).PassedTwo(Now(), old(Answer()))
      ensures action.Complete? && old(writing) ==> |called| + |ticks| > old(|called| + |ticks|)
      decreases |script|, 6
    {
      hide State.Inv, State.Sound, State.Keeps, State.KeepsBase, State.Loaded, State.Waiting, Writable.TicksEnd,
           State.Passed, State.Held;
      match action
      case Write(size) => var _ := WriteChunk(size);
      case Cork =>
        SetCorked(Now(), corked + 1);
        corked := corked + 1;
      case Uncork => UncorkStream();
      case End => EndStream();
      case Complete => OnWrite();
    }

    /** `write`. */
    method WriteChunk(size: nat) returns (more: bool)
      requires Inv()
      modifies this
      ensures Inv() && old(Now()).Keeps(Now()) && |script| <= old(|script|)
      ensures Settled()
      ensures if old(ending) then !more && accepted == old(accepted)
              else
                && more == (old(length) + size < highWaterMark)
                && old(accepted) + [Request(old(count), size)] <= accepted
      ensures old(!ending && (writing || corked > 0)) ==>
                old(Now()).Held(Now(), Request(old(count), size)) && script == old(script)
      ensures old(!ending && !writing && corked == 0 && script == []) ==>
                old(Now()).Passed(Now(), Request(old(count), size)) && script == []
      ensures old(!ending && !writing && corked == 0 && Now().Waiting() != []) ==> overtaken
      // who is told to wait will be told to go on
      ensures old(!ending && (writing || corked > 0 || script == [])) ==> needDrain == (old(needDrain) || !more)
      decreases |script|, 4
    {
      hide State.Inv, State.Sound, State.Keeps, State.KeepsBase, State.Loaded, State.Waiting, Writable.TicksEnd,
           State.Passed, State.Held;
      Unchanged(Now());
      if ending {
        return false;
      }
      more := WriteOrBuffer(size);
    }

    /** `writeOrBuffer`. */
    method WriteOrBuffer(size: nat) returns (more: bool)
      requires Inv() && !ending
      modifies this
      ensures Inv() && old(Now()).Keeps(Now()) && |script| <= old(|script|)
      ensures !Owing() && !Dry()
      ensures more == (old(length) + size < highWaterMark) && old(accepted) + [Request(old(count), size)] <= accepted
      ensures old(!ending && (writing || corked > 0)) ==>
                old(Now()).Held(Now(), Request(old(count), size)) && script == old(script)
      ensures old(!ending && !writing && corked == 0 && script == []) ==>
                old(Now()).Passed(Now(), Request(old(count), size)) && script == []
      ensures old(!ending && !writing && corked == 0 && Now().Waiting() != []) ==> overtaken
      // who is told to wait will be told to go on
      ensures old(!ending && (writing || corked > 0 || script == [])) ==> needDrain == (old(needDrain) || !more)
      decreases |script|, 3
    {
      hide State.Inv, State.Sound, State.Keeps, State.KeepsBase, State.Loaded, State.Waiting, Writable.TicksEnd,
           State.Passed, State.Held;
      var req := Request(count, size);
      more := length + size < highWaterMark;
      if !more {
        needDrain := true;
      }
      if writing || corked > 0 {
        HoldBack(req);
      } else {
        PassOn(req);
      }
    }

    /** `writeOrBuffer` while a write is in flight or the stream is corked. */
    method HoldBack(req: Request)
      requires Inv() && !ending && (writing || corked > 0) && req.id == count
      modifies this
      ensures Inv() && old(Now()).Keeps(Now()) && script == old(script)
      ensures !Owing() && !Dry()
      ensures old(Now()).Held(Now(), req) && accepted == old(accepted) + [req] && needDrain == old(needDrain)
    {
      hide State.Inv, State.Sound, State.Keeps, State.KeepsBase, State.Loaded, State.Waiting, Writable.TicksEnd;
      Enqueue(Now(), req);
      InvIsSound(Now());
      Facts(Now());
      Count(req, Now());
      buffered := buffered + [req];
    }

    /** What `write` and `writeOrBuffer` count in either case. */
    method Count(req: Request, ghost s: State)
      requires s == Now()
      modifies this`count, this`pendingcb, this`length, this`accepted
      ensures Now() == s.(pendingcb := s.pendingcb + 1, accepted := s.accepted + [req], length := s.length + req.size)
      ensures count == old(count) + 1
    {
      count, pendingcb, accepted := count + 1, pendingcb + 1, accepted + [req];
      length := length + req.size;
    }

    /** `writeOrBuffer` when nothing holds the write back. */
    method PassOn(req: Request)
      requires Inv() && !ending && !writing && corked == 0 && req.id == count
      modifies this
      ensures Inv() && old(Now()).Keeps(Now()) && |script| <= old(|script|)
      ensures !Owing() && !Dry()
      ensures old(accepted) + [req] <= accepted && old(sent) + [req] <= sent
      ensures old(script) == [] ==> old(Now()).Passed(Now(), req) && script == [] && needDrain == old(needDrain)
      ensures old(Now().Waiting() != []) ==> overtaken
      decreases |script|, 2
    {
      hide State.Inv, State.Sound, State.Keeps, State.KeepsBase, State.Loaded, State.Waiting, Writable.TicksEnd,
           State.Held;
      ghost var s := Now();
      Bypass(s, req);
      InvIsSound(s);
      Facts(s);
      Count(req, s);
      SameWaiting(s, Now());
      Send(req, Now());
      ghost var t := Now();
      DoWrite(req, s);
      KeptHistory(t, Now());
    }

    /** The write is the next one to reach `_write`. */
    method Send(req: Request, ghost s: State)
      requires s == Now()
      modifies this`sent, this`overtaken
      ensures Now() == s.(sent := s.sent + [req], overtaken := s.overtaken || s.Waiting() != [])
    {
      hide State.Waiting;
      overtaken := overtaken || s.Waiting() != [];
      sent := sent + [req];
    }

    /** `doWrite`; `s` is a state since which nothing was lost. */
    method DoWrite(req: Request, ghost s: State)
      requires Now().Loaded(req) && count == |accepted| && s.Keeps(Now()) && TicksEnd()
      modifies this
      ensures Core() && !Owing() && !Dry() && !sync
      ensures s.Keeps(Now()) && old(Now()).KeepsBase(Now()) && |script| <= old(|script|)
      ensures old(script) == [] ==>
                Now() == old(Now()).(writing := true, writecb := Some(req), writelen := req.size) && script == []
                && needDrain == old(needDrain)
      ensures old(WritesBack() && bufferProcessing && !ending && corked == 0) ==>
                script == [] && old(Now()).Passed(Now(), old(Answer()))
      ensures old(script) != [] ==> |script| < old(|script|)
      ensures old(bufferProcessing) ==> bufferProcessing && taken == old(taken) && old(buffered) <= buffered
      decreases |script|, 1
    {
      hide State.Inv, State.Sound, State.Keeps, State.KeepsBase, State.Loaded, State.Waiting, Writable.TicksEnd,
           State.Passed, State.Held;
      ghost var r := Now();
      Launch(r, req);
      LoadedPends(r, req);
      SetInFlight(req, r);
      ghost var t := Now();
      RunUser();
      KeepsTransitive(r, t, Now());
      KeepsTransitive(s, r, Now());
      KeptFacts(t, Now());
      KeptQuiet(r, Now());
      sync := false;
      Launched(r, t, Now(), old(Answer()));
    }

    /** The assignments of `doWrite`. */
    method SetInFlight(req: Request, ghost s: State)
      requires s == Now()
      modifies this`writelen, this`writecb, this`writing, this`sync
      ensures Now() == s.(writing := true, writecb := Some(req), writelen := req.size) && sync
    {
      writelen, writecb, writing, sync := req.size, Some(req), true, true;
    }

    /** `clearBuffer`. */
    method ClearBuffer()
      requires Now().Sound() && count == |accepted| && TicksEnd() && !bufferProcessing && !writing && buffered != []
      modifies this
      ensures Inv() && old(Now()).Keeps(Now()) && |script| <= old(|script|)
      ensures !Owing() && !Dry()
      ensures old(script) == [] ==>
                script == [] && called == old(called) && ticks == old(ticks) && corked == old(corked)
      ensures old(sent) + [old(buffered)[0]] <= sent && (writing || buffered == [])
      ensures old(WritesBack() && !ending && corked == 0) ==> script == [] && old(Now()).PassedTwo(Now(), old(Answer()))
      decreases |script|, 3
    {
      hide State.Inv, State.Sound, State.Keeps, State.KeepsBase, State.Loaded, State.Waiting, Writable.TicksEnd,
           State.Passed, State.Held;
      ghost var before := Now();
      StartProcessing(before);
      bufferProcessing := true;
      ghost var s := Now();
      var r := 0;
      Unchanged(s);
      while r < |buffered|
        invariant taken == r <= |buffered| && bufferProcessing && !writing && Now().Sound() && count == |accepted|
        invariant TicksEnd() && (r > 0 ==> !Owing() && !Dry()) && before.buffered <= buffered
        invariant if r > 0 then before.sent + [before.buffered[0]] <= sent else Now() == s
        invariant r == 0 ==> script == old(script) && count == old(count)
        invariant old(script) == [] ==> r == 0
        invariant old(WritesBack() && !ending && corked == 0) ==> r == 0
        invariant s == before.(processing := true, taken := r) && s.Keeps(Now())
        invariant |script| <= before.script
        decreases |script|
      {
        PassNext(s, r);
        s := s.(taken := r + 1);
        r := r + 1;
        if writing {
          break;
        }
      }
      StopProcessing(before, r);
    }

    /** The body of the loop of `clearBuffer`. */
    method PassNext(ghost s: State, r: nat)
      requires taken == r < |buffered| && bufferProcessing && !writing && Now().Sound() && count == |accepted| &&
                TicksEnd()
      requires s.Keeps(Now()) && s.processing && s.taken == r
      modifies this
      ensures Core() && !Owing() && !Dry() && Now().Sound() && s.(taken := r + 1).Keeps(Now()) &&
                |script| <= old(|script|)
      ensures bufferProcessing && taken == r + 1 <= |buffered|
      ensures old(script) == [] ==>
                writing && script == [] && called == old(called) && ticks == old(ticks) && corked == old(corked)
      ensures old(sent) + [old(buffered)[r]] <= sent && old(buffered) <= buffered
      ensures old(WritesBack() && !ending && corked == 0) ==>
                && script == [] && writing && corked == 0 && ending == old(ending) && buffered == old(buffered)
                && sent == old(sent) + [old(buffered)[r], old(Answer())]
                && overtaken == (old(overtaken) || r + 1 < |buffered|)
      ensures old(script) != [] ==> |script| < old(|script|)
      decreases |script|, 2
    {
      hide State.Inv, State.Sound, State.Keeps, State.KeepsBase, State.Loaded, State.Waiting, Writable.TicksEnd,
           State.Held;
      var req := buffered[r];
      TakeNext(Now());
      NextTurn(s, Now());
      taken, sent := taken + 1, sent + [req];
      ghost var t := Now();
      WaitingIs(t);
      DoWrite(req, s.(taken := r + 1));
      InvIsSound(Now());
      KeptHistory(t, Now());
    }

    /** The end of `clearBuffer`. */
    method StopProcessing(ghost before: State, r: nat)
      requires Now().Sound() && bufferProcessing && taken == r <= |buffered| && (writing || r == |buffered|)
      requires before.(processing := true, taken := r).Keeps(Now()) && count == |accepted| && TicksEnd() &&
                !Owing() && !Dry()
      requires !before.processing && before.buffered != []
      modifies this
      ensures Inv() && !Owing() && !Dry() && before.Keeps(Now()) && script == old(script) && (writing || buffered == [])
      ensures var s := old(Now()); Now() == s.(buffered := s.buffered[r..], taken := 0, processing := false)
    {
      hide State.Inv, State.Sound, State.Keeps, State.KeepsBase, State.Loaded, State.Waiting, Writable.TicksEnd,
           State.Passed, State.Held;
      Release(Now(), before);
      buffered := buffered[r..];
      taken := 0;
      bufferProcessing := false;
    }

    /** `needFinish`. */
    predicate NeedFinish()
      reads this
    {
      ending && length == 0 && buffered == [] && !finished && !writing
    }

    /** `onwrite` without an error; a call with no write in flight throws and changes nothing. */
    method OnWrite()
      requires Inv()
      modifies this
      ensures Inv() && old(Now()).Keeps(Now()) && |script| <= old(|script|)
      ensures Settled() && (old(writing) ==> !Owing() && !Dry())
      // the callback of the write is called now, or when the tick runs
      ensures old(writing && sync) ==> exists t :: t in ticks && t.cb == old(writecb).value
      ensures old(writing && !sync) ==> old(writecb).value in called
      ensures old(script == [] && writing) ==>
                && script == []
                && if old(sync) then called == old(called) && Callbacks(ticks) ==
                     Callbacks(old(ticks)) + [old(writecb).value]
                   else called == old(called) + [old(writecb).value] && ticks == old(ticks)
      ensures old(writing) ==> |called| + |ticks| > old(|called| + |ticks|)
      ensures old(writing && sync && bufferProcessing) ==>
                old(Now()).Idle(Now()) && !writing && script == old(script) && count == old(count)
      ensures old(writing && corked == 0 && !bufferProcessing && buffered != []) ==>
                old(sent) + [old(buffered)[0]] <= sent
      decreases |script|, 5
    {
      hide State.Inv, State.Sound, State.Keeps, State.KeepsBase, State.Loaded, State.Waiting, Writable.TicksEnd,
           State.Passed, State.Held;
      ghost var s := Now();
      Unchanged(s);
      InvIsSound(s);
      Facts(s);
      if writecb.None? {
        return;
      }
      var wasSync, cb := sync, writecb.value;
      FinishWrite(s);
      ClearInFlight(cb, s);
      ghost var t := Now();
      var done := NeedFinish();
      if !done && corked == 0 && !bufferProcessing && buffered != [] {
        ClearBuffer();
        KeptQuiet(t, Now());
        KeptHistory(t, Now());
        KeepsBaseTransitive(s, t, Now());
      }
      Settle(wasSync, done, cb, s);
      KeepsWhenBusy(s, Now());
    }

    /** `onwriteStateUpdate`. */
    method ClearInFlight(cb: Request, ghost s: State)
      requires s == Now()
      modifies this`length, this`writing, this`writecb, this`writelen, this`hand
      ensures Now() == s.(length := s.length - s.writelen, writing := false, writecb := None, writelen := 0,
                          hand := s.hand + [cb])
    {
      length := length - writelen;
      writing, writecb, writelen := false, None, 0;
      hand := hand + [cb];
    }

    /** The end of `onwrite`: the callback now or in the next tick. */
    method Settle(wasSync: bool, done: bool, cb: Request, ghost s: State)
      requires Core() && (Busy() || wasSync) && (done ==> ending) && s.KeepsBase(Now()) && hand == s.hand + [cb]
      modifies this
      ensures Inv() && s.KeepsBase(Now()) && hand == s.hand && |script| <= old(|script|)
      ensures |called| + |ticks| > old(|called| + |ticks|)
      ensures !Owing() && !Dry() && old(sent) <= sent
      ensures if wasSync then ticks == old(ticks) + [Tick(done, cb)] && called == old(called) else cb in called
      ensures old(script) == [] ==> script == [] && (!wasSync ==> called == old(called) + [cb] && ticks == old(ticks))
      ensures old(script) == [] ==> needDrain == (old(needDrain) && (wasSync || done || old(length) != 0))
      ensures wasSync ==>
                old(Now()).Idle(Now()) && writing == old(writing) && script == old(script) && count == old(count)
      decreases |script|, 4
    {
      hide State.Inv, State.Sound, State.Keeps, State.KeepsBase, State.Loaded, State.Waiting, State.Passed, State.Held;
      ghost var t := Now();
      if wasSync {
        Postpone(t, done);
        Pends(t);
        hand := hand[..|hand| - 1];
        ticks := ticks + [Tick(done, cb)];
      } else {
        AfterWrite(done, cb);
      }
      KeptHistory(t, Now());
      KeepsBaseTransitive(s, t, Now());
    }

    /** `afterWrite`. */
    method AfterWrite(done: bool, cb: Request)
      requires Inv() && (done ==> ending) && hand != [] && hand[|hand| - 1] == cb
      modifies this
      ensures Inv() && old(Now()).KeepsBase(Now()) && |script| <= old(|script|)
      ensures !Owing() && !Dry() && cb in called
      ensures old(script) == [] ==>
                && script == [] && called == old(called) + [cb] && ticks == old(ticks)
                && needDrain == (old(needDrain) && (done || old(length) != 0))
      ensures hand == old(hand)[..|old(hand)| - 1] && |called| > old(|called|) && |ticks| >= old(|ticks|)
      decreases |script|, 3
    {
      hide State.Inv, State.Sound, State.Keeps, State.KeepsBase, State.Loaded, State.Waiting, Writable.TicksEnd,
           State.Passed, State.Held;
      ghost var s := Now();
      if !done {
        OnWriteDrain();
      } else {
        Unchanged(s);
      }
      KeptQuiet(s, Now());
      KeptHistory(s, Now());
      ghost var t := Now();
      CallCallback(cb);
      KeepsBaseTransitive(s, t, Now());
    }

    /** `onwriteDrain`. */
    method OnWriteDrain()
      requires Inv()
      modifies this
      ensures Inv() && old(Now()).Keeps(Now()) && |script| <= old(|script|)
      ensures (Owing() ==> old(Owing())) && !Dry()
      // `drain` is emitted: user code runs
      ensures old(length == 0 && needDrain && script != []) ==> |script| < old(|script|)
      ensures old(script) == [] ==> Now() == old(Now()) && script == [] && needDrain == (old(needDrain) && length != 0)
      decreases |script|, 2
    {
      hide State.Inv, State.Sound, State.Keeps, State.KeepsBase, State.Loaded, State.Waiting, Writable.TicksEnd,
           State.Passed, State.Held;
      Unchanged(Now());
      InvIsSound(Now());
      NothingToDo(Now());
      if length == 0 && needDrain {
        needDrain := false;
        RunUser();
      }
    }

    /** The rest of `afterWrite`. */
    method CallCallback(cb: Request)
      requires Inv() && !Dry() && hand != [] && hand[|hand| - 1] == cb
      modifies this
      ensures Inv() && old(Now()).KeepsBase(Now()) && |script| <= old(|script|)
      ensures !Owing() && !Dry() && cb in called
      // the callback is called: user code runs
      ensures old(script) != [] ==> |script| < old(|script|)
      ensures old(script) == [] ==>
                script == [] && called == old(called) + [cb] && ticks == old(ticks) && needDrain == old(needDrain)
      ensures hand == old(hand)[..|old(hand)| - 1] && |called| > old(|called|) && |ticks| >= old(|ticks|)
      decreases |script|, 2
    {
      hide State.Inv, State.Sound, State.Keeps, State.KeepsBase, State.Loaded, State.Waiting, Writable.TicksEnd;
      ghost var s, i := Now(), |called|;
      Return(cb);
      ghost var t := Now();
      var _ := FinishMaybe();
      KeptHistory(t, Now());
      KeepsBaseTransitive(s, t, Now());
      assert called[i] == cb;
    }

    method Return(cb: Request)
      requires Inv() && !Dry() && hand != [] && hand[|hand| - 1] == cb
      modifies this
      ensures Inv() && !Dry() && old(Now()).KeepsBase(Now()) && |script| <= old(|script|)
      ensures old(called) + [cb] <= called && |ticks| >= old(|ticks|) && hand == old(hand)[..|old(hand)| - 1]
      ensures old(script) != [] ==> |script| < old(|script|)
      ensures old(script) == [] ==>
                script == [] && called == old(called) + [cb] && ticks == old(ticks) && needDrain == old(needDrain)
      decreases |script|, 1
    {
      hide State.Inv, State.Sound, State.Keeps, State.KeepsBase, State.Loaded, State.Waiting, Writable.TicksEnd;
      ghost var s := Now();
      CallBack(s);
      pendingcb := pendingcb - 1;
      hand, called := hand[..|hand| - 1], called + [cb];
      ghost var t := Now();
      RunUser();
      KeptQuiet(t, Now());
      KeptHistory(t, Now());
      KeepsBaseTransitive(s, t, Now());
    }

    /** `finishMaybe`. */
    method FinishMaybe() returns (need: bool)
      requires Inv()
      modifies this
      ensures Inv() && old(Now()).KeepsBase(Now()) && |script| <= old(|script|) && hand == old(hand)
      ensures !Owing() && (Dry() ==> old(Dry()))
      ensures old(script) == [] ==>
                && script == [] && called == old(called) && ticks == old(ticks) && corked == old(corked)
                && needDrain == old(needDrain) && (need ==> prefinished)
      // `prefinish` and `finish` are emitted: user code runs
      ensures old(script) != [] && need && (!old(prefinished) || old(pendingcb) == 0) ==> |script| < old(|script|)
      ensures need == old(NeedFinish()) && finished == (old(finished) || (need && old(pendingcb) == 0))
      decreases |script|, 1
    {
      hide State.Inv, State.Sound, State.Keeps, State.KeepsBase, State.Loaded, State.Waiting, Writable.TicksEnd;
      ghost var s := Now();
      Unchanged(s);
      KeptQuiet(s, s);
      need := NeedFinish();
      OwingNeeds();
      if need {
        Prefinish();
        KeptQuiet(s, Now());
        if pendingcb == 0 {
          ghost var t := Now();
          EmitFinish();
          KeepsBaseTransitive(s, t, Now());
        }
      }
    }

    /** `prefinish`. */
    method Prefinish()
      requires Inv()
      modifies this
      ensures Inv() && old(Now()).Keeps(Now()) && |script| <= old(|script|)
      ensures Settled() && (old(!prefinished && script != []) ==> |script| < old(|script|))
      ensures old(script) == [] ==> Now() == old(Now()) && script == [] && prefinished && needDrain == old(needDrain)
      decreases |script|, 0, 1
    {
      hide State.Inv, State.Sound, State.Keeps, State.KeepsBase, State.Loaded, State.Waiting, Writable.TicksEnd;
      Unchanged(Now());
      if !prefinished {
        prefinished := true;
        RunUser();
      }
    }

    method EmitFinish()
      requires Inv() && ending && !finished && pendingcb == 0 && !writing && buffered == [] && length == 0
      modifies this
      ensures Settled() && (old(script) != [] ==> |script| < old(|script|))
      ensures old(script) == [] ==>
                && script == [] && called == old(called) && ticks == old(ticks) && corked == old(corked)
                && needDrain == old(needDrain) && prefinished == old(prefinished)
      ensures Inv() && old(Now()).KeepsBase(Now()) && |script| <= old(|script|) && hand == old(hand) && finished
      decreases |script|, 0, 1
    {
      hide State.Inv, State.Sound, State.Keeps, State.KeepsBase, State.Loaded, State.Waiting, Writable.TicksEnd;
      ghost var s := Now();
      FinishNow(s);
      finished := true;
      finishes := finishes + 1;
      ghost var t := Now();
      RunUser();
      KeptQuiet(t, Now());
      KeepsBaseTransitive(s, t, Now());
    }

    /** When `finish` is due, nothing stands in its way. */
    lemma OwingNeeds()
      requires Inv()
      ensures Owing() ==> NeedFinish()
    {
      hide State.Order;
      Pends(Now());
    }

    /** `uncork`. */
    method UncorkStream()
      requires Inv()
      modifies this
      ensures Settled()
      ensures Inv() && old(Now()).Keeps(Now()) && |script| <= old(|script|)
      ensures old(script) == [] ==> script == [] && corked == (if old(corked) > 0 then old(corked) - 1 else 0)
      ensures var s := old(Now());
              old(corked) == 1 && !s.writing && !s.processing && s.buffered != [] ==> s.sent + [s.buffered[0]] <= sent
      ensures var s := old(Now());
              !(old(corked) == 1 && !s.writing && !s.processing && s.buffered != []) ==>
                Now() == s.(corked := if s.corked > 0 then s.corked - 1 else 0) && script == old(script)
      ensures old(WritesBack() && corked == 1 && !writing && !bufferProcessing && !ending && buffered != []) ==>
                script == [] && old(Now()).PassedTwo(Now(), old(Answer()))
      decreases |script|, 4
    {
      hide State.Inv, State.Sound, State.Keeps, State.KeepsBase, State.Loaded, State.Waiting, Writable.TicksEnd,
           State.Passed, State.Held;
      ghost var s := Now();
      Unchanged(s);
      if corked > 0 {
        SetCorked(s, corked - 1);
        corked := corked - 1;
        ghost var t := Now();
        if !writing && corked == 0 && !bufferProcessing && buffered != [] {
          ClearBuffer();
          KeepsTransitive(s, t, Now());
        }
      }
    }

    /** `end`. */
    method EndStream()
      requires Inv()
      modifies this
      ensures Settled()
      ensures Inv() && old(Now()).Keeps(Now()) && |script| <= old(|script|) && ending
      // whatever was corked is let go
      ensures old(script) == [] ==> corked == 0 && script == []
      ensures old(corked > 0 && !writing && !bufferProcessing && buffered != []) ==>
                old(sent) + [old(buffered)[0]] <= sent
      decreases |script|, 5
    {
      hide State.Inv, State.Sound, State.Keeps, State.KeepsBase, State.Loaded, State.Waiting, Writable.TicksEnd,
           State.Passed, State.Held;
      ghost var s := Now();
      Unchanged(s);
      if corked > 0 {
        SetCorked(s, 1);
        corked := 1;
        ghost var t := Now();
        UncorkStream();
        KeepsTransitive(s, t, Now());
      }
      if !ending {
        ghost var t := Now();
        EndWritable();
        KeepsTransitive(s, t, Now());
        KeptQuiet(t, Now());
        KeptHistory(t, Now());
      }
    }

    /** `endWritable`. */
    method EndWritable()
      requires Inv() && !ending
      modifies this
      ensures Settled()
      ensures Inv() && old(Now()).Keeps(Now()) && |script| <= old(|script|) && ending && ended
      ensures old(script) == [] ==> script == [] && corked == old(corked)
      decreases |script|, 3
    {
      hide State.Inv, State.Sound, State.Keeps, State.KeepsBase, State.Loaded, State.Waiting, State.Passed, State.Held;
      ghost var s := Now();
      SetEnding(s);
      ending := true;
      KeptQuiet(s, Now());
      ghost var t := Now();
      var _ := FinishMaybe();
      KeptHistory(t, Now());
      KeepsBaseTransitive(s, t, Now());
      KeepsWhenBusy(s, Now());
      ended := true;
    }

    /** The event loop runs the next call of `afterWrite`. */
    method RunTick()
      requires Inv() && !bufferProcessing
      modifies this
      ensures Settled() && (old(ticks) != [] ==> !Owing() && !Dry() && old(ticks)[0].cb in called)
      ensures old(ticks != [] && script == []) ==>
                called == old(called) + [old(ticks)[0].cb] && ticks == old(ticks)[1..]
      ensures Inv() && |script| <= old(|script|)
      ensures old(ticks != [] && script == []) ==>
                needDrain == old(needDrain && (ticks[0].finished || length != 0))
      ensures bufferProcessing == old(bufferProcessing) && old(accepted) <= accepted && old(sent) <= sent
      ensures hand == old(hand) && (old(ticks) != [] ==> |called| > old(|called|)) && (old(ending) ==> ending)
    {
      hide State.Inv, State.Sound, State.Keeps, State.KeepsBase, State.Loaded, State.Waiting, State.Passed, State.Held;
      ghost var s := Now();
      if ticks == [] {
        return;
      }
      TakeTick(s);
      var tick := ticks[0];
      ticks, hand := ticks[1..], hand + [tick.cb];
      ghost var t := Now();
      AfterWrite(tick.finished, tick.cb);
      KeptHistory(t, Now());
    }
  }

  /** What happens to a stream outside of its own calls. */
  datatype Event = Call(action: Action) | NextTick

  /** Any run: any events, with any user code in between. */
  method Run(highWaterMark: nat, script: seq<seq<Action>>, events: seq<Event>) returns (stream: Writable)
    ensures stream.Inv() && !stream.bufferProcessing
    ensures stream.sent + stream.buffered == stream.accepted <==> !stream.overtaken
    ensures Call(End) in events ==> stream.ending
    // it is finished exactly when it was ended and every accepted write was called back
    ensures stream.finished <==> stream.ending && multiset(stream.called) == multiset(stream.accepted)
    // a writer that was told to wait has a write in flight, one that waits, or a completed one not called back
    ensures stream.needDrain && !stream.ending ==> stream.writing || stream.buffered != [] || stream.ticks != []
    // what is buffered waits for a write in flight or for `uncork`
    ensures stream.buffered != [] ==> stream.writing || stream.corked > 0
    // an ended stream finishes as soon as `_write` and the event loop have done their part
    ensures stream.ending && stream.corked == 0 && !stream.writing && stream.ticks == [] ==> stream.finished
  {
    hide State.Inv, State.Keeps;
    stream := new Writable(highWaterMark, script);
    var i := 0;
    while i < |events|
      invariant i <= |events| && stream.Inv() && !stream.bufferProcessing && fresh(stream) && !stream.Owing() && !stream.Dry()
      invariant stream.hand == [] && (Call(End) in events[..i] ==> stream.ending)
    {
      assert events[..i + 1] == events[..i] + [events[i]];
      match events[i] {
        case Call(action) =>
          ghost var s := stream.Now();
          stream.Perform(action);
          KeptFacts(s, stream.Now());
        case NextTick => stream.RunTick();
      }
      i := i + 1;
    }
    assert events[..i] == events;
    InOrder(stream.Now());
    AllWait(stream.Now());
    AllCalledBack(stream.Now());
    AllMove(stream.Now());
  }

  /** Between events, every callback to come has something that leads to it, or waits for `uncork`. */
  lemma AllMove(s: State)
    requires s.Inv() && !s.processing && s.hand == []
    ensures s.buffered != [] ==> s.writing || s.corked > 0
    ensures s.corked == 0 && !s.writing && s.ticks == [] ==> s.pendingcb == 0
  {
    hide State.Order;
  }

  /** No callback is to come exactly when those of all accepted writes were called. */
  lemma AllCalledBack(s: State)
    requires s.Inv()
    ensures s.pendingcb == 0 <==> multiset(s.called) == multiset(s.accepted)
    ensures s.finished ==> s.ending && s.pendingcb == 0
  {
    hide State.Order;
    assert |multiset(s.called)| == |s.called| && |multiset(s.accepted)| == |s.accepted|;
    assert |multiset(s.sent)| == |s.sent|;
  }

  /** Outside of `clearBuffer`, all that is buffered waits. */
  lemma AllWait(s: State)
    requires s.Inv() && !s.processing
    ensures s.Waiting() == s.buffered
  {
  }

  /** Each callback to come is counted. */
  lemma Pends(s: State)
    requires s.Inv()
    ensures s.pendingcb >= |s.ticks| + |s.hand| && (s.writing ==> s.pendingcb > 0)
    ensures s.taken < |s.buffered| ==> s.pendingcb > 0
    ensures s.pendingcb == 0 && !s.processing ==> !s.writing && s.buffered == [] && s.length == 0
  {
    hide State.Order;
  }

  lemma LoadedPends(s: State, req: Request)
    requires s.Loaded(req)
    ensures s.pendingcb > 0
  {
    hide State.Order;
  }

  lemma NothingToDo(s: State)
    requires s.Sound()
    ensures s.length != 0 ==> s.writing || s.taken < |s.buffered|
  {
    hide State.Order;
  }

  lemma KeptHistory(s: State, t: State)
    requires s.KeepsBase(t)
    ensures t.processing == s.processing && s.accepted <= t.accepted && s.sent <= t.sent && (s.ending ==> t.ending)
    ensures s.called <= t.called && |s.ticks| <= |t.ticks| && (s.overtaken ==> t.overtaken)
  {
  }

  // What the invariant means.

  /** The chunks reach `_write` in the order of the writes exactly when no write overtook others. */
  lemma InOrder(s: State)
    requires s.Inv()
    ensures s.sent + s.Waiting() == s.accepted <==> !s.overtaken
    ensures !s.overtaken ==> s.sent == s.accepted[..|s.sent|]
  {
    NumberedIsOrdered(s.accepted);
  }

  lemma NumberedIsOrdered(s: seq<Request>)
    requires Numbered(s)
    ensures !Inverted(s)
  {
  }

  /** A write overtakes others exactly when it goes to `_write` from within `clearBuffer`, past waiting requests. */
  lemma OvertakingWrite(s: State, req: Request)
    requires s.Inv() && !s.overtaken && !s.ending && !s.writing && s.corked == 0 && req.id == |s.accepted|
    ensures s.sent + [req] + s.Waiting() == s.accepted + [req] <==> s.Waiting() == []
    ensures s.Waiting() != [] ==> s.processing
  {
    var w, n := s.Waiting(), |s.sent|;
    if w != [] {
      assert s.accepted[n] == (s.sent + w)[n] == w[0];
      assert (s.sent + [req] + w)[n] == req && (s.accepted + [req])[n] == s.accepted[n];
    }
  }

  lemma {:induction false} NumberedIsUnique(s: seq<Request>, r: Request)
    requires Numbered(s)
    ensures multiset(s)[r] <= 1
  {
    if s != [] {
      var n := |s| - 1;
      NumberedIsUnique(s[..n], r);
      assert s == s[..n] + [s[n]];
    }
  }

  lemma Repeated(s: seq<Request>, i: nat, j: nat)
    requires i < j < |s| && s[i] == s[j]
    ensures multiset(s)[s[i]] >= 2
  {
    assert s == s[..j] + s[j..];
    assert s[i] == s[..j][i] && s[i] == s[j..][0];
    assert s[i] in multiset(s[..j]) && s[i] in multiset(s[j..]);
  }

  /** No chunk is passed to `_write` twice, and every chunk passed on was written and waits no more. */
  lemma AtMostOnce(s: State)
    requires s.Inv()
    ensures forall i, j :: 0 <= i < j < |s.sent| ==> s.sent[i].id != s.sent[j].id
    ensures forall r :: r in s.sent ==> r in s.accepted && r !in s.Waiting()
  {
    var all := multiset(s.sent) + multiset(s.Waiting());
    forall r | r in s.sent
      ensures r in s.accepted && r !in s.Waiting() && multiset(s.sent)[r] == 1 && s.accepted[r.id] == r
    {
      NumberedIsUnique(s.accepted, r);
      assert r in multiset(s.sent) && all[r] <= 1;
      assert r in multiset(s.accepted);
    }
    forall i, j | 0 <= i < j < |s.sent|
      ensures s.sent[i].id != s.sent[j].id
    {
      if s.sent[i].id == s.sent[j].id {
        assert s.accepted[s.sent[i].id] == s.sent[i] && s.accepted[s.sent[j].id] == s.sent[j];
        Repeated(s.sent, i, j);
      }
    }
  }

  /** `finish` comes once, after `end`, when the callback of every accepted write has been called once. */
  lemma FinishIsLast(s: State)
    requires s.Inv() && s.finished
    ensures s.finishes == 1 && s.ending && s.length == 0
    ensures multiset(s.called) == multiset(s.accepted) == multiset(s.sent)
  {
  }

  /**
    * Order fails in this run: three writes wait until the stream is uncorked; `_write` completes the first at once, and
    * writes a fourth, which goes past the second.
    */
  method OutOfOrder(a: nat, b: nat, c: nat, d: nat) returns (stream: Writable)
    ensures stream.Inv() && stream.overtaken && Inverted(stream.sent)
    ensures [Request(0, a), Request(3, d), Request(1, b)] <= stream.sent
  {
    hide State.Inv, State.Keeps, State.Idle, Writable.TicksEnd, Writable.Busy, Writable.Owing, Writable.Dry, Callbacks;
    stream := new Writable(16, [[Complete, Write(d)]]);
    stream.Perform(Cork);
    stream.Perform(Write(a));
    stream.Perform(Write(b));
    stream.Perform(Write(c));
    assert stream.buffered == [Request(0, a), Request(1, b), Request(2, c)];
    stream.Perform(Uncork);
    assert stream.sent == [Request(0, a), Request(3, d)];
    ghost var s := stream.Now();
    stream.Perform(Complete);
    KeptQuiet(s, stream.Now());
    KeptHistory(s, stream.Now());
    assert stream.sent[1].id > stream.sent[2].id;
  }
}
