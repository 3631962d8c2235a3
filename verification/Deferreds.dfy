/**
  * `Deferred`: a one-shot state machine made of three callback lists. The done list starts with handlers that
  * set the state, disable the fail list and lock the progress list, and the fail list mirrors it.
  */
module Deferreds {
  import opened Prelude
  import opened CallbackLists

  datatype Status = Pending | Resolved | Rejected

  datatype Handler = User(id: nat) | SetState(status: Status) | DisableOther | LockProgress

  /** The context and the arguments of a call. */
  datatype Args = Args(context: nat, values: seq<nat>)

  datatype Request =
    | Done(ids: seq<nat>) | Fail(ids: seq<nat>) | Progress(ids: seq<nat>)
    | Resolve(args: Args) | Reject(args: Args) | Notify(args: Args)

  type List = Callbacks<Handler, Args>

  function Users(ids: seq<nat>): (s: seq<Handler>)
    ensures |s| == |ids| && forall i :: 0 <= i < |s| ==> s[i] == User(ids[i])
  {
    seq(|ids|, i requires 0 <= i < |ids| => User(ids[i]))
  }

  /** The handlers of the list that leads to `s`, in the order in which they were added. */
  ghost predicate Handlers(added: seq<Handler>, s: Status) {
    && |added| >= 3 && added[0] == SetState(s) && added[1] == DisableOther && added[2] == LockProgress
    && forall i :: 3 <= i < |added| ==> added[i].User?
  }

  ghost predicate AllUsers(added: seq<Handler>) {
    forall h :: h in added ==> h.User?
  }

  /** The first handlers were called once each, in order, with the same arguments. */
  ghost predicate Called(calls: seq<Call<Args>>, args: Args) {
    forall i :: 0 <= i < |calls| ==> calls[i] == Call(i, args)
  }

  /** The entries after `index` are the handlers from number `n` on. */
  ghost predicate Coming(tags: seq<nat>, index: int, n: nat, count: nat) {
    && n <= count && index >= -1
    && (if index < |tags| then tags[index + 1..] else []) == From(n, count - n)
  }

  lemma ComingCall(tags: seq<nat>, index: int, n: nat, count: nat)
    requires Coming(tags, index, n, count) && index + 1 < |tags|
    ensures tags[index + 1] == n && Coming(tags, index + 1, n + 1, count)
  {
    var rest := tags[index + 1..];
    assert rest[0] == n;
    assert tags[index + 2..] == rest[1..];
  }

  lemma ComingEnd(tags: seq<nat>, index: int, n: nat, count: nat)
    requires Coming(tags, index, n, count) && |tags| <= index + 1
    ensures n == count && Coming(tags, index + 1, n, count)
  {
  }

  lemma ComingPush(tags: seq<nat>, index: int, n: nat, count: nat, more: nat)
    requires Coming(tags, index, n, count) && index < |tags|
    ensures Coming(tags + From(count, more), index, n, count + more)
  {
    assert (tags + From(count, more))[index + 1..] == tags[index + 1..] + From(count, more);
  }

  /** Neither resolved nor rejected. */
  ghost predicate Waiting(x: List, s: Status)
    reads x
  {
    && x.Valid() && !x.firing && !x.disabled && !x.locked && x.memory.None? && x.calls == []
    && x.tags == From(0, |x.added|) && Handlers(x.added, s)
  }

  /** The other list settled: nothing was called here, and nothing can be. */
  ghost predicate Lost(x: List)
    reads x
  {
    x.Valid() && x.disabled && x.locked && !x.firing && x.calls == []
  }

  /** While the list fires: the handlers called so far are the first ones, and the others come next. */
  ghost predicate Race(x: List, s: Status)
    reads x
  {
    && x.InPass() && x.locked && !x.disabled && x.memory.Some? && x.queue == [] && !x.cut
    && Handlers(x.added, s) && Called(x.calls, x.memory.value)
    && Coming(x.tags, x.index, |x.calls|, |x.added|)
  }

  /** When the list does not fire: every handler was called. */
  ghost predicate Rested(x: List, s: Status)
    reads x
  {
    && x.Valid() && !x.firing && x.locked && !x.disabled && x.memory.Some?
    && x.list == [] && x.tags == []
    && Handlers(x.added, s) && Called(x.calls, x.memory.value) && |x.calls| == |x.added| >= 3
  }

  ghost predicate Won(x: List, s: Status)
    reads x
  {
    if x.firing then Race(x, s) && x.Valid() && |x.calls| >= 3 else Rested(x, s)
  }

  /** One pass is in the queue, for the handlers that were not called yet. */
  ghost predicate Armed(x: List, s: Status)
    reads x
  {
    && |x.queue| == 1 && !x.disabled
    && Handlers(x.added, s) && Called(x.calls, x.queue[0]) && Coming(x.tags, x.index, |x.calls|, |x.added|)
  }

  /** The pass is over, and every handler was called. */
  ghost predicate Ended(x: List, s: Status)
    reads x
  {
    && x.Between() && x.index == -1 && x.queue == [] && x.locked && !x.disabled && x.memory.Some?
    && Handlers(x.added, s) && Called(x.calls, x.memory.value) && |x.calls| == |x.added| >= 3
  }

  /** Which handler is which. */
  lemma Which(added: seq<Handler>, s: Status, i: nat)
    requires Handlers(added, s) && i < |added|
    ensures added[i].User? <==> i >= 3
    ensures added[i].SetState? <==> i == 0
    ensures added[i].DisableOther? <==> i == 1
    ensures added[0] == SetState(s)
  {
  }

  lemma ValidInPass(x: List)
    requires x.Valid() && x.firing
    ensures x.InPass()
  {
  }

  lemma MoreUsers(added: seq<Handler>, ids: seq<nat>, s: Status)
    ensures Handlers(added, s) ==> Handlers(added + Users(ids), s)
    ensures AllUsers(added) ==> AllUsers(added + Users(ids))
  {
  }

  lemma FromMore(n: nat, k: nat)
    ensures From(0, n) + From(n, k) == From(0, n + k)
  {
  }

  // The pieces of `fireWith`, of `add` and of the firing loop, and what they do to a list that settles to `s`.

  method Append(x: List, ids: seq<nat>, ghost s: Status)
    requires x.Basic() && !x.disabled && !x.cut && x.index < |x.list| && !x.options.unique
    modifies x`list, x`added, x`tags, x`skipped
    ensures x.Basic() && x.added == old(x.added) + Users(ids) && (old(AllUsers(x.added)) ==> AllUsers(x.added))
    ensures (old(x.Ready()) ==> x.Ready()) && (old(x.Valid()) ==> x.Valid())
    ensures old(Waiting(x, s)) ==> Waiting(x, s)
    ensures old(x.firing && Won(x, s)) ==> Won(x, s)
    ensures old(Armed(x, s)) ==> Armed(x, s)
  {
    hide Callbacks.Passing, Listed, AllComplete, Coming, Handlers, Called, AllUsers;
    ListedLength(x.list, x.tags, x.added);
    MoreUsers(x.added, ids, s);
    FromMore(|x.added|, |ids|);
    if Coming(x.tags, x.index, |x.calls|, |x.added|) {
      ComingPush(x.tags, x.index, |x.calls|, |x.added|, |ids|);
    }
    x.PushAll(Users(ids));
  }

  method Enqueue(x: List, args: Args, ghost s: Status)
    requires x.Valid() && !x.locked
    modifies x`queue, x`since, x`called, x`skipped
    ensures x.queue == old(x.queue) + [args]
    ensures if x.firing then x.Valid() else x.Ready()
    ensures old(Waiting(x, s)) ==> Armed(x, s)
  {
    hide Callbacks.Basic, Callbacks.Passing;
    x.Enqueue(args);
  }

  method Rearm(x: List, ghost s: Status)
    requires x.Valid() && x.memory.Some? && !x.firing
    modifies x`queue, x`index, x`since, x`called, x`skipped
    ensures x.Ready() && x.queue == [x.memory.value] && (old(Rested(x, s)) ==> Armed(x, s))
  {
    hide Callbacks.Basic, Callbacks.Passing;
    x.Rearm();
  }

  method Start(x: List, ghost s: Status)
    requires x.Ready()
    modifies x`locked, x`fired, x`firing
    ensures x.Between() && x.locked == (old(x.locked) || x.options.once)
    ensures old(Armed(x, s)) ==> Armed(x, s)
  {
    x.Start();
  }

  method TakeNext(x: List, ghost s: Status)
    requires x.Between() && x.queue != []
    modifies x`queue, x`memory
    ensures x.InPass() && x.memory == Some(old(x.queue)[0]) && x.queue == old(x.queue)[1..]
    ensures old(Armed(x, s)) && x.locked ==> Race(x, s)
  {
    hide Callbacks.Basic, Callbacks.Passing;
    x.TakeNext();
  }

  method Advance(x: List, ghost s: Status) returns (more: bool)
    requires x.InPass()
    modifies x`index, x`called, x`calls
    ensures x.InPass() && (more ==> x.Valid()) && 0 <= x.index == old(x.index) + 1 && more == (x.index < |x.list|)
    ensures more && old(AllUsers(x.added)) ==> x.list[x.index].User?
    ensures old(x.calls) <= x.calls && |x.calls| == |old(x.calls)| + if more then 1 else 0
    ensures old(Race(x, s)) ==> Race(x, s) && |x.calls| <= |x.added|
    ensures old(Race(x, s)) ==> if more then x.list[x.index] == x.added[|x.calls| - 1] else |x.calls| == |x.added|
  {
    hide Callbacks.Passing, Listed, AllComplete, Coming;
    ListedLength(x.list, x.tags, x.added);
    if x.index + 1 < |x.list| {
      ListedAt(x.list, x.tags, x.added, x.index + 1);
    }
    if Coming(x.tags, x.index, |x.calls|, |x.added|) {
      if x.index + 1 < |x.list| {
        ComingCall(x.tags, x.index, |x.calls|, |x.added|);
      } else {
        ComingEnd(x.tags, x.index, |x.calls|, |x.added|);
      }
    }
    more := x.Advance();
  }

  method EndPass(x: List, ghost s: Status)
    requires x.InPass() && |x.list| <= x.index
    modifies x`index, x`since, x`called, x`skipped, x`passes, x`cut
    ensures x.Between() && x.index == -1 && old(x.passes) < x.passes
    ensures old(Race(x, s)) ==> Ended(x, s)
  {
    hide Callbacks.Passing, Listed, AllComplete;
    ListedLength(x.list, x.tags, x.added);
    x.EndPass();
  }

  method Finish(x: List, ghost s: Status)
    requires x.Between() && x.queue == [] && x.index == -1 && x.options.memory
    modifies x`memory, x`firing, x`list, x`tags, x`disabled
    ensures x.Valid() && !x.firing && (old(Ended(x, s)) ==> Rested(x, s) && x.memory == old(x.memory))
  {
    hide Callbacks.Passing, Listed, AllComplete;
    x.Finish();
  }

  class Deferred {
    var status: Status
    const progress: List
    const done: List
    const fail: List
    /** What the n-th user callback does. */
    var script: seq<seq<Request>>

    ghost predicate Shape()
      reads progress, done, fail
    {
      && progress != done && progress != fail && done != fail
      && progress.options == Flags(false, true, false, false)
      && done.options == fail.options == Flags(true, true, false, false)
      && AllUsers(progress.added) && !progress.cut
    }

    function Kind(x: List): Status
      requires x == done || x == fail
    {
      if x == done then Resolved else Rejected
    }

    function Other(x: List): List
      requires x == done || x == fail
    {
      if x == done then fail else done
    }

    /** The state of all but the progress list, whenever user code runs. */
    ghost predicate Settled()
      reads this, progress, done, fail
    {
      && Shape() && (progress.locked <==> !status.Pending?)
      && match status {
           case Pending => Waiting(done, Resolved) && Waiting(fail, Rejected)
           case Resolved => Won(done, Resolved) && Lost(fail)
           case Rejected => Won(fail, Rejected) && Lost(done)
         }
    }

    ghost predicate Valid()
      reads this, progress, done, fail
    {
      Settled() && progress.Valid()
    }

    /** While `x` settles: its first `n` handlers have returned. */
    ghost predicate Effects(x: List, n: nat)
      requires x == done || x == fail
      reads this, progress, done, fail
    {
      && Shape() && progress.Valid() && (progress.locked <==> n >= 3)
      && status == (if n >= 1 then Kind(x) else Pending)
      && if n >= 2 then Lost(Other(x)) else Waiting(Other(x), Kind(Other(x)))
    }

    /** Between two handlers of `x`. */
    ghost predicate Stepping(x: List)
      requires x == progress || x == done || x == fail
      reads this, progress, done, fail
    {
      if x == progress then progress.InPass() && Settled()
      else Race(x, Kind(x)) && Effects(x, |x.calls|)
    }

    /** User code leaves the passes that are under way where they are, and does not undo the outcome. */
    twostate predicate Undisturbed()
      reads this, progress, done, fail
    {
      Paused(progress) && Paused(done) && Paused(fail) && Kept()
    }

    twostate predicate Paused(x: List)
      reads x
    {
      && x.firing == old(x.firing) && Grown(x)
      && (x.firing ==> x.index == old(x.index) && x.calls == old(x.calls))
    }

    twostate predicate Others(x: List)
      reads progress, done, fail
    {
      && (x != progress ==> Paused(progress))
      && (x != done ==> Paused(done))
      && (x != fail ==> Paused(fail))
    }

    twostate predicate Grown(x: List)
      reads x
    {
      old(x.calls) <= x.calls && old(x.added) <= x.added && old(x.passes) <= x.passes
    }

    /** The outcome is final, with its arguments. */
    twostate predicate Kept()
      reads this, done, fail
    {
      && (old(status) != Pending ==> status == old(status))
      && (old(status) == Resolved ==> done.memory == old(done.memory))
      && (old(status) == Rejected ==> fail.memory == old(fail.memory))
    }

    constructor (script: seq<seq<Request>>)
      ensures Valid() && status == Pending && !progress.firing
      ensures fresh(progress) && fresh(done) && fresh(fail)
    {
      var p := new Callbacks(Flags(false, true, false, false));
      var d := SettlingList(Resolved);
      var f := SettlingList(Rejected);
      this.script, status, progress, done, fail := script, Pending, p, d, f;
    }

    /** `done`, `fail` and `progress`: the `add` of the list. */
    method AddTo(x: List, ids: seq<nat>)
      requires Valid() && (x == progress || x == done || x == fail)
      modifies this, progress, done, fail
      ensures Valid() && Undisturbed() && |script| <= old(|script|)
      ensures !old(x.disabled) ==> old(x.added) + Users(ids) <= x.added
      decreases |script|, 3
    {
      hide Callbacks.Basic, Callbacks.Passing, Handlers, Called, Coming, AllUsers;
      if !x.disabled {
        if x.memory.Some? && !x.firing {
          Replay(x, ids);
        } else {
          AppendTo(x, ids);
        }
      }
    }

    method AppendTo(x: List, ids: seq<nat>)
      requires Valid() && (x == progress || x == done || x == fail) && !x.disabled
      requires x.memory.None? || x.firing
      modifies x`list, x`added, x`tags, x`skipped
      ensures Valid() && Undisturbed() && x.added == old(x.added) + Users(ids)
    {
      hide Callbacks.Basic, Callbacks.Passing, Handlers, Called, Coming, AllUsers;
      Append(x, ids, if x == fail then Rejected else Resolved);
    }

    method Replay(x: List, ids: seq<nat>)
      requires Valid() && (x == progress || x == done || x == fail) && !x.disabled
      requires x.memory.Some? && !x.firing
      modifies this, progress, done, fail
      ensures Valid() && Undisturbed() && |script| <= old(|script|) && old(x.added) + Users(ids) <= x.added
      decreases |script|, 2
    {
      hide Callbacks.Basic, Callbacks.Passing, Callbacks.Ready, Handlers, Called, Coming, AllUsers;
      hide Armed, Effects, Loaded, Waiting, Race;
      Arm(x, ids);
      FireLoop(x);
    }

    /** A pass for the new entries. */
    method Arm(x: List, ids: seq<nat>)
      requires Valid() && (x == progress || x == done || x == fail) && !x.disabled
      requires x.memory.Some? && !x.firing
      modifies x`queue, x`index, x`since, x`called, x`skipped, x`list, x`added, x`tags
      ensures Shape() && x.Ready() && Loaded(x) && x.queue == [x.memory.value] && x.added == old(x.added) + Users(ids)
    {
      hide Callbacks.Basic, Callbacks.Passing, Handlers, Called, Coming, AllUsers;
      Rearm(x, if x == fail then Rejected else Resolved);
      Append(x, ids, if x == fail then Rejected else Resolved);
    }

    /** `resolveWith`, `rejectWith` and `notifyWith`: the `fireWith` of the list. */
    method FireWith(x: List, args: Args)
      requires Valid() && (x == progress || x == done || x == fail)
      modifies this, progress, done, fail
      ensures Valid() && Undisturbed() && |script| <= old(|script|)
      ensures old(status) == Pending && x != progress ==> status == Kind(x) && x.memory == Some(args)
      // callbacks of progress are called as long as nothing is settled; a later pass follows the one under way
      ensures old(!x.locked && !x.firing) ==> old(x.passes) < x.passes
      ensures old(!x.locked && x.firing) ==> x.queue == old(x.queue) + [args] && script == old(script)
      ensures old(x.locked) ==> script == old(script) && x.calls == old(x.calls) && x.queue == old(x.queue)
      decreases |script|, 2
    {
      hide Callbacks.Basic, Callbacks.Passing, Handlers, Called, Coming, AllUsers;
      if !x.locked {
        Enqueue(x, args, if x == fail then Rejected else Resolved);
        if !x.firing {
          FireLoop(x);
        }
      }
    }

    /** Before the firing loop of `x`, or between two of its passes. */
    ghost predicate Loaded(x: List)
      requires x == progress || x == done || x == fail
      reads this, progress, done, fail
    {
      if x == progress then Settled() else Armed(x, Kind(x)) && Effects(x, |x.calls|)
    }

    /** The firing loop of `x`, which may be nested in the loops of the other lists. */
    method FireLoop(x: List)
      requires (x == progress || x == done || x == fail) && Shape() && x.Ready() && Loaded(x)
      modifies this, progress, done, fail
      ensures Valid() && |script| <= old(|script|) && !x.firing && Grown(x)
      ensures if x != progress then status == Kind(x) && x.memory == Some(old(x.queue[0])) else Kept()
      ensures Others(x) && old(x.passes) < x.passes
      decreases |script|, 1, 3
    {
      hide Callbacks.Basic, Callbacks.Passing, Handlers, Called, Coming, AllUsers, Waiting, Lost, Race, AllComplete;
      ghost var s := if x == fail then Rejected else Resolved;
      Start(x, s);
      TurningStarts(x);
      Spin(x);
      Finish(x, s);
    }

    lemma TurningStarts(x: List)
      requires (x == progress || x == done || x == fail) && Shape() && x.Between() && Loaded(x) && |x.queue| == 1
      requires x != progress ==> x.locked
      ensures Turning(x)
    {
      hide Callbacks.Basic, Callbacks.Passing, Handlers, Called, Coming, AllUsers, Waiting, Lost, Race;
    }

    /** The passes of the firing loop. */
    method Spin(x: List)
      requires (x == progress || x == done || x == fail) && Turning(x) && |x.queue| == 1
      modifies this, progress, done, fail
      ensures Turning(x) && x.queue == [] && |script| <= old(|script|) && Grown(x) && Others(x)
      ensures old(x.passes) < x.passes
      ensures if x == progress then Kept() else x.memory == Some(old(x.queue)[0])
      decreases |script|, 1, 2
    {
      hide Turning, Settled, Shape, Effects, Loaded, Armed, Ended, Callbacks.Between, Callbacks.InPass, Callbacks.Valid;
      while x.queue != []
        invariant Turning(x) && |script| <= old(|script|) && Grown(x) && Others(x)
        invariant old(x.passes) < x.passes || x.queue == old(x.queue)
        invariant if x == progress then Kept()
                  else if x.queue != [] then x.queue == old(x.queue)
                  else x.memory == Some(old(x.queue)[0])
        decreases |script|, |x.queue|
      {
        NextPass(x);
      }
    }

    /** Between two passes of the firing loop. */
    ghost predicate Turning(x: List)
      requires x == progress || x == done || x == fail
      reads this, progress, done, fail
    {
      && Shape() && x.Between() && (x.queue == [] ==> x.index == -1)
      && if x == progress then Settled()
         else if x.queue != [] then x.locked && Loaded(x)
         else Ended(x, Kind(x)) && Effects(x, |x.calls|)
    }

    method NextPass(x: List)
      requires (x == progress || x == done || x == fail) && Turning(x) && x.queue != []
      modifies this, progress, done, fail
      ensures Turning(x) && |script| <= old(|script|) && Grown(x) && Others(x)
      ensures if x == progress then Kept() else x.queue == [] && x.memory == Some(old(x.queue[0]))
      ensures old(x.passes) < x.passes
      ensures |script| == old(|script|) ==> |x.queue| < old(|x.queue|)
      decreases |script|, 1, 1
    {
      hide Callbacks.Basic, Callbacks.Passing, Handlers, Called, Coming, AllUsers, Waiting, Lost, Won;
      ghost var s := if x == fail then Rejected else Resolved;
      TakeNext(x, s);
      FirePass(x);
      EndPass(x, s);
    }

    method FirePass(x: List)
      requires (x == progress || x == done || x == fail) && Shape() && Stepping(x)
      modifies this, progress, done, fail
      ensures Shape() && Stepping(x) && |x.list| <= x.index && |script| <= old(|script|) && Grown(x)
      ensures |script| == old(|script|) ==> x.queue == old(x.queue)
      ensures if x != progress then x.memory == old(x.memory) else Kept()
      ensures Others(x)
      decreases |script|, 1, 0
    {
      hide Settled, Effects, Stepping, Shape, Race, Decided;
      hide Callbacks.InPass, Callbacks.Valid;
      var more := Step(x);
      while more
        invariant Shape() && Grown(x) && Others(x)
        invariant if more then Calling(x) else Stepping(x) && |x.list| <= x.index
        invariant |script| <= old(|script|) && (|script| == old(|script|) ==> x.queue == old(x.queue))
        invariant if x != progress then x.memory == old(x.memory) else Kept()
        decreases |script|, more, |x.list| - x.index
      {
        CallHandler(x, x.list[x.index]);
        more := Step(x);
      }
    }

    /** While the handler at the index of `x` runs. */
    ghost predicate Calling(x: List)
      requires x == progress || x == done || x == fail
      reads this, progress, done, fail
    {
      && x.Valid() && x.firing && 0 <= x.index < |x.list|
      && if x == progress then Settled() && x.list[x.index].User?
         else
           && |x.calls| > 0 && Race(x, Kind(x)) && Effects(x, |x.calls| - 1)
           && |x.calls| <= |x.added| && x.list[x.index] == x.added[|x.calls| - 1]
    }

    method Step(x: List) returns (more: bool)
      requires (x == progress || x == done || x == fail) && Shape() && Stepping(x)
      modifies x`index, x`called, x`calls
      ensures Shape() && if more then Calling(x) else Stepping(x) && |x.list| <= x.index
      ensures x.index == old(x.index) + 1 && old(x.calls) <= x.calls
    {
      hide Callbacks.Basic, Callbacks.Passing, Handlers, Called, Coming, AllUsers;
      more := Advance(x, if x == fail then Rejected else Resolved);
    }

    method CallHandler(x: List, h: Handler)
      requires (x == progress || x == done || x == fail) && Shape() && Calling(x) && h == x.list[x.index]
      modifies this, progress, done, fail
      ensures Shape() && Stepping(x) && |script| <= old(|script|) && Grown(x)
      ensures |script| == old(|script|) ==> x.queue == old(x.queue) && x.list == old(x.list)
      ensures x.index == old(x.index) && (if x != progress then x.memory == old(x.memory) else Kept())
      ensures Others(x)
      // a callback of the user runs
      ensures h.User? && old(script) != [] ==> |script| < old(|script|) && Decided(old(script)[0], old(status))
      decreases |script|, 0, 1
    {
      hide Callbacks.Basic, Callbacks.Passing, Handlers, Called, Coming, AllUsers;
      if x != progress {
        Which(x.added, Kind(x), |x.calls| - 1);
      }
      match h {
        case User(_) =>
          RunCallback();
          ValidInPass(x);
        case SetState(s) =>
          status := s;
        case DisableOther =>
          Other(x).Disable();
        case LockProgress =>
          progress.Lock();
      }
    }

    /** If nothing was decided before, the first of the requests is decisive. */
    ghost predicate Decided(requests: seq<Request>, before: Status)
      reads this
    {
      requests != [] && before == Pending ==>
        && (requests[0].Resolve? ==> status == Resolved)
        && (requests[0].Reject? ==> status == Rejected)
    }

    /** What the next entry of the script says. */
    method RunCallback()
      requires Valid()
      modifies this, progress, done, fail
      ensures Valid() && Undisturbed() && |script| <= old(|script|)
      ensures |script| == old(|script|) ==>
        forall x :: x in {progress, done, fail} ==> x.queue == old(x.queue) && x.list == old(x.list)
      ensures old(script) != [] ==> |script| < old(|script|) && Decided(old(script)[0], old(status))
      decreases |script|, 0, 0
    {
      hide Callbacks.Basic, Callbacks.Passing, Handlers, Called, Coming, AllUsers;
      hide Waiting, Won, Lost;
      if script != [] {
        var requests := script[0];
        script := script[1..];
        var i := 0;
        while i < |requests|
          invariant i <= |requests| && Valid() && Undisturbed() && |script| < old(|script|)
          invariant if i == 0 then status == old(status) else Decided(requests, old(status))
        {
          Perform(requests[i]);
          i := i + 1;
        }
      }
    }

    method Perform(request: Request)
      requires Valid()
      modifies this, progress, done, fail
      ensures Valid() && Undisturbed() && |script| <= old(|script|)
      ensures request.Resolve? && old(status) == Pending ==> status == Resolved && done.memory == Some(request.args)
      ensures request.Reject? && old(status) == Pending ==> status == Rejected && fail.memory == Some(request.args)
      ensures request.Done? && !old(done.disabled) ==> old(done.added) + Users(request.ids) <= done.added
      ensures request.Fail? && !old(fail.disabled) ==> old(fail.added) + Users(request.ids) <= fail.added
      ensures request.Progress? && !old(progress.disabled) ==>
                old(progress.added) + Users(request.ids) <= progress.added
      ensures request.Notify? && old(status == Pending && !progress.firing) ==> old(progress.passes) < progress.passes
      ensures request.Notify? && old(status) != Pending ==> progress.calls == old(progress.calls)
      decreases |script|, 4
    {
      match request {
        case Done(ids) => AddTo(done, ids);
        case Fail(ids) => AddTo(fail, ids);
        case Progress(ids) => AddTo(progress, ids);
        case Resolve(args) => FireWith(done, args);
        case Reject(args) => FireWith(fail, args);
        case Notify(args) => FireWith(progress, args);
      }
    }
  }

  /** Any run: requests from outside, one after the other, and any requests from within the callbacks. */
  method Run(script: seq<seq<Request>>, requests: seq<Request>) returns (d: Deferred)
    ensures d.Valid() && !d.progress.firing && !d.done.firing && !d.fail.firing
    // the first request that settles it decides
    ensures forall k :: 0 <= k < |requests| && (requests[k].Resolve? || requests[k].Reject?) ==> d.status != Pending
    ensures d.Decided(requests, Pending)
  {
    d := new Deferred(script);
    for i := 0 to |requests|
      invariant fresh(d) && fresh(d.progress) && fresh(d.done) && fresh(d.fail)
      invariant d.Valid() && !d.progress.firing && !d.done.firing && !d.fail.firing
      invariant i == 0 ==> d.status == Pending
      invariant i > 0 ==> d.Decided(requests, Pending)
      invariant forall k :: 0 <= k < i && (requests[k].Resolve? || requests[k].Reject?) ==> d.status != Pending
    {
      d.Perform(requests[i]);
    }
  }

  /**
    * Between two requests from outside: once resolved, every done handler has run exactly once, in the order in
    * which they were added and with the same arguments, and no fail handler has run; before that, none has run.
    */
  lemma Outcome(d: Deferred)
    requires d.Valid() && !d.done.firing && !d.fail.firing
    ensures d.status == Pending ==> d.done.calls == [] && d.fail.calls == []
    ensures d.status == Resolved ==> d.fail.calls == [] && |d.done.calls| == |d.done.added| && d.done.memory.Some?
    ensures d.status == Resolved ==>
              forall i :: 0 <= i < |d.done.calls| ==> d.done.calls[i] == Call(i, d.done.memory.value)
    ensures d.status == Rejected ==> d.done.calls == [] && |d.fail.calls| == |d.fail.added| && d.fail.memory.Some?
    ensures d.status == Rejected ==>
              forall i :: 0 <= i < |d.fail.calls| ==> d.fail.calls[i] == Call(i, d.fail.memory.value)
  {
    assert d.Settled();
  }

  /** While the callbacks of a settled `Deferred` run, the ones called so far are the first ones, in order. */
  lemma OutcomeSoFar(d: Deferred)
    requires d.Valid()
    ensures d.status == Resolved ==> d.fail.calls == [] && d.done.memory.Some?
    ensures d.status == Resolved ==>
              forall i :: 0 <= i < |d.done.calls| ==> d.done.calls[i] == Call(i, d.done.memory.value)
    ensures d.status == Rejected ==> d.done.calls == [] && d.fail.memory.Some?
    ensures d.status == Rejected ==>
              forall i :: 0 <= i < |d.fail.calls| ==> d.fail.calls[i] == Call(i, d.fail.memory.value)
  {
    assert d.Settled();
  }

  /** The list that leads to `s`, with its first handlers. */
  method SettlingList(s: Status) returns (x: List)
    ensures fresh(x) && Waiting(x, s) && x.options == Flags(true, true, false, false)
  {
    x := new Callbacks(Flags(true, true, false, false));
    x.PushAll([SetState(s), DisableOther, LockProgress]);
  }
}
