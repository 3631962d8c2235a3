/**
  * The `nextTick` queue: items run in a timer callback, may enqueue more items and may throw.
  *
  * What an item does when it runs is arbitrary, so a run has a `script`: the n-th item that runs
  * enqueues the n-th number of new items and then returns or throws.
  */
module NextTick {
  import opened Prelude

  /** An item, named by its place among all the items ever enqueued. */
  datatype Item = Item(id: nat)

  datatype Behaviour = Behaviour(spawns: nat, throws: bool)

  function Spawns(script: seq<Behaviour>): nat {
    if script == [] then 0 else script[0].spawns + Spawns(script[1..])
  }

  /** No item throws. */
  ghost predicate Calm(script: seq<Behaviour>) {
    forall b :: b in script ==> !b.throws
  }

  /** The items that ran used up some behaviours; only the last one can have thrown. */
  ghost predicate Used(was: seq<Behaviour>, now: seq<Behaviour>, threw: bool) {
    var n := |was| - |now|;
    && 0 <= n <= |was| && now == was[n..] && (threw ==> n > 0)
    && forall i :: 0 <= i < n ==> was[i].throws == (threw && i == n - 1)
  }

  /** The first `n` items enqueued, in order. */
  function Items(n: nat): (s: seq<Item>)
    ensures |s| == n
  {
    seq(n, i requires i >= 0 => Item(i))
  }

  lemma OneMore(ran: seq<Item>, left: seq<Item>, queue: seq<Item>, n: nat)
    requires ran + (left + queue) == Items(n)
    ensures ran + (left + (queue + [Item(n)])) == Items(n + 1)
  {
    assert ran + (left + (queue + [Item(n)])) == (ran + (left + queue)) + [Item(n)];
    assert Items(n + 1) == Items(n) + [Item(n)];
  }

  lemma NextItem(s: seq<Item>, i: nat, t: seq<Item>)
    requires i < |s|
    ensures s[i..] + t == [s[i]] + (s[i + 1..] + t)
  {
  }

  lemma WholeSuffix(s: seq<Item>, i: nat)
    requires i == 0
    ensures s[i..] == s
  {
  }

  lemma SuffixOfConcat(s: seq<Item>, t: seq<Item>, i: nat)
    requires i <= |s|
    ensures (s + t)[i..] == s[i..] + t
  {
  }

  lemma UnfoldSpawns(script: seq<Behaviour>)
    requires script != []
    ensures Spawns(script) == script[0].spawns + Spawns(script[1..])
  {
  }

  class Queue {
    var queue: seq<Item>
    /** `currentQueue`, null outside of a drain. */
    var current: Option<seq<Item>>
    var draining: bool
    var index: int
    /** The pending timers that will call `drainQueue` and `cleanUpNextTick`. */
    var drainTimers: nat
    var cleanupTimers: nat
    var script: seq<Behaviour>
    var count: nat

    /** The items that started to run, in order. */
    ghost var ran: seq<Item>

    /** The items that have still to run. */
    ghost function Pending(): seq<Item>
      reads this
    {
      if draining then Left() + queue else queue
    }

    /** The items of the current queue after the one at `index`. */
    ghost function Left(): seq<Item>
      reads this
    {
      if current.Some? && -1 <= index < |current.value| then current.value[index + 1..] else []
    }

    /** The items run in the order in which they were enqueued, each at most once. */
    ghost predicate Fifo(pending: seq<Item>)
      reads this`ran, this`count
    {
      ran + pending == Items(count)
    }

    /** Between two events, work that has not run has exactly one timer that will run it. */
    ghost predicate Idle()
      reads this
    {
      && Fifo(Pending())
      && if draining then
           // the item at `index` has thrown
           && current.Some? && 0 <= index < |current.value|
           && ran != [] && ran[|ran| - 1] == current.value[index]
           && drainTimers == 0 && cleanupTimers == 1
         else
           && current.None? && index == -1
           && cleanupTimers == 0 && drainTimers == if queue == [] then 0 else 1
    }

    /** Everything enqueued has run. */
    ghost predicate Done()
      reads this
    {
      queue == [] && ran == Items(count) && drainTimers == 0 && cleanupTimers == 0
    }

    constructor (script: seq<Behaviour>)
      ensures Idle() && count == 0
    {
      queue, current, draining, index, drainTimers, cleanupTimers := [], None, false, -1, 0, 0;
      count, ran, this.script := 0, [], script;
    }

    /** `nextTick`; `left` is what runs before the queue. */
    method NextTick(ghost left: seq<Item>)
      requires Fifo(left + queue)
      modifies this`queue, this`count, this`drainTimers
      ensures Fifo(left + queue) && queue == old(queue) + [Item(old(count))] && count == old(count) + 1
      ensures drainTimers == old(drainTimers) + if old(queue) == [] && !draining then 1 else 0
    {
      hide Items;
      OneMore(ran, left, queue, count);
      queue := queue + [Item(count)];
      count := count + 1;
      if |queue| == 1 && !draining {
        drainTimers := drainTimers + 1;
      }
    }

    /** `nextTick`, called by code that is not an item. */
    method NextTickFromOutside()
      requires Idle()
      modifies this`queue, this`count, this`drainTimers
      ensures Idle() && ran == old(ran) && count == old(count) + 1
    {
      ghost var left := if draining then Left() else [];
      PendingIs(left, queue);
      hide Fifo, Pending;
      NextTick(left);
      PendingIs(left, queue);
    }

    lemma PendingIs(left: seq<Item>, queue: seq<Item>)
      requires queue == this.queue && left == if draining then Left() else []
      ensures Pending() == left + queue
    {
      if !draining {
        assert [] + queue == queue;
      }
    }

    /** The item at `index` has thrown, and `left` comes after it. */
    lemma ThrownIsIdle(left: seq<Item>)
      requires draining && current.Some? && 0 <= index < |current.value| && left == current.value[index + 1..]
      requires ran != [] && ran[|ran| - 1] == current.value[index] && drainTimers == 0 && cleanupTimers == 1
      requires Fifo(left + queue)
      ensures Idle() && Work() == Spawns(script) + |left| + |queue|
    {
      hide Fifo, Spawns;
    }

    /** What is still to be done: the items to run and those that they can enqueue. */
    ghost function Work(): nat
      reads this
    {
      Spawns(script) + |Pending()|
    }

    /** `run`: what the next behaviour of the script says. */
    method RunItem(item: Item, ghost left: seq<Item>) returns (threw: bool)
      requires draining && Fifo([item] + (left + queue))
      modifies this`queue, this`count, this`drainTimers, this`script, this`ran
      ensures Fifo(left + queue) && ran == old(ran) + [item] && drainTimers == old(drainTimers) && count >= old(count)
      // the next behaviour of the script says how many items are enqueued, and whether it throws
      ensures threw == (old(script) != [] && old(script)[0].throws)
      ensures script == (if old(script) == [] then [] else old(script)[1..])
      ensures |queue| == old(|queue|) + if old(script) == [] then 0 else old(script)[0].spawns
      ensures Spawns(script) + |queue| == old(Spawns(script) + |queue|)
    {
      hide Items, Spawns;
      assert ran + ([item] + (left + queue)) == ran + [item] + (left + queue);
      ran := ran + [item];
      threw := false;
      if script != [] {
        UnfoldSpawns(script);
        var behaviour := script[0];
        script := script[1..];
        Spawn(behaviour.spawns, left);
        threw := behaviour.throws;
      }
    }

    method Spawn(n: nat, ghost left: seq<Item>)
      requires draining && Fifo(left + queue)
      modifies this`queue, this`count, this`drainTimers
      ensures Fifo(left + queue) && drainTimers == old(drainTimers) && |queue| == old(|queue|) + n
      ensures count >= old(count)
    {
      hide Fifo;
      var i := 0;
      while i < n
        invariant i <= n && Fifo(left + queue) && drainTimers == old(drainTimers) && |queue| == old(|queue|) + i
        invariant count >= old(count)
      {
        NextTick(left);
        i := i + 1;
      }
    }

    /** `drainQueue`: an exception leaves it in the middle, with `index` at the item that threw. */
    method DrainQueue() returns (threw: bool)
      requires !draining && -1 <= index && index + 1 <= |queue| && Fifo(queue[index + 1..])
      requires drainTimers == 0 && cleanupTimers == 0 && (queue == [] ==> index == -1 && current.None?)
      modifies this
      ensures Idle() && count >= old(count) && old(ran) <= ran
      ensures Used(old(script), script, threw)
      ensures old(Calm(script)) ==> Calm(script) && !threw
      // it ends when everything has run, or with the thrower at `index`
      ensures (threw <==> draining) && (!threw ==> Done())
      ensures Work() <= old(Budget()) && (draining || old(index + 1 < |queue|) ==> Work() < old(Budget()))
    {
      hide Fifo, Spawns, Pending, Left, Work, Idle, Between;
      StartDraining();
      threw := false;
      ghost var before, empty := Budget(), index + 1 == |queue|;
      while queue != [] && !threw
        invariant if threw then Idle() && Work() < before else Between() && Budget() <= before
        invariant threw || empty || Budget() < before || (queue == old(queue) && index == old(index))
        invariant Used(old(script), script, threw)
        invariant draining && count >= old(count) && old(ran) <= ran && (old(Calm(script)) ==> Calm(script) && !threw)
        decreases !threw, Spawns(script) + |queue|
      {
        threw := Turn();
      }
      if !threw {
        StopDraining();
      }
    }

    /** What is left to do before a turn. */
    ghost function Budget(): int
      reads this
    {
      Spawns(script) + |queue| - index - 1
    }

    /** A turn of `drainQueue`. */
    method Turn() returns (threw: bool)
      requires Between() && queue != []
      modifies this`queue, this`count, this`drainTimers, this`script, this`ran, this`current, this`index
      ensures Used(old(script), script, threw)
      ensures old(Calm(script)) ==> Calm(script) && !threw
      ensures draining && count >= old(count) && old(ran) <= ran
      ensures if threw then Idle() && Work() < old(Budget()) else Between() && index == -1
      ensures !threw ==> Spawns(script) + |queue| == old(Spawns(script)) && Budget() <= old(Budget())
      ensures !threw && old(index + 1 < |queue|) ==> Budget() < old(Budget())
    {
      hide Fifo, Spawns, Pending, Left, Work, Idle;
      threw := RunCurrent();
      if !threw {
        index := -1;
        assert queue[0..] == queue;
      }
    }

    /** Before each turn of `drainQueue`. */
    ghost predicate Between()
      reads this
    {
      && draining && -1 <= index && index + 1 <= |queue| && Fifo(queue[index + 1..])
      && drainTimers == 0 && cleanupTimers == 1 && (queue == [] ==> index == -1)
    }

    /** The start of `drainQueue`. */
    method StartDraining()
      requires !draining && -1 <= index && index + 1 <= |queue| && Fifo(queue[index + 1..])
      requires drainTimers == 0 && cleanupTimers == 0 && (queue == [] ==> index == -1)
      modifies this`draining, this`cleanupTimers
      ensures draining && Between() && Budget() == old(Budget())
    {
      hide Fifo, Spawns;
      cleanupTimers := cleanupTimers + 1;
      draining := true;
    }

    lemma EmptyBetween()
      requires queue == [] && Between()
      ensures draining && index == -1 && drainTimers == 0 && cleanupTimers == 1 && Fifo(queue)
      ensures Budget() == Spawns(script)
    {
      hide Fifo, Spawns;
      WholeSuffix(queue, index + 1);
    }

    lemma NothingLeft()
      requires !draining && queue == [] && current.None? && index == -1 && drainTimers == 0 && cleanupTimers == 0
      requires Fifo(queue)
      ensures Idle() && Work() == Spawns(script)
    {
      hide Fifo, Spawns;
    }

    lemma AllRan()
      requires !draining && queue == [] && Idle()
      ensures Done()
    {
      assert ran + [] == ran;
    }

    /** The end of `drainQueue`. */
    method StopDraining()
      requires queue == [] && Between()
      modifies this`current, this`draining, this`cleanupTimers
      ensures Idle() && !draining && Done() && script == old(script) && count == old(count) && ran == old(ran) &&
                Work() == old(Budget())
    {
      hide Fifo, Spawns, Pending, Left, Work, Idle, Between;
      EmptyBetween();
      current := None;
      draining := false;
      cleanupTimers := cleanupTimers - 1;
      NothingLeft();
      AllRan();
    }

    /** One turn of `drainQueue`: the queue becomes the current one, and its items run from `index + 1` on. */
    method RunCurrent() returns (threw: bool)
      requires Between() && queue != []
      modifies this`queue, this`count, this`drainTimers, this`script, this`ran, this`current, this`index
      ensures drainTimers == 0 && count >= old(count) && old(ran) <= ran
      ensures if threw then Idle() else Fifo(queue)
      ensures Spawns(script) + |queue| == old(Spawns(script))
      ensures Used(old(script), script, threw)
      ensures old(Calm(script)) ==> Calm(script) && !threw
      ensures threw ==> draining && Work() < old(Budget())
    {
      hide Fifo, Spawns, Pending, Left, Work, Idle;
      var t := |queue|;
      current := Some(queue);
      queue := [];
      index := index + 1;
      assert current.value[index..] + [] == current.value[index..];
      while index < t
        invariant current.Some? && |current.value| == t && 0 <= index <= t
        invariant Fifo(current.value[index..] + queue)
        invariant drainTimers == 0 && Spawns(script) + |queue| == old(Spawns(script))
        invariant Used(old(script), script, false)
        invariant count >= old(count) && old(ran) <= ran && (old(Calm(script)) ==> Calm(script))
      {
        var item := current.value[index];
        ghost var left := current.value[index + 1..];
        NextItem(current.value, index, queue);
        threw := RunItem(item, left);
        if threw {
          ThrownIsIdle(left);
          return;
        }
        index := index + 1;
      }
      assert current.value[index..] + queue == queue;
      threw := false;
    }

    /** The timer of `nextTick` fires. */
    method FireDrain() returns (threw: bool)
      requires Idle() && drainTimers > 0
      modifies this
      ensures Idle() && count >= old(count) && old(ran) <= ran
      ensures Used(old(script), script, threw)
      ensures old(Calm(script)) ==> Calm(script) && !threw
      // one timer is enough for all items, those that they enqueue included, unless one throws
      ensures (threw <==> draining) && (!threw ==> Done())
      ensures Work() < old(Work())
    {
      drainTimers := drainTimers - 1;
      assert queue[0..] == queue;
      threw := DrainQueue();
    }

    /** The timer of `drainQueue` fires: `cleanUpNextTick`. */
    method FireCleanup() returns (threw: bool)
      requires Idle() && cleanupTimers > 0
      modifies this
      ensures Idle() && count >= old(count) && old(ran) <= ran
      ensures Used(old(script), script, threw)
      ensures old(Calm(script)) ==> Calm(script) && !threw
      ensures (threw <==> draining) && (!threw ==> Done())
      ensures Work() <= old(Work()) && (draining ==> Work() < old(Work()))
    {
      hide Fifo, Spawns;
      cleanupTimers := cleanupTimers - 1;
      threw := false;
      if draining && current.Some? {
        threw := Resume();
      }
    }

    /** After a throw, the current queue and what was enqueued since become the queue, and `index` stays. */
    method Resume() returns (threw: bool)
      requires draining && current.Some? && 0 <= index < |current.value|
      requires drainTimers == 0 && cleanupTimers == 0 && Fifo(current.value[index + 1..] + queue)
      modifies this
      ensures Idle() && count >= old(count) && old(ran) <= ran
      ensures Used(old(script), script, threw)
      ensures old(Calm(script)) ==> Calm(script) && !threw
      ensures (threw <==> draining) && (!threw ==> Done())
      ensures Work() <= old(Spawns(script) + |current.value| + |queue| - index - 1)
      ensures draining ==> Work() < old(Spawns(script) + |current.value| + |queue| - index - 1)
    {
      hide Fifo, Spawns, Pending, Left, Work, Idle;
      draining := false;
      index := if current.value == [] then -1 else index;
      SuffixOfConcat(current.value, queue, index + 1);
      queue := current.value + queue;
      threw := false;
      if queue != [] {
        threw := DrainQueue();
      }
    }

    /** The event loop takes one event; a timer event needs a pending timer. */
    method Take(event: Event)
      requires Idle()
      modifies this
      ensures Idle() && count >= old(count) && old(ran) <= ran
      // a timer runs everything, unless an item throws
      ensures (event.DrainTimer? && old(drainTimers) > 0) || (event.CleanupTimer? && old(cleanupTimers) > 0) ==>
                (draining || Done()) && (old(Calm(script)) ==> Done())
      ensures event.Call? ==> count == old(count) + 1 && ran == old(ran)
    {
      hide Fifo;
      var threw;
      match event {
        case Call =>
          NextTickFromOutside();
        case DrainTimer =>
          if drainTimers > 0 {
            threw := FireDrain();
          }
        case CleanupTimer =>
          if cleanupTimers > 0 {
            threw := FireCleanup();
          }
      }
    }

    /** Let the pending timers fire until none is left: everything has run, whatever was thrown. */
    method Settle()
      requires Idle()
      modifies this
      ensures Idle() && Done() && !draining && old(ran) <= ran
    {
      hide Work;
      var threw;
      while drainTimers + cleanupTimers > 0
        invariant Idle() && old(ran) <= ran
        decreases Work(), draining
      {
        if drainTimers > 0 {
          threw := FireDrain();
        } else {
          threw := FireCleanup();
        }
      }
      assert ran + [] == ran;
    }
  }

  /** Code outside the queue calls `nextTick`, or one of the two timers fires. */
  datatype Event = Call | DrainTimer | CleanupTimer

  /** The number of calls from outside. */
  function CallsIn(events: seq<Event>): nat
    decreases |events|
  {
    if events == [] then 0
    else CallsIn(events[..|events| - 1]) + if events[|events| - 1].Call? then 1 else 0
  }

  lemma OneMoreEvent(events: seq<Event>, i: nat)
    requires i < |events|
    ensures CallsIn(events[..i + 1]) == CallsIn(events[..i]) + if events[i].Call? then 1 else 0
  {
    assert events[..i + 1][..i] == events[..i];
  }

  /** Any run: any behaviour of the items, any order of the events. */
  method Run(script: seq<Behaviour>, events: seq<Event>) returns (q: Queue)
    ensures q.Idle() && q.count >= CallsIn(events)
  {
    hide *;
    q := new Queue(script);
    NoEvents(events);
    for i := 0 to |events|
      invariant q.Idle() && fresh(q) && q.count >= CallsIn(events[..i])
    {
      OneMoreEvent(events, i);
      q.Take(events[i]);
    }
  }

  lemma NoEvents(events: seq<Event>)
    ensures CallsIn(events[..0]) == 0 && events[..|events|] == events
  {
  }

  /** What `Idle` says of the items: the one enqueued n-th is the one that runs n-th, and none is lost. */
  lemma InOrder(q: Queue)
    requires q.Idle()
    ensures |q.ran| + |q.Pending()| == q.count
    ensures forall i :: 0 <= i < |q.ran| ==> q.ran[i] == Item(i)
    ensures forall i :: 0 <= i < |q.Pending()| ==> q.Pending()[i] == Item(|q.ran| + i)
  {
    var all := q.ran + q.Pending();
    assert all == Items(q.count);
    forall i | 0 <= i < |q.ran|
      ensures q.ran[i] == Item(i)
    {
      assert all[i] == q.ran[i];
    }
    forall i | 0 <= i < |q.Pending()|
      ensures q.Pending()[i] == Item(|q.ran| + i)
    {
      assert all[|q.ran| + i] == q.Pending()[i];
    }
  }

  /** An item that ran, whether it threw or not, is not run again; waiting work has exactly one timer. */
  lemma AtMostOnceAndTimed(q: Queue)
    requires q.Idle()
    ensures forall i, j :: 0 <= i < j < |q.ran| ==> q.ran[i] != q.ran[j]
    ensures forall x :: x in q.ran ==> x !in q.Pending()
    ensures q.Pending() != [] ==> q.drainTimers + q.cleanupTimers == 1
  {
    InOrder(q);
  }
}
