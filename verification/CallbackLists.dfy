/**
  * Callback lists: what a list does between two callbacks, and a list whose callbacks call back into it.
  */
module CallbackLists {
  import opened Prelude

  datatype Flags = Flags(once: bool, memory: bool, unique: bool, stopOnFalse: bool)

  /** A call of the entry that was added as number `tag`. */
  datatype Call<A> = Call(tag: nat, args: A)

  /**
    * What a finished pass did: the entries called, and those in the list at the end. It is `cut` if a callback
    * emptied the list or stopped the pass.
    */
  datatype Pass = Pass(since: nat, called: seq<nat>, left: seq<nat>, skipped: set<nat>, cut: bool) {
    /** Each entry from `since` on is called at most once, in list order; a surviving one is, unless it is skipped. */
    ghost predicate Complete() {
      && Increasing(called) && (!cut ==> skipped == {}) && (forall x :: x in called ==> since <= x)
      && forall p :: 0 <= p < |left| && left[p] >= since ==> (left[p] in called <==> left[p] !in skipped)
    }
  }

  ghost predicate Increasing(s: seq<nat>) {
    forall i, j :: 0 <= i < j < |s| ==> s[i] < s[j]
  }

  ghost predicate AllComplete(passes: seq<Pass>) {
    forall p :: p in passes ==> p.Complete()
  }

  /** The list holds the functions added, as numbered by `tags`, in the order in which they were added. */
  ghost predicate Listed<F>(list: seq<F>, tags: seq<nat>, added: seq<F>) {
    && |tags| == |list| && Increasing(tags)
    && (forall p :: 0 <= p < |tags| ==> tags[p] < |added| && list[p] == added[tags[p]])
  }

  lemma ListedPush<F>(list: seq<F>, tags: seq<nat>, added: seq<F>, f: F)
    requires Listed(list, tags, added)
    ensures Listed(list + [f], tags + [|added|], added + [f])
  {
  }

  lemma ListedNone<F>(added: seq<F>)
    ensures Listed([], [], added)
  {
  }

  lemma ListedLength<F>(list: seq<F>, tags: seq<nat>, added: seq<F>)
    requires Listed(list, tags, added)
    ensures |tags| == |list|
  {
  }

  lemma ListedAt<F>(list: seq<F>, tags: seq<nat>, added: seq<F>, p: nat)
    requires Listed(list, tags, added) && p < |list|
    ensures p < |tags| && tags[p] < |added| && list[p] == added[tags[p]]
  {
  }

  lemma ListedTags<F>(list: seq<F>, tags: seq<nat>, added: seq<F>)
    requires Listed(list, tags, added)
    ensures |tags| == |list| && Increasing(tags) && forall x :: x in tags ==> x < |added|
  {
  }

  lemma ListedSplice<F>(list: seq<F>, tags: seq<nat>, added: seq<F>, n: nat)
    requires Listed(list, tags, added) && n < |list|
    ensures Listed(list[..n] + list[n + 1..], tags[..n] + tags[n + 1..], added)
  {
    IncreasingSplice(tags, n);
  }

  /** Where a pass stands. */
  datatype Place =
    Place(tags: seq<nat>, index: int, since: nat, called: seq<nat>, skipped: set<nat>, count: nat)
  {
    /** The entries up to `index`, and the later ones. */
    function Before(): seq<nat>
      requires index >= -1
    {
      if index < |tags| then tags[..index + 1] else tags
    }

    function After(): seq<nat>
      requires index >= -1
    {
      if index < |tags| then tags[index + 1..] else []
    }

    ghost predicate Valid() {
      index >= -1 && Dealt(Before(), After(), since, called, skipped, count)
    }

    /** An entry is added at the end; it is passed over if the index is already past the end. */
    function Push(): Place {
      this.(tags := tags + [count], count := count + 1,
            skipped := skipped + if |tags| <= index then {count} else {})
    }

    lemma PushKeeps()
      requires Valid() && since <= count
      ensures Push().Valid()
    {
      hide Dealt;
      var t := Push();
      if |tags| <= index {
        assert t.Before() == Before() + [count] && t.After() == [];
        PushPassedOver(Before(), since, called, skipped, count);
      } else {
        assert t.Before() == Before() && t.After() == After() + [count];
        assert skipped + {} == skipped;
        PushLater(Before(), After(), since, called, skipped, count);
      }
    }

    /** An entry goes, and the index stays at the entry it was at. */
    function Splice(n: nat): Place
      requires n < |tags|
    {
      this.(tags := tags[..n] + tags[n + 1..], index := if n <= index then index - 1 else index)
    }

    lemma SliceBefore(n: nat)
      requires n < |tags| && n <= index
      ensures Splice(n).After() == After() && n < |Before()|
      ensures Splice(n).Before() == Before()[..n] + Before()[n + 1..]
    {
    }

    lemma SliceAfter(n: nat)
      requires n < |tags| && -1 <= index < n
      ensures Splice(n).Before() == Before() && n - (index + 1) < |After()|
      ensures Splice(n).After() == After()[..n - (index + 1)] + After()[n - index..]
    {
    }

    lemma SpliceKeeps(n: nat)
      requires Valid() && n < |tags|
      ensures Splice(n).Valid()
    {
      hide Dealt;
      var t := Splice(n);
      if n <= index {
        SliceBefore(n);
        SpliceBefore(Before(), After(), since, called, skipped, count, n);
      } else {
        var k := n - (index + 1);
        SliceAfter(n);
        SpliceAfter(Before(), After(), since, called, skipped, count, k);
      }
    }

    /** The entry after the index is called. */
    function Call(): Place
      requires index + 1 < |tags| && index >= -1
    {
      this.(index := index + 1, called := called + [tags[index + 1]])
    }

    lemma CallKeeps()
      requires Valid() && index + 1 < |tags|
      ensures Call().Valid()
    {
      hide Dealt;
      var t := Call();
      assert t.Before() == Before() + [After()[0]];
      assert t.After() == After()[1..];
      CallFirst(Before(), After(), since, called, skipped, count);
    }

    /** The index moves past the end. */
    lemma PastEndKeeps()
      requires Valid() && |tags| <= index + 1
      ensures this.(index := index + 1).Valid()
    {
      assert this.(index := index + 1).Before() == Before();
    }

    lemma ClearKeeps()
      requires Valid()
      ensures this.(tags := []).Valid()
    {
    }

    /** A new pass covers the entries from number `first` on, which all come after the index. */
    lemma StartKeeps(first: nat)
      requires index >= -1 && Increasing(tags) && forall x :: x in tags ==> x < count
      requires (index == -1 && first == 0) || (index == |tags| - 1 && first == count)
      ensures this.(since := first, called := [], skipped := {}).Valid()
    {
      var t := this.(since := first, called := [], skipped := {});
      if index == -1 {
        assert t.Before() == [] && t.After() == tags;
      } else {
        assert t.Before() == tags && t.After() == [];
      }
    }

    /** The rest of the pass is dropped. */
    function Drop(): Place
      requires index >= -1
    {
      this.(index := |tags|, skipped := skipped + set x | x in After())
    }

    lemma DropKeeps()
      requires Valid()
      ensures Drop().Valid()
    {
      assert tags == Before() + After();
      assert Drop().Before() == tags && Drop().After() == [];
      DropRest(Before(), After(), since, called, skipped, count);
      assert forall y :: y in Before() + After() <==> y in Before() || y in After();
    }

    /** The end of a pass: what is left has been called or skipped. */
    lemma EndComplete(cut: bool)
      requires Valid() && |tags| <= index + 1 && (!cut ==> skipped == {})
      ensures Pass(since, called, tags, skipped, cut).Complete()
    {
      assert Before() == tags;
    }
  }

  /** The entries before the index are dealt with, and the ones after it are not. */
  ghost predicate Dealt(before: seq<nat>, after: seq<nat>, since: nat, called: seq<nat>, skipped: set<nat>,
      count: nat) {
    && Increasing(called) && Increasing(after)
    && (forall x :: x in called ==> since <= x < count)
    && (forall x :: x in skipped ==> x < count)
    && (forall y :: y in before ==> y < count)
    && (forall y :: y in after ==> since <= y < count && y !in skipped)
    && (forall x, y :: x in called && y in after ==> x < y)
    && (forall y :: y in before && since <= y ==> (y in called <==> y !in skipped))
  }

  lemma PushPassedOver(before: seq<nat>, since: nat, called: seq<nat>, skipped: set<nat>, count: nat)
    requires Dealt(before, [], since, called, skipped, count)
    ensures Dealt(before + [count], [], since, called, skipped + {count}, count + 1)
  {
    assert forall y :: y in before + [count] <==> y in before || y == count;
  }

  lemma PushLater(before: seq<nat>, after: seq<nat>, since: nat, called: seq<nat>, skipped: set<nat>, count: nat)
    requires Dealt(before, after, since, called, skipped, count) && since <= count
    ensures Dealt(before, after + [count], since, called, skipped, count + 1)
  {
    IncreasingPush(after, count);
    assert forall y :: y in after + [count] <==> y in after || y == count;
  }

  lemma SpliceBefore(before: seq<nat>, after: seq<nat>, since: nat, called: seq<nat>, skipped: set<nat>, count: nat,
                     n: nat)
    requires Dealt(before, after, since, called, skipped, count) && n < |before|
    ensures Dealt(before[..n] + before[n + 1..], after, since, called, skipped, count)
  {
    var rest := before[..n] + before[n + 1..];
    InSplice(before, n);
    assert forall y :: y in rest ==> y in before;
  }

  lemma SpliceAfter(before: seq<nat>, after: seq<nat>, since: nat, called: seq<nat>, skipped: set<nat>, count: nat,
                    n: nat)
    requires Dealt(before, after, since, called, skipped, count) && n < |after|
    ensures Dealt(before, after[..n] + after[n + 1..], since, called, skipped, count)
  {
    var rest := after[..n] + after[n + 1..];
    InSplice(after, n);
    IncreasingSplice(after, n);
    assert forall y :: y in rest ==> y in after;
  }

  lemma CallFirst(before: seq<nat>, after: seq<nat>, since: nat, called: seq<nat>, skipped: set<nat>, count: nat)
    requires Dealt(before, after, since, called, skipped, count) && after != []
    ensures Dealt(before + [after[0]], after[1..], since, called + [after[0]], skipped, count)
  {
    var x, rest := after[0], after[1..];
    assert x in after;
    IncreasingPush(called, x);
    IncreasingHead(x, rest, after);
  }

  lemma DropRest(before: seq<nat>, after: seq<nat>, since: nat, called: seq<nat>, skipped: set<nat>, count: nat)
    requires Dealt(before, after, since, called, skipped, count)
    ensures Dealt(before + after, [], since, called, skipped + (set x | x in after), count)
  {
    assert forall y :: y in before + after <==> y in before || y in after;
  }

  lemma IncreasingPush(s: seq<nat>, x: nat)
    requires Increasing(s) && forall y :: y in s ==> y < x
    ensures Increasing(s + [x])
  {
    assert forall i :: 0 <= i < |s| ==> s[i] in s;
  }

  lemma IncreasingHead(x: nat, rest: seq<nat>, s: seq<nat>)
    requires Increasing(s) && s == [x] + rest
    ensures Increasing(rest) && forall y :: y in rest ==> x < y && y in s
  {
    forall y | y in rest
      ensures x < y && y in s
    {
      var i :| 0 <= i < |rest| && rest[i] == y;
      assert s[0] == x && s[i + 1] == y;
    }
    assert forall i :: 0 <= i < |rest| ==> rest[i] == s[i + 1];
  }

  lemma InSplice(s: seq<nat>, n: nat)
    requires n < |s|
    ensures forall y :: y in s[..n] + s[n + 1..] ==> y in s
  {
  }

  lemma IncreasingSplice(s: seq<nat>, n: nat)
    requires Increasing(s) && n < |s|
    ensures Increasing(s[..n] + s[n + 1..])
  {
  }

  function Without<T(==)>(s: seq<T>, x: T): (r: seq<T>)
    ensures x !in r && forall y :: y in r ==> y in s
  {
    if s == [] then []
    else Without(s[..|s| - 1], x) + if s[|s| - 1] == x then [] else [s[|s| - 1]]
  }

  /** `n` consecutive numbers. */
  function From(first: nat, n: nat): (s: seq<nat>)
    ensures |s| == n
  {
    seq(n, i requires i >= 0 => first + i)
  }

  /** Calls of these entries, in order. */
  function CallsOf<A>(tags: seq<nat>, args: A): (r: seq<Call<A>>)
    ensures |r| == |tags|
  {
    seq(|tags|, i requires 0 <= i < |tags| => Call(tags[i], args))
  }

  /** The entries after the index. */
  function ToCome(tags: seq<nat>, index: int): seq<nat> {
    if -1 <= index < |tags| then tags[index + 1..] else []
  }

  lemma OneMoreCall<A>(tags: seq<nat>, index: int, args: A)
    requires index >= -1 && index + 1 < |tags|
    ensures CallsOf(ToCome(tags, index), args) == [Call(tags[index + 1], args)] + CallsOf(ToCome(tags, index + 1), args)
  {
    assert ToCome(tags, index) == [tags[index + 1]] + ToCome(tags, index + 1);
  }

  class Callbacks<F(==), A> {
    const options: Flags
    /** The empty string in place of the list. */
    var disabled: bool
    var list: seq<F>
    var queue: seq<A>
    var index: int
    var memory: Option<A>
    var locked: bool
    var fired: bool
    var firing: bool

    /** Every entry ever added, and the place there of each entry of the list. */
    ghost var added: seq<F>
    ghost var tags: seq<nat>
    /** The calls made so far, and the passes finished so far. */
    ghost var calls: seq<Call<A>>
    ghost var passes: seq<Pass>
    /** The current pass covers the entries from number `since` on. */
    ghost var since: nat
    ghost var called: seq<nat>
    ghost var skipped: set<nat>
    /** A callback of the current pass has emptied the list or stopped the pass. */
    ghost var cut: bool

    ghost predicate Basic()
      reads this
    {
      && Listed(list, tags, added)
      && index >= -1 && since <= |added| && (!cut ==> skipped == {})
      && (disabled ==> locked && list == [] && queue == [] && memory.None?)
      && AllComplete(passes)
    }

    ghost function Where(): Place
      reads this`tags, this`index, this`since, this`called, this`skipped, this`added
    {
      Place(tags, index, since, called, skipped, |added|)
    }

    ghost predicate Passing()
      reads this`tags, this`index, this`since, this`called, this`skipped, this`added
    {
      Where().Valid()
    }

    /** Whenever code outside the list runs. */
    ghost predicate Valid()
      reads this
    {
      && Basic()
      && if firing then Passing() && (memory.Some? || disabled) && (cut || disabled || index < |list|)
         else queue == [] && index == -1 && !cut
    }

    /** Within a pass, which may have been cut short. */
    ghost predicate InPass()
      reads this
    {
      Basic() && firing && Passing() && (memory.None? ==> |list| <= index + 1)
    }

    /** A pass is in the queue, but not begun. */
    ghost predicate Ready()
      reads this
    {
      Basic() && Passing() && !firing && |queue| == 1 && called == [] && !cut && index < |list|
    }

    /** Between two passes. */
    ghost predicate Between()
      reads this
    {
      Basic() && Passing() && firing && called == [] && !cut
    }

    constructor (options: Flags)
      ensures Valid() && this.options == options && !disabled && !locked && !firing && memory.None?
      ensures list == [] && added == [] && tags == [] && calls == [] && passes == []
    {
      this.options := options;
      disabled, list, queue, index, memory, locked, fired, firing := false, [], [], -1, None, false, false, false;
      added, tags, calls, passes, since, called, skipped, cut := [], [], [], [], 0, [], {}, false;
    }

    predicate Has(f: F)
      reads this
    {
      f in list
    }

    /** The recursive part of `add`. */
    method Push(f: F)
      requires Basic() && !disabled
      modifies this`list, this`added, this`tags, this`skipped
      requires cut || index < |list|
      ensures Basic() && (old(Passing()) ==> Passing())
      ensures if options.unique && f in old(list) then list == old(list) && added == old(added) && tags == old(tags)
              else list == old(list) + [f] && added == old(added) + [f] && tags == old(tags) + [|old(added)|]
      // an entry is passed over if the list was emptied and is still no longer than the index
      ensures skipped == old(skipped) + if |added| > |old(added)| && |old(list)| <= index then {|old(added)|} else {}
    {
      hide Place.Valid, Listed, AllComplete;
      if !(options.unique && Has(f)) {
        ListedPush(list, tags, added, f);
        assert |tags| == |list| by {
          ListedLength(list, tags, added);
        }
        if Passing() {
          Where().PushKeeps();
        }
        if |list| <= index {
          skipped := skipped + {|added|};
        }
        tags := tags + [|added|];
        list := list + [f];
        added := added + [f];
        assert Where().skipped == old(Where().Push()).skipped;
      }
    }

    /** The functions given to `add`. */
    method PushAll(fs: seq<F>)
      requires Basic() && !disabled && (cut || index < |list|)
      modifies this`list, this`added, this`tags, this`skipped
      ensures Basic() && (old(Passing()) ==> Passing()) && (cut || index < |list|)
      ensures old(list) <= list && old(added) <= added && (old(Ready()) ==> Ready()) && (old(Valid()) ==> Valid())
      ensures !options.unique ==>
                list == old(list) + fs && added == old(added) + fs && tags == old(tags) + From(|old(added)|, |fs|)
    {
      hide Passing, Basic;
      var i := 0;
      while i < |fs|
        invariant i <= |fs| && Basic() && (old(Passing()) ==> Passing()) && (cut || index < |list|)
        invariant old(list) <= list && old(added) <= added
        invariant !options.unique ==> list == old(list) + fs[..i] && added == old(added) + fs[..i]
        invariant !options.unique ==> tags == old(tags) + From(|old(added)|, i)
      {
        Push(fs[i]);
        i := i + 1;
      }
    }

    /** `inArray(f, s, from)`. */
    method InArray(f: F, from: nat) returns (n: int)
      requires from <= |list|
      ensures n == -1 || from <= n < |list|
      ensures n == -1 ==> f !in list[from..]
      ensures n != -1 ==> list[n] == f && f !in list[from..n]
    {
      n := from;
      while n < |list| && list[n] != f
        invariant from <= n <= |list| && f !in list[from..n]
      {
        n := n + 1;
      }
      if n == |list| {
        n := -1;
      }
    }

    /** `splice(n, 1), n <= l && l--`: an entry goes, and the index stays at the same entry. */
    method Splice(n: nat)
      requires Basic() && n < |list|
      modifies this`list, this`tags, this`index
      ensures Basic() && (old(Passing()) ==> Passing())
      ensures list == old(list)[..n] + old(list)[n + 1..] && tags == old(tags)[..n] + old(tags)[n + 1..]
      ensures index == old(index) - if n <= old(index) then 1 else 0
    {
      hide Place.Valid, Listed, AllComplete;
      ListedLength(list, tags, added);
      ListedSplice(list, tags, added, n);
      if Passing() {
        Where().SpliceKeeps(n);
      }
      list := list[..n] + list[n + 1..];
      tags := tags[..n] + tags[n + 1..];
      index := if n <= index then index - 1 else index;
    }

    /** `remove` of one function: every occurrence goes, and the rest keeps its order. */
    method Remove(f: F)
      requires Valid()
      modifies this`list, this`tags, this`index
      ensures Valid() && list == Without(old(list), f)
    {
      hide Basic, Passing, Without, Scanning;
      ghost var was := list;
      ghost var k: nat := 0;
      var n := InArray(f, 0);
      ScanningStart(list, f);
      Scanned(list, 0, n, was, 0, f);
      k := if n == -1 then |was| else n;
      while n != -1
        invariant Valid() && -1 <= n
        invariant if n == -1 then list == Without(was, f)
                  else n < |list| && list[n] == f && Scanning(list, n, was, k, f)
        decreases |list|
      {
        var m := n;
        Spliced(list, n, was, k, f);
        Splice(n);
        n := InArray(f, m);
        Scanned(list, m, n, was, k + 1, f);
        k := if n == -1 then |was| else k + 1 + (n - m);
      }
    }

    /** `empty`. */
    method Empty()
      requires Valid()
      modifies this`list, this`tags, this`cut
      ensures Valid() && list == [] && tags == [] && (cut <==> firing || old(cut))
    {
      hide Place.Valid, AllComplete, Listed;
      ListedNone(added);
      ListedLength(list, tags, added);
      if firing {
        Where().ClearKeeps();
      }
      if !disabled {
        list, tags := [], [];
      }
      cut := cut || firing;
    }

    method Disable()
      requires Valid()
      modifies this`list, this`tags, this`locked, this`queue, this`disabled, this`memory
      ensures Valid() && disabled && locked && memory.None?
    {
      hide Place.Valid, AllComplete, Listed;
      ListedNone(added);
      if firing {
        Where().ClearKeeps();
      }
      locked, queue, list, disabled, memory, tags := true, [], [], true, None, [];
    }

    method Lock()
      requires Valid()
      modifies this`list, this`tags, this`locked, this`queue, this`disabled, this`memory
      ensures Valid() && locked && queue == []
      ensures if old(memory).Some? || firing then list == old(list) && disabled == old(disabled) &&
                memory == old(memory)
              else disabled && memory.None?
    {
      hide Place.Valid, AllComplete, Listed;
      ListedNone(added);
      locked, queue := true, [];
      if memory.None? && !firing {
        list, disabled, tags := [], true, [];
      }
    }

    // The pieces of `fireWith`, of `add` and of the firing loop between which other code runs.

    /** `fireWith` puts a pass in the queue. */
    method Enqueue(args: A)
      requires Valid() && !locked
      modifies this`queue, this`since, this`called, this`skipped
      ensures queue == old(queue) + [args]
      ensures if firing then Valid() && called == old(called) && since == old(since) else Ready() && since == 0
    {
      hide Place.Valid, AllComplete, Listed;
      queue := queue + [args];
      if !firing {
        ListedTags(list, tags, added);
        Where().StartKeeps(0);
        since, called, skipped := 0, [], {};
      }
    }

    /** `add` when there is something to remember: a pass over the new entries only. */
    method Rearm()
      requires Valid() && memory.Some? && !firing
      modifies this`queue, this`index, this`since, this`called, this`skipped
      ensures Ready() && queue == [memory.value] && index == |list| - 1 && since == |added|
    {
      hide Place.Valid, AllComplete, Listed;
      ListedTags(list, tags, added);
      Where().(index := |list| - 1).StartKeeps(|added|);
      index := |list| - 1;
      queue := queue + [memory.value];
      since, called, skipped := |added|, [], {};
    }

    method Start()
      requires Ready()
      modifies this`locked, this`fired, this`firing
      ensures Between() && locked == (old(locked) || options.once)
    {
      hide Place.Valid, Listed, AllComplete;
      locked := locked || options.once;
      fired, firing := true, true;
    }

    /** `t = u.shift()`. */
    method TakeNext()
      requires Between() && queue != []
      modifies this`queue, this`memory
      ensures InPass() && memory == Some(old(queue)[0]) && queue == old(queue)[1..]
    {
      memory := Some(queue[0]);
      queue := queue[1..];
    }

    /** `++l < s.length`, and the call of the entry there. */
    method Advance() returns (more: bool)
      requires InPass()
      modifies this`index, this`called, this`calls
      ensures InPass() && (more ==> Valid()) && index == old(index) + 1 && more == (index < |list|)
      ensures more ==> memory.Some? && calls == old(calls) + [Call(tags[index], memory.value)]
      ensures more ==> called == old(called) + [tags[index]]
      ensures !more ==> calls == old(calls) && called == old(called)
    {
      hide Place.Valid, AllComplete, Listed;
      ListedTags(list, tags, added);
      more := index + 1 < |list|;
      if more {
        Where().CallKeeps();
      } else {
        Where().PastEndKeeps();
      }
      index := index + 1;
      if more {
        called := called + [tags[index]];
        calls := calls + [Call(tags[index], memory.value)];
      }
    }

    /** `l = s.length, t = false` when a callback returns false. */
    method Returned(isFalse: bool)
      requires Valid() && firing
      modifies this`index, this`memory, this`skipped, this`cut
      ensures cut == (old(cut) || (isFalse && options.stopOnFalse))
      ensures !(isFalse && options.stopOnFalse) ==> memory == old(memory)
      ensures InPass() && (if isFalse && options.stopOnFalse then index == |list| else index == old(index))
    {
      hide Place.Valid, AllComplete, Listed;
      ListedTags(list, tags, added);
      if isFalse && options.stopOnFalse {
        Where().DropKeeps();
        skipped := Where().Drop().skipped;
        index := |list|;
        memory, cut := None, true;
        assert Where() == old(Where().Drop());
      }
    }

    /** The end of a pass. */
    method EndPass()
      requires InPass() && |list| <= index
      modifies this`index, this`since, this`called, this`skipped, this`passes, this`cut
      ensures Between() && index == -1
      ensures passes == old(passes) + [Pass(old(since), old(called), tags, old(skipped), old(cut))] && !cut
    {
      hide Place.Valid, Listed;
      ListedTags(list, tags, added);
      Where().EndComplete(cut);
      Where().(index := -1).StartKeeps(0);
      passes := passes + [Pass(since, called, tags, skipped, cut)];
      index, since, called, skipped, cut := -1, 0, [], {}, false;
    }

    /** The end of the firing loop. */
    method Finish()
      requires Between() && queue == [] && index == -1
      modifies this`memory, this`firing, this`list, this`tags, this`disabled
      ensures Valid() && !firing && memory == if options.memory then old(memory) else None
      ensures if locked then list == [] && tags == [] && disabled == memory.None?
              else list == old(list) && tags == old(tags) && disabled == old(disabled)
    {
      if !options.memory {
        memory := None;
      }
      firing := false;
      if locked {
        disabled := memory.None?;
        list, tags := [], [];
      }
    }
  }

  /** A call that a callback makes of its own list. */
  datatype Action<F, A> = Add(fs: seq<F>) | Remove(fs: seq<F>) | Empty | Disable | Lock | Fire(args: A)

  /** What one call of a callback does, and whether it returns false. */
  datatype Behaviour<F, A> = Behaviour(actions: seq<Action<F, A>>, returnsFalse: bool)

  ghost predicate NeverEmpties<F, A>(script: seq<Behaviour<F, A>>) {
    forall b, a :: b in script && a in b.actions ==> !a.Empty?
  }

  lemma NeverEmptiesFirst<F, A>(script: seq<Behaviour<F, A>>)
    requires NeverEmpties(script) && script != []
    ensures NeverEmpties(script[1..]) && forall a :: a in script[0].actions ==> !a.Empty?
  {
  }

  /** No pass was emptied or stopped. */
  ghost predicate NoneCut(passes: seq<Pass>) {
    forall p :: p in passes ==> !p.cut
  }

  /** A list and its callbacks: the n-th call of a callback behaves as the n-th entry of the script says. */
  class Page<F(==), A> {
    const list: Callbacks<F, A>
    var script: seq<Behaviour<F, A>>

    constructor (options: Flags, script: seq<Behaviour<F, A>>)
      ensures list.Valid() && !list.firing && list.options == options && list.passes == [] && fresh(list)
      ensures this.script == script
    {
      list := new Callbacks(options);
      this.script := script;
    }

    /** No pass has been cut, and no callback will cut one. */
    ghost predicate Gentle()
      reads this`script, list`cut, list`passes
    {
      !list.options.stopOnFalse && NeverEmpties(script) && !list.cut && NoneCut(list.passes)
    }

    method Add(fs: seq<F>)
      requires list.Valid()
      modifies this, list
      ensures old(list.added) <= list.added
      ensures !old(list.disabled) && !list.options.unique ==> old(list.added) + fs <= list.added
      // with something to remember, the new entries get a pass of their own
      ensures if old(!list.disabled && list.memory.Some? && !list.firing)
              then old(list.passes) < list.passes && list.passes[|old(list.passes)|].since == |old(list.added)|
              else list.passes == old(list.passes) && script == old(script)
      ensures old(script == [] && !list.disabled && list.memory.Some? && !list.firing) && !list.options.unique ==>
                list.calls == old(list.calls + CallsOf(From(|list.added|, |fs|), list.memory.value))
      ensures old(Gentle()) ==> Gentle()
      ensures list.Valid() && list.firing == old(list.firing) && |script| <= old(|script|)
      ensures old(list.passes) <= list.passes
      ensures old(list.firing) ==> list.passes == old(list.passes) && list.since == old(list.since)
      decreases |script|, 2
    {
      hide Callbacks.Basic, Callbacks.Passing, NoneCut, NeverEmpties;
      if !list.disabled {
        TagsOfList();
        var replay := list.memory.Some? && !list.firing;
        if replay {
          list.Rearm();
        }
        list.PushAll(fs);
        NewToCome(old(list.tags), From(|old(list.added)|, |fs|));
        if replay {
          FireLoop();
        }
      }
    }

    lemma TagsOfList()
      requires list.Valid()
      ensures |list.tags| == |list.list|
    {
      ListedLength(list.list, list.tags, list.added);
    }

    lemma NewToCome(tags: seq<nat>, more: seq<nat>)
      ensures ToCome(tags + more, |tags| - 1) == more
    {
    }

    lemma AllToCome()
      requires list.Valid()
      ensures !list.firing ==> ToCome(list.tags, list.index) == list.tags
    {
    }

    method RemoveAll(fs: seq<F>)
      requires list.Valid()
      modifies list`list, list`tags, list`index
      ensures list.Valid() && forall f :: f in fs ==> f !in list.list
    {
      var i := 0;
      while i < |fs|
        invariant i <= |fs| && list.Valid() && forall k :: 0 <= k < i ==> fs[k] !in list.list
      {
        list.Remove(fs[i]);
        i := i + 1;
      }
    }

    method FireWith(args: A)
      requires list.Valid()
      modifies this, list
      ensures old(list.added) <= list.added
      // a pass over all entries, at once or after the one under way, unless the list is locked
      ensures !old(list.locked) && !old(list.firing) ==>
                old(list.passes) < list.passes && list.passes[|old(list.passes)|].since == 0
      // callbacks that do nothing are called one after the other, with the arguments
      ensures old(script == [] && !list.locked && !list.firing) ==>
                && list.calls == old(list.calls + CallsOf(list.tags, args))
                && (list.options.memory ==> list.memory == Some(args))
      ensures old(!list.locked && list.firing) ==> list.queue == old(list.queue) + [args] && script == old(script)
      ensures old(list.locked) ==>
                list.queue == old(list.queue) && list.passes == old(list.passes) && script == old(script)
      ensures old(Gentle()) ==> Gentle()
      ensures list.Valid() && list.firing == old(list.firing) && |script| <= old(|script|)
      ensures old(list.passes) <= list.passes
      ensures old(list.firing) ==> list.passes == old(list.passes) && list.since == old(list.since)
      decreases |script|, 2
    {
      hide Callbacks.Basic, Callbacks.Passing, NoneCut, NeverEmpties;
      if !list.locked {
        AllToCome();
        list.Enqueue(args);
        if !list.firing {
          FireLoop();
        }
      }
    }

    /** The firing loop: every pass that it makes is complete. */
    method FireLoop()
      requires list.Ready()
      modifies this, list
      ensures old(list.added) <= list.added
      ensures old(Gentle()) ==> Gentle()
      ensures list.Valid() && !list.firing && |script| <= old(|script|)
      ensures old(list.passes) < list.passes && list.passes[|old(list.passes)|].since == old(list.since)
      ensures old(script) == [] ==>
                && script == [] && list.calls == old(list.calls + CallsOf(ToCome(list.tags, list.index), list.queue[0]))
                && (list.options.memory ==> list.memory == Some(old(list.queue)[0]))
      decreases |script|, 1
    {
      hide Callbacks.Basic, Callbacks.Passing, NeverEmpties, NoneCut;
      list.Start();
      while list.queue != []
        invariant list.Between() && |script| <= old(|script|) && old(list.passes) <= list.passes
        invariant (old(Gentle()) ==> Gentle()) && old(list.added) <= list.added
        invariant list.queue == [] ==> list.index == -1 && old(list.passes) < list.passes
        invariant if list.passes == old(list.passes) then list.since == old(list.since)
                  else list.passes[|old(list.passes)|].since == old(list.since)
        invariant old(script) == [] ==>
                    && script == []
                    && if list.passes == old(list.passes)
                       then
                         && list.queue == old(list.queue) && list.tags == old(list.tags) &&
                              list.index == old(list.index)
                         && list.calls == old(list.calls)
                       else
                         && list.queue == [] && list.memory == Some(old(list.queue)[0])
                         && list.calls == old(list.calls + CallsOf(ToCome(list.tags, list.index), list.queue[0]))
        decreases |script|, |list.queue|
      {
        NextPass();
      }
      list.Finish();
    }

    method NextPass()
      requires list.Between() && list.queue != []
      modifies this, list
      ensures old(list.added) <= list.added && (old(Gentle()) ==> Gentle())
      ensures list.Between() && list.index == -1 && |script| <= old(|script|)
      ensures |list.passes| == |old(list.passes)| + 1 && old(list.passes) < list.passes
      ensures list.passes[|old(list.passes)|].since == old(list.since)
      ensures |script| == old(|script|) ==> |list.queue| < |old(list.queue)|
      ensures old(script) == [] ==>
                && script == [] && list.queue == old(list.queue)[1..] && list.tags == old(list.tags)
                && list.memory == Some(old(list.queue)[0]) && list.list == old(list.list)
                && list.calls == old(list.calls + CallsOf(ToCome(list.tags, list.index), list.queue[0]))
      decreases |script|, 1, 1
    {
      hide Callbacks.Basic, Callbacks.Passing, NeverEmpties;
      list.TakeNext();
      FirePass();
      list.EndPass();
    }

    method FirePass()
      requires list.InPass()
      modifies this, list
      ensures old(list.added) <= list.added
      ensures old(Gentle()) ==> Gentle()
      ensures list.InPass() && |list.list| <= list.index && |script| <= old(|script|)
      ensures |script| == old(|script|) ==> list.queue == old(list.queue)
      ensures list.passes == old(list.passes) && list.since == old(list.since)
      // callbacks that do nothing are called one after the other
      ensures old(script == [] && list.memory.Some?) ==>
                && script == [] && list.queue == old(list.queue) && list.tags == old(list.tags)
                && list.memory == old(list.memory) && list.list == old(list.list)
                && list.calls == old(list.calls + CallsOf(ToCome(list.tags, list.index), list.memory.value))
      decreases |script|, 1, 0
    {
      hide Callbacks.Basic, Callbacks.Passing, CallsOf, ToCome, NoneCut, NeverEmpties;
      ghost var quiet := script == [] && list.memory.Some?;
      ghost var calls := if quiet then list.calls + CallsOf(ToCome(list.tags, list.index), list.memory.value) else [];
      var more := Next(quiet, calls);
      while more
        invariant list.InPass() && (more ==> list.Valid()) && more == (list.index < |list.list|)
        invariant |script| <= old(|script|) && list.passes == old(list.passes) && list.since == old(list.since)
        invariant (old(Gentle()) ==> Gentle()) && old(list.added) <= list.added
        invariant |script| == old(|script|) ==> list.queue == old(list.queue)
        invariant quiet ==> Ahead(calls) && list.tags == old(list.tags) && list.list == old(list.list)
                            && list.memory == old(list.memory)
        decreases |script|, more, |list.list| - list.index
      {
        var returnsFalse := RunCallback();
        list.Returned(returnsFalse);
        more := Next(quiet, calls);
      }
      NoneToCome(calls);
    }

    /** Callbacks do nothing, and with the calls to come the calls will be these. */
    ghost predicate Ahead(calls: seq<Call<A>>)
      reads this, list
    {
      && script == [] && list.memory.Some?
      && list.calls + CallsOf(ToCome(list.tags, list.index), list.memory.value) == calls
    }

    lemma NoneToCome(calls: seq<Call<A>>)
      requires list.InPass() && |list.list| <= list.index
      ensures Ahead(calls) ==> list.calls == calls
    {
      ListedLength(list.list, list.tags, list.added);
      if Ahead(calls) {
        assert list.calls + [] == calls;
      }
    }

    /** The next entry is called, if there is one. */
    method Next(ghost quiet: bool, ghost calls: seq<Call<A>>) returns (more: bool)
      requires list.InPass() && (quiet ==> Ahead(calls))
      modifies list`index, list`called, list`calls
      ensures list.InPass() && (more ==> list.Valid()) && list.index == old(list.index) + 1
      ensures more == (list.index < |list.list|) && (quiet ==> Ahead(calls))
    {
      hide Callbacks.Basic, Callbacks.Passing, CallsOf, ToCome;
      ToCall();
      more := list.Advance();
      assert more && quiet ==> forall x :: old(list.calls) + ([list.calls[|list.calls| - 1]] + x) == list.calls + x;
    }

    /** The next call, if there is one. */
    lemma ToCall()
      requires list.InPass()
      ensures |list.tags| == |list.list| && list.index >= -1
      ensures list.memory.Some? && list.index + 1 < |list.list| ==>
                CallsOf(ToCome(list.tags, list.index), list.memory.value) ==
                [Call(list.tags[list.index + 1], list.memory.value)]
                + CallsOf(ToCome(list.tags, list.index + 1), list.memory.value)
      ensures list.index + 1 >= |list.list| ==>
                ToCome(list.tags, list.index) == [] && ToCome(list.tags, list.index + 1) == []
    {
      ListedLength(list.list, list.tags, list.added);
      if list.memory.Some? && list.index + 1 < |list.list| {
        OneMoreCall(list.tags, list.index, list.memory.value);
      }
    }

    /** The last of the actions has had its effect. */
    ghost predicate Did(actions: seq<Action<F, A>>)
      reads this, list
    {
      actions != [] ==>
        match actions[|actions| - 1]
        case Remove(fs) => forall f :: f in fs ==> f !in list.list
        case Empty => list.list == []
        case Disable => list.disabled
        case Lock => list.locked && list.queue == []
        case _ => true
    }

    method RunCallback() returns (returnsFalse: bool)
      requires list.Valid() && list.firing
      modifies this, list
      ensures old(list.added) <= list.added
      ensures old(Gentle()) ==> Gentle()
      ensures list.Valid() && list.firing && list.passes == old(list.passes) && |script| <= old(|script|)
      ensures list.since == old(list.since)
      ensures old(script) == [] ==> script == [] && unchanged(list) && !returnsFalse
      // the callback does what it is given, and answers
      ensures old(script) != [] ==>
                && |script| < old(|script|) && returnsFalse == old(script)[0].returnsFalse
                && Did(old(script)[0].actions)
      ensures |script| == old(|script|) ==>
        list.queue == old(list.queue) && list.list == old(list.list) && list.index == old(list.index)
      decreases |script|, 0
    {
      hide Callbacks.Basic, Callbacks.Passing, NoneCut, NeverEmpties;
      returnsFalse := false;
      if script != [] {
        var behaviour := script[0];
        if NeverEmpties(script) {
          NeverEmptiesFirst(script);
        }
        script := script[1..];
        var i := 0;
        while i < |behaviour.actions|
          invariant i <= |behaviour.actions| && (old(Gentle()) ==> Gentle()) && old(list.added) <= list.added
          invariant list.Valid() && list.firing && list.passes == old(list.passes) && |script| < old(|script|)
          invariant list.since == old(list.since) && Did(behaviour.actions[..i])
        {
          assert behaviour.actions[..i + 1][i] == behaviour.actions[i];
          Perform(behaviour.actions[i]);
          i := i + 1;
        }
        assert behaviour.actions[..i] == behaviour.actions;
        returnsFalse := behaviour.returnsFalse;
      }
    }

    method Perform(action: Action<F, A>)
      requires list.Valid()
      modifies this, list
      ensures old(list.added) <= list.added
      ensures action.Add? && !old(list.disabled) && !list.options.unique ==> old(list.added) + action.fs <= list.added
      ensures action.Remove? ==> forall f :: f in action.fs ==> f !in list.list
      ensures action.Fire? && !old(list.locked) && !old(list.firing) ==> |old(list.passes)| < |list.passes|
      ensures action.Disable? ==> list.disabled
      ensures action.Lock? ==> list.locked && list.queue == []
      ensures action.Empty? ==> list.list == []
      ensures old(Gentle()) && !action.Empty? ==> Gentle()
      ensures list.Valid() && list.firing == old(list.firing) && |script| <= old(|script|)
      ensures old(list.passes) <= list.passes
      ensures old(list.firing) ==> list.passes == old(list.passes) && list.since == old(list.since)
      decreases |script|, 3
    {
      hide Callbacks.Basic, Callbacks.Passing, NoneCut, NeverEmpties;
      match action {
        case Add(fs) => Add(fs);
        case Remove(fs) => RemoveAll(fs);
        case Empty => list.Empty();
        case Disable => list.Disable();
        case Lock => list.Lock();
        case Fire(args) => FireWith(args);
      }
    }
  }

  /** Any run: every pass calls its entries at most once, in list order, and misses no survivor but the skipped ones. */
  method Run<F(==), A>(options: Flags, script: seq<Behaviour<F, A>>, actions: seq<Action<F, A>>)
    returns (page: Page<F, A>)
    ensures page.list.Valid() && !page.list.firing && AllComplete(page.list.passes) && page.Did(actions)
    ensures !options.stopOnFalse && NeverEmpties(script) && (forall a :: a in actions ==> !a.Empty?) ==>
              NoneCut(page.list.passes)
  {
    page := new Page(options, script);
    for i := 0 to |actions|
      invariant page.list.Valid() && !page.list.firing && fresh(page) && fresh(page.list) && page.Did(actions[..i])
      invariant !options.stopOnFalse && NeverEmpties(script) && (forall a :: a in actions ==> !a.Empty?) ==>
                page.Gentle()
    {
      assert actions[..i + 1][i] == actions[i];
      page.Perform(actions[i]);
    }
    assert actions[..|actions|] == actions;
  }

  /** In a pass that is not cut, a survivor is called exactly once. */
  lemma SurvivorCalledOnce(p: Pass, i: nat)
    requires p.Complete() && !p.cut && i < |p.left| && p.left[i] >= p.since
    ensures exists k :: 0 <= k < |p.called| && p.called[k] == p.left[i]
    ensures forall j, k ::
              0 <= j < |p.called| && 0 <= k < |p.called| && p.called[j] == p.left[i] == p.called[k] ==> j == k
  {
    assert p.left[i] in p.called;
  }

  /** `empty` in the middle of a pass makes the pass miss an entry added afterwards. */
  method EmptySkips(f: nat, g: nat, args: nat) returns (c: Callbacks<nat, nat>)
    ensures |c.passes| == 1 && c.passes[0].left == [1] && c.passes[0].called == [0]
  {
    hide Callbacks.Passing, Callbacks.Basic;
    c := InFirstCall(f, args);
    c.Empty();
    c.Push(g);
    var more := c.Advance();
    c.EndPass();
  }

  /** A list of one entry, while that entry is called. */
  method InFirstCall(f: nat, args: nat) returns (c: Callbacks<nat, nat>)
    ensures fresh(c) && c.Valid() && c.firing && !c.options.unique && !c.disabled && c.index == 0
    ensures |c.added| == 1 && c.called == [0] && c.passes == []
  {
    hide Callbacks.Passing, Callbacks.Basic;
    c := OfOne(f);
    c.Enqueue(args);
    c.Start();
    c.TakeNext();
    var more := c.Advance();
  }

  method OfOne(f: nat) returns (c: Callbacks<nat, nat>)
    ensures fresh(c) && c.Valid() && !c.firing && !c.options.unique && !c.disabled && !c.locked
    ensures c.list == [f] && c.tags == [0] && |c.added| == 1 && c.passes == []
  {
    hide Callbacks.Passing, Callbacks.Basic;
    c := new Callbacks(Flags(false, false, false, false));
    c.Push(f);
  }

  /** Where a list stands when `was` is scanned up to `j`, and `list` up to `m`. */
  ghost predicate Scanning<T>(list: seq<T>, m: nat, was: seq<T>, j: nat, x: T) {
    m <= |list| && j <= |was| && list[m..] == was[j..] && list[..m] == Without(was[..j], x)
  }

  /** An entry is dropped. */
  lemma Spliced<T>(list: seq<T>, n: nat, was: seq<T>, k: nat, x: T)
    requires Scanning(list, n, was, k, x) && n < |list| && list[n] == x
    ensures k < |was| && Scanning(list[..n] + list[n + 1..], n, was, k + 1, x)
  {
    assert |list| - n == |was| - k;
    assert was[k] == was[k..][0] == list[n..][0];
    assert was[k + 1..] == was[k..][1..] == list[n..][1..] == list[n + 1..];
    WithoutNext(was, k, x);
  }

  /** The search goes on to the next occurrence, or to the end. */
  lemma Scanned<T>(list: seq<T>, m: nat, n: int, was: seq<T>, j: nat, x: T)
    requires Scanning(list, m, was, j, x) && (n == -1 || m <= n < |list|)
    requires if n == -1 then x !in list[m..] else x !in list[m..n]
    ensures if n == -1 then list == Without(was, x) else Scanning(list, n, was, j + (n - m), x)
  {
    assert |list| - m == |list[m..]| == |was| - j;
    var d := (if n == -1 then |list| else n) - m;
    assert list[m..m + d] == if n == -1 then list[m..] else list[m..n];
    WithoutMore(list, m, was, j, d, x);
  }

  lemma ScanningStart<T>(s: seq<T>, x: T)
    ensures Scanning(s, 0, s, 0, x)
  {
    assert s[..0] == [];
  }

  /** The entry at `k` is dropped. */
  lemma WithoutNext<T>(was: seq<T>, k: nat, x: T)
    requires k < |was| && was[k] == x
    ensures Without(was[..k + 1], x) == Without(was[..k], x)
  {
    assert was[..k + 1][..k] == was[..k];
  }

  /** The next `d` entries are kept. */
  lemma WithoutMore<T>(list: seq<T>, m: nat, was: seq<T>, j: nat, d: nat, x: T)
    requires m + d <= |list| && j <= |was| && list[m..] == was[j..] && |list| - m == |was| - j
    requires list[..m] == Without(was[..j], x) && x !in list[m..m + d]
    ensures list[..m + d] == Without(was[..j + d], x) && list[m + d..] == was[j + d..]
    ensures m + d == |list| ==> list == Without(was, x)
  {
    hide Without;
    Cut(list, m, d);
    Cut(was, j, d);
    KeptPiece(was[..j], list[m..m + d], x);
    if m + d == |list| {
      WholeSlice(list, m + d);
      WholeSlice(was, j + d);
    }
  }

  lemma KeptPiece<T>(seen: seq<T>, piece: seq<T>, x: T)
    requires x !in piece
    ensures Without(seen + piece, x) == Without(seen, x) + piece
  {
    WithoutConcat(seen, piece, x);
    WithoutNone(piece, x);
  }

  lemma Cut<T>(s: seq<T>, j: nat, d: nat)
    requires j + d <= |s|
    ensures s[..j + d] == s[..j] + s[j..j + d]
    ensures s[j..][..d] == s[j..j + d] && s[j..][d..] == s[j + d..]
  {
  }

  lemma WholeSlice<T>(s: seq<T>, n: nat)
    requires n == |s|
    ensures s[..n] == s
  {
  }

  lemma {:induction false} WithoutConcat<T>(s: seq<T>, t: seq<T>, x: T)
    ensures Without(s + t, x) == Without(s, x) + Without(t, x)
    decreases |t|
  {
    if t == [] {
      assert s + t == s;
    } else {
      var n := |t| - 1;
      assert (s + t)[..|s + t| - 1] == s + t[..n];
      WithoutConcat(s, t[..n], x);
    }
  }

  lemma {:induction false} WithoutNone<T>(s: seq<T>, x: T)
    requires x !in s
    ensures Without(s, x) == s
    decreases |s|
  {
    if s != [] {
      WithoutNone(s[..|s| - 1], x);
    }
  }
}
