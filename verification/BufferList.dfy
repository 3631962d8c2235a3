/**
  * The linked list of chunks behind a readable stream.
  */
module BufferList {
  import opened Prelude

  function Flatten(chunks: seq<seq<Byte>>): seq<Byte> {
    if chunks == [] then [] else chunks[0] + Flatten(chunks[1..])
  }

  lemma {:induction false} FlattenConcat(x: seq<seq<Byte>>, y: seq<seq<Byte>>)
    ensures Flatten(x + y) == Flatten(x) + Flatten(y)
  {
    if x == [] {
      assert x + y == y;
    } else {
      assert (x + y)[1..] == x[1..] + y;
      FlattenConcat(x[1..], y);
    }
  }

  /** No chunk is empty. */
  ghost predicate Full(chunks: seq<seq<Byte>>) {
    forall i :: 0 <= i < |chunks| ==> chunks[i] != []
  }

  lemma FullSuffix(chunks: seq<seq<Byte>>, k: nat)
    requires k <= |chunks|
    ensures Full(chunks) ==> Full(chunks[k..])
  {
  }

  lemma FullCons(c: seq<Byte>, chunks: seq<seq<Byte>>)
    ensures c != [] && Full(chunks) ==> Full([c] + chunks)
  {
  }

  lemma FlattenOne(c: seq<Byte>)
    ensures Flatten([c]) == c
  {
  }

  lemma FlattenPush(chunks: seq<seq<Byte>>, c: seq<Byte>)
    ensures Flatten(chunks + [c]) == Flatten(chunks) + c
  {
    FlattenConcat(chunks, [c]);
    FlattenOne(c);
  }

  class Node {
    var data: seq<Byte>
    var next: Node?

    constructor (data: seq<Byte>, next: Node?)
      ensures this.data == data && this.next == next
    {
      this.data, this.next := data, next;
    }
  }

  ghost function After(nodes: seq<Node>, i: nat): Node? {
    if i + 1 < |nodes| then nodes[i + 1] else null
  }

  /** Distinct nodes, each with the following one as its `next`. */
  ghost predicate Linked(nodes: seq<Node>)
    reads nodes
  {
    && (forall i, j :: 0 <= i < j < |nodes| ==> nodes[i] != nodes[j])
    && (forall i :: 0 <= i < |nodes| ==> nodes[i].next == After(nodes, i))
  }

  lemma LinkedSuffix(nodes: seq<Node>, k: nat)
    requires Linked(nodes) && k <= |nodes|
    ensures Linked(nodes[k..])
  {
    var rest := nodes[k..];
    forall i | 0 <= i < |rest|
      ensures rest[i].next == After(rest, i)
    {
      assert rest[i].next == nodes[k + i].next;
    }
  }

  lemma LinkedNext(nodes: seq<Node>, i: nat)
    requires Linked(nodes) && i < |nodes|
    ensures nodes[i].next == After(nodes, i)
  {
  }

  lemma LinkedPush(nodes: seq<Node>, node: Node)
    requires forall i, j :: 0 <= i < j < |nodes| ==> nodes[i] != nodes[j]
    requires node !in nodes && node.next == null
    requires forall i :: 0 <= i < |nodes| ==> nodes[i].next == After(nodes + [node], i)
    ensures Linked(nodes + [node])
  {
    var all := nodes + [node];
    forall i | 0 <= i < |all|
      ensures all[i].next == After(all, i)
    {
      if i < |nodes| {
        assert all[i].next == nodes[i].next;
      }
    }
  }

  lemma LinkedCons(node: Node, nodes: seq<Node>)
    requires Linked(nodes) && node !in nodes && node.next == if nodes == [] then null else nodes[0]
    ensures Linked([node] + nodes)
  {
    var all := [node] + nodes;
    forall i | 0 <= i < |all|
      ensures all[i].next == After(all, i)
    {
      if i > 0 {
        assert all[i].next == nodes[i - 1].next;
      }
    }
  }

  class BufferList {
    var head: Node?
    var tail: Node?
    var length: nat

    /** The nodes from head to tail. */
    ghost var spine: seq<Node>

    ghost predicate Valid()
      reads this, spine
    {
      && length == |spine|
      && Linked(spine)
      && head == (if spine == [] then null else spine[0])
      && tail == (if spine == [] then null else spine[|spine| - 1])
    }

    /** The chunks from head to tail. */
    ghost function Chunks(): (s: seq<seq<Byte>>)
      reads this, spine
      ensures |s| == |spine|
    {
      seq(|spine|, i requires 0 <= i < |spine| reads this, spine => spine[i].data)
    }

    ghost function Contents(): seq<Byte>
      reads this, spine
    {
      Flatten(Chunks())
    }

    constructor ()
      ensures Valid() && Chunks() == [] && spine == []
    {
      head, tail, length, spine := null, null, 0, [];
    }

    method Push(e: seq<Byte>)
      requires Valid()
      modifies this, spine
      ensures Valid() && fresh(set n | n in spine && n !in old(spine))
      ensures Chunks() == old(Chunks()) + [e]
    {
      var t := new Node(e, null);
      Link(t);
    }

    /** The rest of `push`. */
    method Link(t: Node)
      requires Valid() && t !in spine && t.next == null
      modifies this, spine
      ensures Valid() && spine == old(spine) + [t] && Chunks() == old(Chunks()) + [t.data]
    {
      if length > 0 {
        tail.next := t;
      } else {
        head := t;
      }
      tail := t;
      length := length + 1;
      LinkedPush(spine, t);
      spine := spine + [t];
    }

    method Unshift(e: seq<Byte>)
      requires Valid()
      modifies this
      ensures Valid() && fresh(set n | n in spine && n !in old(spine))
      ensures Chunks() == [e] + old(Chunks())
    {
      var t := new Node(e, head);
      LinkFirst(t);
    }

    /** The rest of `unshift`. */
    method LinkFirst(t: Node)
      requires Valid() && t !in spine && t.next == head
      modifies this
      ensures Valid() && spine == [t] + old(spine) && Chunks() == [t.data] + old(Chunks())
    {
      hide Linked;
      if length == 0 {
        tail := t;
      }
      head := t;
      length := length + 1;
      LinkedCons(t, spine);
      spine := [t] + spine;
      assert forall i :: 1 <= i < |spine| ==> spine[i] == old(spine)[i - 1];
    }

    method Shift() returns (e: Option<seq<Byte>>)
      requires Valid()
      modifies this
      ensures Valid() && (old(length) == 0 <==> e.None?)
      ensures e.None? ==> spine == old(spine) && Chunks() == old(Chunks())
      ensures e.Some? ==> spine == old(spine)[1..] && [e.value] + Chunks() == old(Chunks())
    {
      if length == 0 {
        return None;
      }
      e := Some(head.data);
      if length == 1 {
        head, tail := null, null;
      } else {
        head := head.next;
      }
      length := length - 1;
      LinkedSuffix(spine, 1);
      spine := spine[1..];
      assert forall i :: 0 <= i < |spine| ==> spine[i] == old(spine)[i + 1];
      assert [e.value] + Chunks() == old(Chunks());
    }

    method Clear()
      modifies this
      ensures Valid() && Chunks() == [] && spine == []
    {
      head, tail, length, spine := null, null, 0, [];
    }

    /** `n` bytes, the first of which are all the bytes, or as many as fit; nothing when there is no chunk. */
    method Concat(n: nat) returns (bytes: seq<Byte>)
      requires Valid()
      ensures if length == 0 then bytes == [] else |bytes| == n
      ensures var k := if n < |Contents()| then n else |Contents()|; length > 0 ==> bytes[..k] == Contents()[..k]
    {
      hide Flatten, Linked, Starts, Fitted;
      if length == 0 {
        return [];
      }
      ghost var chunks := Chunks();
      var t := new Byte[n];
      var r, a := head, 0;
      StartsNone(t[..]);
      ghost var k := 0;
      FlattenNone(chunks);
      while r != null
        invariant Valid() && Chunks() == chunks && fresh(t) && t.Length == n
        invariant k <= |spine| && r == if k < |spine| then spine[k] else null
        invariant a == |Flatten(chunks[..k])| && Starts(t[..], Flatten(chunks[..k]))
        decreases |spine| - k
      {
        FlattenNext(chunks, k, 0);
        LinkedNext(spine, k);
        assert r.data == chunks[k];
        StartsNext(t[..], Flatten(chunks[..k]), r.data);
        CopyFitting(r.data, t, a);
        a := a + |r.data|;
        r := r.next;
        k := k + 1;
      }
      assert chunks[..k] == chunks;
      bytes := t[..];
      StartsMeans(bytes, Contents());
    }

    /** The first chunk; there is an error if there is none. */
    method First() returns (bytes: seq<Byte>)
      requires Valid() && length > 0
      ensures bytes == Chunks()[0] && |bytes| <= |Contents()| && (length == 1 ==> bytes == Contents())
    {
      bytes := head.data;
      if length == 1 {
        FlattenOne(bytes);
        assert Chunks() == [bytes];
      }
    }

    /** Remove the first `n` bytes. */
    method Consume(n: nat) returns (bytes: seq<Byte>)
      requires Valid() && length > 0 && n <= |Contents()|
      modifies this, spine
      ensures Valid() && |spine| <= |old(spine)| && spine == old(spine)[|old(spine)| - |spine|..]
      ensures bytes + Contents() == old(Contents()) && |bytes| == n && (Full(old(Chunks())) ==> Full(Chunks()))
    {
      hide Full;
      ghost var chunks := Chunks();
      assert Contents() == chunks[0] + Flatten(chunks[1..]);
      FullSuffix(chunks, 1);
      if n < |head.data| {
        FullCons(head.data[n..], chunks[1..]);
        bytes := head.data[..n];
        head.data := head.data[n..];
        assert Chunks()[1..] == chunks[1..];
        assert head.data == Chunks()[0];
        assert Chunks() == [head.data] + chunks[1..];
      } else if n == |head.data| {
        var e := Shift();
        bytes := e.value;
        assert chunks[1..] == Chunks();
      } else {
        bytes := GetBuffer(n);
      }
    }

    /** `_getBuffer`: the first `n` bytes, which take more than the first chunk. */
    method GetBuffer(n: nat) returns (bytes: seq<Byte>)
      requires Valid() && length > 0 && |head.data| < n <= |Contents()|
      modifies this, spine
      ensures Valid() && |spine| <= |old(spine)| && spine == old(spine)[|old(spine)| - |spine|..]
      ensures bytes + Contents() == old(Contents()) && |bytes| == n && (Full(old(Chunks())) ==> Full(Chunks()))
    {
      hide Flatten, Linked;
      var r, o, a;
      bytes, r, o, a := Gather(n);
      Unlink(r, o, a);
    }

    /** The loop of `_getBuffer`: copy `n` bytes, the last `o` of them from node `a`. */
    method Gather(n: nat) returns (bytes: seq<Byte>, r: Node, o: nat, a: nat)
      requires Valid() && length > 0 && |head.data| < n <= |Contents()|
      ensures a < |spine| && r == spine[a] && o <= |r.data| && |bytes| == n
      ensures Contents() == bytes + (r.data[o..] + Flatten(Chunks()[a + 1..]))
    {
      hide Flatten, Linked;
      ghost var chunks := Chunks();
      LinkedNext(spine, 0);
      var t := new Byte[n];
      var node: Node?, e := head, n;
      CopyTo(node.data, |node.data|, t, 0);
      e, a := e - |node.data|, 1;
      FirstChunk(chunks);
      node := node.next;
      while true
        invariant Valid() && Chunks() == chunks
        invariant 1 <= a <= |spine| && node == After(spine, a - 1)
        invariant 0 < e && t.Length == n == e + |Flatten(chunks[..a])|
        invariant t[..n - e] == Flatten(chunks[..a])
        decreases |spine| - a
      {
        WholePrefix(chunks, a);
        assert node != null;
        LinkedNext(spine, a);
        r := node;
        assert r.data == chunks[a];
        o := if e > |r.data| then |r.data| else e;
        CopyTo(r.data, o, t, n - e);
        e := e - o;
        FlattenNext(chunks, a, o);
        if e == 0 {
          bytes := t[..];
          assert bytes == Flatten(chunks[..a]) + r.data[..o];
          return;
        }
        a := a + 1;
        node := r.next;
      }
    }

    /** The end of `_getBuffer`: drop the nodes before `r`, and the first `o` bytes of `r`. */
    method Unlink(r: Node, o: nat, a: nat)
      requires Valid() && a < |spine| && spine[a] == r && o <= |r.data|
      modifies this, r
      ensures Valid() && |spine| <= |old(spine)| && spine == old(spine)[|old(spine)| - |spine|..]
      ensures Contents() == old(r.data)[o..] + Flatten(old(Chunks())[a + 1..]) &&
                (Full(old(Chunks())) ==> Full(Chunks()))
    {
      hide Flatten, Linked, Full;
      ghost var chunks := Chunks();
      FullSuffix(chunks, a + 1);
      FullCons(r.data[o..], chunks[a + 1..]);
      if o == |r.data| {
        DropThrough(r, a);
      } else {
        StartAt(r, o, a);
      }
      AfterCut(Chunks(), chunks, a, o);
    }

    method DropThrough(r: Node, a: nat)
      requires Valid() && a < |spine| && spine[a] == r
      modifies this
      ensures Valid() && spine == old(spine)[a + 1..] && Chunks() == old(Chunks())[a + 1..]
    {
      hide Linked;
      LinkedNext(spine, a);
      LinkedSuffix(spine, a + 1);
      if r.next != null {
        head := r.next;
      } else {
        head, tail := null, null;
      }
      spine := spine[a + 1..];
      length := length - (a + 1);
    }

    method StartAt(r: Node, o: nat, a: nat)
      requires Valid() && a < |spine| && spine[a] == r && o <= |r.data|
      modifies this, r
      ensures Valid() && spine == old(spine)[a..] && Chunks() == [old(r.data)[o..]] + old(Chunks())[a + 1..]
    {
      LinkedSuffix(spine, a);
      head := r;
      r.data := r.data[o..];
      spine := spine[a..];
      length := length - a;
    }
  }

  /** What is left once the chunks before `a` and `o` bytes of chunk `a` are gone. */
  lemma AfterCut(left: seq<seq<Byte>>, chunks: seq<seq<Byte>>, a: nat, o: nat)
    requires a < |chunks| && o <= |chunks[a]|
    requires |left| == |chunks| - a - (if o == |chunks[a]| then 1 else 0)
    requires o < |chunks[a]| ==> left[0] == chunks[a][o..]
    requires forall i :: a < i < |chunks| ==> left[|left| - (|chunks| - i)] == chunks[i]
    ensures Flatten(left) == chunks[a][o..] + Flatten(chunks[a + 1..])
  {
    var rest := chunks[a + 1..];
    if o < |chunks[a]| {
      assert left[1..] == rest;
    } else {
      assert left == rest;
      assert [] + Flatten(rest) == Flatten(rest);
    }
  }

  lemma WholePrefix(chunks: seq<seq<Byte>>, k: nat)
    requires k <= |chunks|
    ensures k == |chunks| ==> chunks[..k] == chunks
  {
  }

  lemma FlattenNone(chunks: seq<seq<Byte>>)
    ensures Flatten(chunks[..0]) == []
  {
  }

  lemma FirstChunk(chunks: seq<seq<Byte>>)
    requires chunks != []
    ensures Flatten(chunks[..1]) == chunks[0]
  {
    assert chunks[..1] == [chunks[0]];
  }

  /** `source.copy(target, at, 0, count)`. */
  method CopyTo(source: seq<Byte>, count: nat, target: array<Byte>, at: nat)
    requires count <= |source| && at + count <= target.Length
    modifies target
    ensures target[..] == old(target[..at]) + source[..count] + old(target[at + count..])
  {
    ghost var was := target[..];
    var i := 0;
    assert Overwritten(was, at, source[..0]) == was;
    while i < count
      invariant 0 <= i <= count
      invariant target[..] == Overwritten(was, at, source[..i])
    {
      CopyNext(was, source, i, at);
      target[at + i] := source[i];
      i := i + 1;
    }
  }

  /** `source.copy(target, at)`: what does not fit is not copied. */
  method CopyFitting(source: seq<Byte>, target: array<Byte>, at: nat)
    modifies target
    ensures target[..] == Fitted(old(target[..]), at, source)
  {
    if at < target.Length {
      var count := if |source| <= target.Length - at then |source| else target.Length - at;
      CopyTo(source, count, target, at);
    }
  }

  function Fitted(target: seq<Byte>, at: nat, source: seq<Byte>): (r: seq<Byte>)
    ensures |r| == |target|
  {
    if |target| <= at then target
    else
      var count := if |source| <= |target| - at then |source| else |target| - at;
      Overwritten(target, at, source[..count])
  }

  /** The target starts with the bytes, or with as many as fit. */
  predicate Starts(target: seq<Byte>, bytes: seq<Byte>) {
    if |bytes| <= |target| then bytes <= target else target <= bytes
  }

  lemma StartsNone(target: seq<Byte>)
    ensures Starts(target, [])
  {
  }

  lemma StartsMeans(target: seq<Byte>, bytes: seq<Byte>)
    requires Starts(target, bytes)
    ensures var k := if |target| < |bytes| then |target| else |bytes|; target[..k] == bytes[..k]
  {
  }

  lemma StartsNext(target: seq<Byte>, bytes: seq<Byte>, source: seq<Byte>)
    requires Starts(target, bytes)
    ensures Starts(Fitted(target, |bytes|, source), bytes + source)
  {
  }

  lemma CopyNext(was: seq<Byte>, source: seq<Byte>, i: nat, at: nat)
    requires i < |source| && at + i < |was|
    ensures Overwritten(was, at, source[..i])[at + i := source[i]] == Overwritten(was, at, source[..i + 1])
  {
  }

  /** The bytes of chunk `k` come next. */
  lemma FlattenNext(chunks: seq<seq<Byte>>, k: nat, o: nat)
    requires k < |chunks| && o <= |chunks[k]|
    ensures Flatten(chunks) == Flatten(chunks[..k]) + chunks[k][..o] + (chunks[k][o..] + Flatten(chunks[k + 1..]))
    ensures Flatten(chunks[..k + 1]) == Flatten(chunks[..k]) + chunks[k]
  {
    FlattenConcat(chunks[..k], chunks[k..]);
    assert chunks[..k] + chunks[k..] == chunks;
    assert chunks[k..][1..] == chunks[k + 1..];
    FlattenConcat(chunks[..k], [chunks[k]]);
    FlattenOne(chunks[k]);
    assert chunks[..k] + [chunks[k]] == chunks[..k + 1];
    assert chunks[k] == chunks[k][..o] + chunks[k][o..];
  }
}
