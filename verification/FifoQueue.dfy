// The ring buffer between the layers: a buffer with head, tail and count, seen as a bounded
// sequence. Head and tail are element indices where the source keeps byte pointers.
module FifoQueue {
  /** What a queue of the given capacity holds after `items` are pushed: overflow is dropped. */
  function Pushed<T>(contents: seq<T>, items: seq<T>, capacity: nat): (r: seq<T>)
    decreases |items|
  {
    if items == [] then contents else
    Pushed(if |contents| < capacity then contents + [items[0]] else contents, items[1..], capacity)
  }

  lemma {:induction false} PushedWithRoom<T>(contents: seq<T>, items: seq<T>, capacity: nat)
    requires |contents| + |items| <= capacity
    ensures Pushed(contents, items, capacity) == contents + items
    decreases |items|
  {
    if items == [] {
      assert contents + items == contents;
    } else {
      PushedWithRoom(contents + [items[0]], items[1..], capacity);
      assert contents + items == contents + [items[0]] + items[1..];
    }
  }

  lemma PushedNone<T>(contents: seq<T>, capacity: nat)
    ensures Pushed(contents, [], capacity) == contents
  {
  }

  lemma {:induction false} PushedConcat<T>(contents: seq<T>, a: seq<T>, b: seq<T>, capacity: nat)
    ensures Pushed(contents, a + b, capacity) == Pushed(Pushed(contents, a, capacity), b, capacity)
    decreases |a|
  {
    if a == [] {
      assert a + b == b;
    } else {
      assert (a + b)[1..] == a[1..] + b;
      PushedConcat(if |contents| < capacity then contents + [a[0]] else contents, a[1..], b, capacity);
    }
  }

  /** Nothing leaves while pushing, so what fits is a prefix. */
  function Fitting<T>(contents: seq<T>, items: seq<T>, capacity: nat): seq<T> {
    if |contents| + |items| <= capacity then items
    else if |contents| <= capacity then items[..capacity - |contents|] else []
  }

  lemma {:induction false} PushedFitting<T>(contents: seq<T>, items: seq<T>, capacity: nat)
    requires |contents| <= capacity
    ensures Pushed(contents, items, capacity) == contents + Fitting(contents, items, capacity)
    decreases |items|
  {
    if |contents| + |items| <= capacity {
      PushedWithRoom(contents, items, capacity);
    } else if |contents| < capacity {
      PushedFitting(contents + [items[0]], items[1..], capacity);
      assert items[..capacity - |contents|] == [items[0]] + items[1..][..capacity - |contents| - 1];
    } else {
      PushedFitting(contents, items[1..], capacity);
    }
  }

  class Fifo<T> {
    const buffer: array<T>
    var head: nat
    var tail: nat
    var count: nat

    /** The queue as its users see it, oldest first. */
    ghost var contents: seq<T>

    ghost predicate Valid()
      reads this, buffer
    {
      && count <= buffer.Length
      && (buffer.Length == 0 ==> head == 0 && tail == 0)
      && (0 < buffer.Length ==>
            head < buffer.Length && tail < buffer.Length
            && head == if tail + count < buffer.Length then tail + count else tail + count - buffer.Length)
      && contents == if tail + count <= buffer.Length then buffer[tail..tail + count]
                     else buffer[tail..] + buffer[..tail + count - buffer.Length]
    }

    /** The memory is the caller's; the capacity is the number of elements it holds. */
    constructor (buffer: array<T>)
      ensures Valid() && this.buffer == buffer && contents == []
    {
      this.buffer := buffer;
      head, tail, count := 0, 0, 0;
      contents := [];
    }

    method Reset()
      modifies this
      ensures Valid() && contents == []
    {
      head, tail, count := 0, 0, 0;
      contents := [];
    }

    method Push(item: T)
      requires Valid()
      modifies this, buffer
      ensures Valid()
      ensures contents == if |old(contents)| < buffer.Length then old(contents) + [item] else old(contents)
      ensures contents == Pushed(old(contents), [item], buffer.Length)
    {
      if count >= buffer.Length {
        return;
      }
      buffer[head] := item;
      head := head + 1;
      if head == buffer.Length {
        head := 0;
      }
      count := count + 1;
      contents := contents + [item];
    }

    /** The source asserts that the queue is not empty. */
    method Pop() returns (item: T)
      requires Valid() && contents != []
      modifies this
      ensures Valid()
      ensures item == old(contents)[0] && contents == old(contents)[1..]
    {
      item := buffer[tail];
      tail := tail + 1;
      if tail == buffer.Length {
        tail := 0;
      }
      count := count - 1;
      contents := contents[1..];
    }

    predicate IsFull()
      requires Valid()
      reads this, buffer
      ensures IsFull() <==> |contents| == buffer.Length
    {
      count == buffer.Length
    }

    predicate IsEmpty()
      requires Valid()
      reads this, buffer
      ensures IsEmpty() <==> contents == []
    {
      count == 0
    }
  }

  method PushAll<T>(q: Fifo<T>, items: seq<T>)
    requires q.Valid()
    modifies q, q.buffer
    ensures q.Valid() && q.contents == Pushed(old(q.contents), items, q.buffer.Length)
  {
    ghost var before := q.contents;
    for i := 0 to |items|
      invariant q.Valid() && q.contents == Pushed(before, items[..i], q.buffer.Length)
    {
      q.Push(items[i]);
      assert items[..i + 1] == items[..i] + [items[i]];
      PushedConcat(before, items[..i], [items[i]], q.buffer.Length);
    }
    assert items[..|items|] == items;
  }

  // ---- Any interleaving ----

  datatype Op<T> = Put(item: T) | Take

  /** Contents, items taken so far and items accepted so far. */
  datatype Ledger<T> = Ledger(contents: seq<T>, taken: seq<T>, accepted: seq<T>)

  /** A pop of an empty queue halts the program, so it is no part of a run. */
  function Perform<T>(l: Ledger<T>, op: Op<T>, capacity: nat): Ledger<T> {
    match op
    case Put(item) =>
      if |l.contents| < capacity then Ledger(l.contents + [item], l.taken, l.accepted + [item]) else l
    case Take =>
      if l.contents == [] then l else Ledger(l.contents[1..], l.taken + [l.contents[0]], l.accepted)
  }

  function PerformAll<T>(l: Ledger<T>, ops: seq<Op<T>>, capacity: nat): Ledger<T>
    decreases |ops|
  {
    if ops == [] then l else PerformAll(Perform(l, ops[0], capacity), ops[1..], capacity)
  }

  /** What came out, followed by what is still inside, is what was accepted, in order. */
  lemma {:induction false} NothingLost<T>(l: Ledger<T>, ops: seq<Op<T>>, capacity: nat)
    requires l.taken + l.contents == l.accepted && |l.contents| <= capacity
    ensures var end := PerformAll(l, ops, capacity);
            end.taken + end.contents == end.accepted && |end.contents| <= capacity && l.accepted <= end.accepted
    decreases |ops|
  {
    if ops != [] {
      NothingLost(Perform(l, ops[0], capacity), ops[1..], capacity);
    }
  }

  /** The ring itself under any sequence of pushes and pops that never pops an empty queue. */
  method Exercise<T>(q: Fifo<T>, ops: seq<Op<T>>) returns (taken: seq<T>)
    requires q.Valid()
    modifies q, q.buffer
    ensures q.Valid()
    ensures var end := PerformAll(Ledger(old(q.contents), [], old(q.contents)), ops, q.buffer.Length);
            taken == end.taken && q.contents == end.contents
  {
    taken := [];
    ghost var l := Ledger(q.contents, [], q.contents);
    ghost var start := l;
    for i := 0 to |ops|
      invariant q.Valid()
      invariant taken == l.taken && q.contents == l.contents
      invariant PerformAll(start, ops, q.buffer.Length) == PerformAll(l, ops[i..], q.buffer.Length)
    {
      match ops[i] {
        case Put(item) => q.Push(item);
        case Take =>
          if !q.IsEmpty() {
            var item := q.Pop();
            taken := taken + [item];
          }
      }
      assert ops[i..][1..] == ops[i + 1..];
      l := Perform(l, ops[i], q.buffer.Length);
    }
  }
}
