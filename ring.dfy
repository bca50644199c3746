/**
 * The `circbuf_t` ring of src/sysevent.c: a fixed array of text slots and a
 * parallel array of arrival timestamps, a write index `head`, a read index
 * `tail`, and the slot count `maxLen`. One slot is always left free so that
 * `head == tail` means empty and `next(head) == tail` means full.
 */
module RingBuffer {

  /** One buffered datagram: its text and its arrival time in microseconds. */
  datatype Entry = Entry(text: string, timestamp: int)

  /** The index after `i`, wrapping to 0 at `n` (the `next >= maxLen` test). */
  function Next(i: int, n: int): int {
    if i + 1 >= n then 0 else i + 1
  }

  /** Number of entries between the read index `tail` and the write index `head`. */
  function Count(tail: int, head: int, n: int): int {
    if tail <= head then head - tail else head + n - tail
  }

  /** The array index of the `k`-th oldest entry. */
  function Slot(tail: int, k: int, n: int): int {
    if tail + k < n then tail + k else tail + k - n
  }

  /** Both indices lie inside an array of `n` slots. */
  predicate InRange(tail: int, head: int, n: int) {
    0 <= tail < n && 0 <= head < n
  }

  /**
   * The abstraction function: the queue of entries stored from `tail` up to
   * (not including) `head`, oldest first. It never holds `n` entries.
   */
  function Window(texts: seq<string>, stamps: seq<int>, tail: int, head: int): (q: seq<Entry>)
    requires |texts| == |stamps|
    requires InRange(tail, head, |texts|)
    ensures |q| == Count(tail, head, |texts|) < |texts|
    ensures forall k :: 0 <= k < |q| ==>
              0 <= Slot(tail, k, |texts|) < |texts| &&
              q[k] == Entry(texts[Slot(tail, k, |texts|)], stamps[Slot(tail, k, |texts|)])
  {
    var n := |texts|;
    seq(Count(tail, head, n), k requires 0 <= k < Count(tail, head, n) =>
      Entry(texts[Slot(tail, k, n)], stamps[Slot(tail, k, n)]))
  }

  /** The ring is full exactly when it already holds `n - 1` entries. */
  lemma FullIffCount(tail: int, head: int, n: int)
    requires InRange(tail, head, n)
    ensures Next(head, n) == tail <==> Count(tail, head, n) == n - 1
  {
  }

  /**
   * Writing slot `head` and advancing `head` appends exactly one entry at the
   * back of the queue, provided the ring was not full.
   */
  lemma {:induction false} WindowPush(texts: seq<string>, stamps: seq<int>, tail: int, head: int, t: string, s: int)
    requires |texts| == |stamps|
    requires InRange(tail, head, |texts|)
    requires Next(head, |texts|) != tail
    ensures Window(texts[head := t], stamps[head := s], tail, Next(head, |texts|))
         == Window(texts, stamps, tail, head) + [Entry(t, s)]
  {
    var n := |texts|;
    var before := Window(texts, stamps, tail, head);
    var after := Window(texts[head := t], stamps[head := s], tail, Next(head, n));
    assert |after| == |before| + 1;
    forall k | 0 <= k < |after|
      ensures after[k] == (before + [Entry(t, s)])[k]
    {
      if k < |before| {
        assert Slot(tail, k, n) != head;
      } else {
        assert Slot(tail, k, n) == head;
      }
    }
  }

  /** Advancing `tail` past a non-empty queue removes its oldest entry. */
  lemma {:induction false} WindowPop(texts: seq<string>, stamps: seq<int>, tail: int, head: int)
    requires |texts| == |stamps|
    requires InRange(tail, head, |texts|)
    requires tail != head
    ensures Window(texts, stamps, tail, head) != []
    ensures Window(texts, stamps, Next(tail, |texts|), head) == Window(texts, stamps, tail, head)[1..]
  {
    var n := |texts|;
    var before := Window(texts, stamps, tail, head);
    var after := Window(texts, stamps, Next(tail, n), head);
    assert |after| == |before| - 1;
    forall k | 0 <= k < |after|
      ensures after[k] == before[k + 1]
    {
      assert Slot(Next(tail, n), k, n) == Slot(tail, k + 1, n);
    }
  }

  /**
   * The abstract effect of one push on the queue, with capacity `n` slots:
   * the entry is appended unless the queue already holds `n - 1` entries, in
   * which case it is dropped.
   */
  function Pushed(q: seq<Entry>, e: Entry, n: int): (r: seq<Entry>)
    ensures q <= r && |r| <= |q| + 1
    ensures |r| == |q| + 1 <==> |q| < n - 1
    ensures |r| == |q| + 1 ==> r[|q|] == e
    ensures |q| <= n - 1 ==> |r| <= n - 1
  {
    if |q| < n - 1 then q + [e] else q
  }

  /** The queue after pushing every entry of `es` in turn. */
  function PushedAll(q: seq<Entry>, es: seq<Entry>, n: int): seq<Entry>
    decreases |es|
  {
    if es == [] then q else PushedAll(Pushed(q, es[0], n), es[1..], n)
  }

  function Min(a: int, b: int): int {
    if a <= b then a else b
  }

  /**
   * Bounded loss without corruption: starting from a queue `q` with room
   * left, the pushes that fit are kept in order after `q`, and every later
   * push is dropped without altering what is already stored.
   */
  lemma {:induction false} PushedAllKeepsOldest(q: seq<Entry>, es: seq<Entry>, n: int)
    requires |q| <= n - 1
    ensures PushedAll(q, es, n) == q + es[..Min(|es|, n - 1 - |q|)]
    decreases |es|
  {
    if es != [] {
      PushedAllKeepsOldest(Pushed(q, es[0], n), es[1..], n);
      if |q| < n - 1 {
        assert q + [es[0]] + es[1..][..Min(|es| - 1, n - 1 - |q| - 1)] == q + es[..Min(|es|, n - 1 - |q|)];
      }
    }
  }

  /**
   * First-in first-out: into an empty ring of `n` slots, up to `n - 1` pushes
   * are all kept, and a drain gives them back in the order they were pushed.
   */
  lemma PushedAllIntoEmpty(es: seq<Entry>, n: int)
    requires 1 <= n
    ensures |es| <= n - 1 ==> PushedAll([], es, n) == es
    ensures |es| >= n - 1 ==> PushedAll([], es, n) == es[..n - 1]
  {
    PushedAllKeepsOldest([], es, n);
    assert [] + es[..Min(|es|, n - 1)] == es[..Min(|es|, n - 1)];
  }

  class Ring {
    var buffer: array<string>
    var timestamp: array<int>
    var head: int
    var tail: int
    var maxLen: int

    ghost predicate Valid()
      reads this
    {
      buffer.Length == maxLen && timestamp.Length == maxLen && InRange(tail, head, maxLen)
    }

    /** The queue the ring currently holds, oldest entry first. */
    ghost function Contents(): seq<Entry>
      reads this, buffer, timestamp
      requires Valid()
    {
      Window(buffer[..], timestamp[..], tail, head)
    }

    /** Ring set-up in `sysevent_init`: `bufferLength` empty slots, both indices 0. */
    constructor (bufferLength: int)
      requires 1 <= bufferLength
      ensures Valid() && fresh(buffer) && fresh(timestamp)
      ensures head == 0 && tail == 0 && maxLen == bufferLength
      ensures Contents() == []
    {
      buffer := new string[bufferLength];
      timestamp := new int[bufferLength];
      head, tail, maxLen := 0, 0, bufferLength;
    }

    /**
     * The producer's push: store `text` and `ts` at `head` and advance
     * `head`, unless the ring is full, in which case nothing changes.
     */
    method Push(text: string, ts: int) returns (accepted: bool)
      requires Valid()
      modifies this`head, buffer, timestamp
      ensures Valid()
      ensures accepted <==> Next(old(head), maxLen) != tail
      ensures accepted <==> |old(Contents())| < maxLen - 1
      ensures accepted ==> (head == Next(old(head), maxLen)
                            && buffer[..] == old(buffer[..])[old(head) := text]
                            && timestamp[..] == old(timestamp[..])[old(head) := ts])
      ensures !accepted ==> (head == old(head)
                             && buffer[..] == old(buffer[..]) && timestamp[..] == old(timestamp[..]))
      ensures Contents() == Pushed(old(Contents()), Entry(text, ts), maxLen)
    {
      FullIffCount(tail, head, maxLen);
      var next := head + 1;
      if next >= maxLen {
        next := 0;
      }
      if next == tail {
        accepted := false;
      } else {
        WindowPush(buffer[..], timestamp[..], tail, head, text, ts);
        buffer[head] := text;
        timestamp[head] := ts;
        head := next;
        accepted := true;
      }
    }

    /** One step of the drain loop: read the slot at `tail`, then advance `tail`. */
    method TakeOldest() returns (e: Entry)
      requires Valid() && head != tail
      modifies this`tail
      ensures Valid()
      ensures tail == Next(old(tail), maxLen)
      ensures old(Contents()) != [] && e == old(Contents())[0]
      ensures Contents() == old(Contents())[1..]
    {
      WindowPop(buffer[..], timestamp[..], tail, head);
      e := Entry(buffer[tail], timestamp[tail]);
      var next := tail + 1;
      if next >= maxLen {
        next := 0;
      }
      tail := next;
    }

    /**
     * The drain of `sysevent_read`: take entries from `tail` towards `head`
     * until the ring is empty. Only `tail` moves.
     */
    method DrainAll() returns (entries: seq<Entry>)
      requires Valid()
      modifies this`tail
      ensures Valid()
      ensures entries == old(Contents())
      ensures tail == head && Contents() == []
    {
      entries := [];
      while head != tail
        invariant Valid()
        invariant entries + Contents() == old(Contents())
        decreases Count(tail, head, maxLen)
      {
        ghost var before := Contents();
        var e := TakeOldest();
        assert before == [e] + Contents();
        entries := entries + [e];
        assert entries + Contents() == old(Contents());
      }
    }
  }
}
