/** The single-slot hand-off between pipeline stages. Every queue of the system
    is a Queue(1) and every writer puts with "if full, drop the waiting item,
    then put", so a put never blocks and the reader always gets the newest
    frame; frames the reader was too slow for are lost. */
module FrameLink {
  import opened Wrappers

  const Capacity: nat := 1

  /** The contents of the queue after one newest-wins put. */
  function AfterPut<T>(q: seq<T>, x: T): (r: seq<T>)
    requires |q| <= Capacity
    ensures r == [x]
  {
    (if |q| >= Capacity then q[1..] else q) + [x]
  }

  /** The queue after the last of the frames, in order, was put. */
  function Latest<T>(q: seq<T>, frames: seq<T>): seq<T> {
    if |frames| == 0 then q else [frames[|frames| - 1]]
  }

  /** What happens at the link: a newest-wins put by the writer, or a get by
      the reader. */
  datatype Op<T> = Write(frame: T) | Read

  /** One operation: the queue afterwards and what the reader received. A get on
      an empty link is the reader waiting: it receives nothing yet. */
  function Apply<T>(q: seq<T>, op: Op<T>): (r: (seq<T>, seq<T>))
    requires |q| <= Capacity
    ensures |r.0| <= Capacity
    ensures op.Write? ==> r.0 == [op.frame] && r.1 == []
    ensures op.Read? ==> r.1 + r.0 == q && (|q| != 0 ==> r.1 == [q[0]])
  {
    match op
    case Write(x) => (AfterPut(q, x), [])
    case Read => if |q| == 0 then ([], []) else (q[1..], [q[0]])
  }

  /** A sequence of operations: the queue at the end and everything the reader
      received, in order. */
  function Run<T>(q: seq<T>, ops: seq<Op<T>>): (r: (seq<T>, seq<T>))
    requires |q| <= Capacity
    ensures |r.0| <= Capacity
    ensures |r.1| <= |ops|
    decreases |ops|
  {
    if |ops| == 0 then (q, [])
    else
      var s := Apply(q, ops[0]);
      var t := Run(s.0, ops[1..]);
      (t.0, s.1 + t.1)
  }

  /** The frames the writer puts, in order. */
  function Written<T>(ops: seq<Op<T>>): seq<T> {
    if |ops| == 0 then []
    else (if ops[0].Write? then [ops[0].frame] else []) + Written(ops[1..])
  }

  /** One put per frame of xs, in order. */
  function Writes<T>(xs: seq<T>): seq<Op<T>> {
    seq(|xs|, i requires 0 <= i < |xs| => Write(xs[i]))
  }

  /** a is b with some elements left out, the rest kept in order. */
  ghost predicate Subsequence<T>(a: seq<T>, b: seq<T>)
    decreases |b|
  {
    |a| == 0 ||
    (|b| != 0 && ((a[0] == b[0] && Subsequence(a[1..], b[1..])) || Subsequence(a, b[1..])))
  }

  lemma {:induction false} SubsequenceReflexive<T>(a: seq<T>)
    ensures Subsequence(a, a)
    decreases |a|
  {
    if |a| != 0 {
      SubsequenceReflexive(a[1..]);
    }
  }

  lemma {:induction false} SubsequenceOfLonger<T>(a: seq<T>, b: seq<T>, c: seq<T>)
    requires Subsequence(a, b)
    ensures Subsequence(a, c + b)
    decreases |c|
  {
    if |c| != 0 {
      assert (c + b)[1..] == c[1..] + b;
      SubsequenceOfLonger(a, b, c[1..]);
      assert Subsequence(a, (c + b)[1..]);
    } else {
      assert c + b == b;
    }
  }

  /** Newest wins: after any burst of puts with no get in between, the link
      holds exactly the last frame put (or what it held, if there was none). */
  lemma {:induction false} NewestWins<T>(q: seq<T>, xs: seq<T>)
    requires |q| <= Capacity
    ensures Run(q, Writes(xs)).0 == Latest(q, xs)
    decreases |xs|
  {
    if |xs| != 0 {
      var ops := Writes(xs);
      assert ops[0] == Write(xs[0]);
      assert ops[1..] == Writes(xs[1..]);
      var s := Apply(q, ops[0]);
      assert s.0 == [xs[0]];
      assert Run(q, ops).0 == Run(s.0, ops[1..]).0;
      NewestWins([xs[0]], xs[1..]);
    }
  }

  /** ... and the next get returns that frame and nothing else, leaving the link
      empty. */
  lemma {:induction false} GetAfterPutsReturnsNewest<T>(q: seq<T>, xs: seq<T>)
    requires |q| <= Capacity
    requires |xs| != 0
    ensures Run(q, Writes(xs) + [Read]) == ([], [xs[|xs| - 1]])
    decreases |xs|
  {
    var ops := Writes(xs) + [Read];
    assert ops[0] == Write(xs[0]);
    var s := Apply(q, ops[0]);
    assert s == ([xs[0]], []);
    if |xs| == 1 {
      assert ops[1..] == [Read];
      assert Run([xs[0]], [Read]) == ([], [xs[0]]);
    } else {
      assert ops[1..] == Writes(xs[1..]) + [Read];
      GetAfterPutsReturnsNewest([xs[0]], xs[1..]);
      assert xs[1..][|xs[1..]| - 1] == xs[|xs| - 1];
      var t := Run(s.0, ops[1..]);
      assert t == ([], [xs[|xs| - 1]]);
      assert s.1 + t.1 == t.1;
      assert Run(q, ops) == (t.0, s.1 + t.1);
    }
  }

  /** Frames reach the reader in the order they were put, with some dropped and
      none invented: what the reader received, followed by what is still
      waiting, is a subsequence of what was waiting plus what was put. */
  lemma {:induction false} DeliveredInOrder<T>(q: seq<T>, ops: seq<Op<T>>)
    requires |q| <= Capacity
    ensures Subsequence(Run(q, ops).1 + Run(q, ops).0, q + Written(ops))
    decreases |ops|
  {
    var r := Run(q, ops);
    if |ops| == 0 {
      assert r.1 + r.0 == q;
      assert q + Written(ops) == q;
      SubsequenceReflexive(q);
    } else {
      var s := Apply(q, ops[0]);
      var t := Run(s.0, ops[1..]);
      DeliveredInOrder(s.0, ops[1..]);
      var w := Written(ops[1..]);
      match ops[0]
      case Write(x) =>
        assert r.1 + r.0 == t.1 + t.0;
        assert Written(ops) == [x] + w;
        SubsequenceOfLonger(t.1 + t.0, [x] + w, q);
        assert q + ([x] + w) == q + Written(ops);
      case Read =>
        assert Written(ops) == w;
        if |q| == 0 {
          assert r.1 + r.0 == t.1 + t.0;
          assert q + Written(ops) == w;
        } else {
          var a := r.1 + r.0;
          var b := q + w;
          assert a == [q[0]] + (t.1 + t.0);
          assert a[0] == b[0];
          assert a[1..] == t.1 + t.0;
          assert b[1..] == q[1..] + w;
        }
    }
  }

  /** Which call a writer uses to take out the waiting item before its put: the
      camera thread's get_nowait(), or the stages' get(). */
  datatype DropCall = NoWait | Blocking

  /** How a put written as full(), then the drop, then put() ends: the link
      holding items, queue.Empty raised out of get_nowait() (which ends the
      camera thread), or get() waiting for an item that only this writer
      would ever put. */
  datatype PutOutcome<T> = Stored(items: seq<T>) | RaisedEmpty | Stuck

  /** The newest-wins put as written: three separately locked calls. When
      readerBetween, the reader's get runs after full() has answered and before
      the drop. */
  function PutAsWritten<T>(q: seq<T>, x: T, drop: DropCall, readerBetween: bool): (r: PutOutcome<T>)
    requires |q| <= Capacity
    ensures r.Stored? <==> !(|q| >= Capacity && readerBetween)
    ensures r.Stored? ==> r.items == [x]
    ensures r.RaisedEmpty? <==> |q| >= Capacity && readerBetween && drop == NoWait
  {
    if |q| >= Capacity then
      if readerBetween then (if drop == NoWait then RaisedEmpty else Stuck)
      else Stored(q[1..] + [x])
    else Stored(q + [x])
  }

  /** With no get in between, the put as written is the newest-wins put. */
  lemma PutAsWrittenAlone<T>(q: seq<T>, x: T, drop: DropCall)
    requires |q| <= Capacity
    ensures PutAsWritten(q, x, drop, false) == Stored(Run(q, [Write(x)]).0)
  {
  }

  /** A get between the check and the drop, on a full link: the reader takes the
      waiting frame, and then the writer's get_nowait() raises and its get()
      never returns, where a get followed by a whole put would have left the
      new frame waiting. */
  lemma {:induction false} ReaderBetweenCheckAndDrop<T>(waiting: T, x: T)
    ensures PutAsWritten([waiting], x, NoWait, true) == RaisedEmpty
    ensures PutAsWritten([waiting], x, Blocking, true) == Stuck
    ensures Run([waiting], [Read, Write(x)]) == ([x], [waiting])
  {
    PutTolerantIsAtomic([waiting], x, true);
    assert [waiting][1..] + [x] == [x];
  }

  /** The put as evidently intended: the drop takes a waiting item only if one
      is still there (get_nowait() with queue.Empty caught), so a reader that
      got in first has simply taken the old frame itself. Returns the link
      afterwards and what that reader received. */
  function PutTolerant<T>(q: seq<T>, x: T, readerBetween: bool): (r: (seq<T>, seq<T>))
    requires |q| <= Capacity
    ensures r.0 == AfterPut(q, x)
  {
    if readerBetween && |q| != 0 then (q[1..] + [x], [q[0]])
    else if |q| >= Capacity then (q[1..] + [x], [])
    else (q + [x], [])
  }

  /** The tolerant put is atomic as seen from the link: with a get in between it
      is that get followed by a whole put, and without one it is the whole put. */
  lemma {:induction false} PutTolerantIsAtomic<T>(q: seq<T>, x: T, readerBetween: bool)
    requires |q| <= Capacity
    ensures readerBetween && |q| != 0 ==> PutTolerant(q, x, true) == Run(q, [Read, Write(x)])
    ensures !readerBetween ==> PutTolerant(q, x, false) == Run(q, [Write(x)])
  {
    var one := [Write(x)];
    assert one[1..] == [];
    var two := [Read, Write(x)];
    assert two[1..] == one;
    if readerBetween && |q| != 0 {
      assert two[0] == Read;
      assert Apply(q, Read) == ([], [q[0]]);
      assert Run([], one) == ([x], []);
      assert Run(q, two) == (Run([], one).0, [q[0]] + Run([], one).1);
      assert q[1..] + [x] == [x];
      assert [q[0]] + [] == [q[0]];
    }
  }

  /** A Queue(1): the items waiting, oldest first. */
  class Link<T> {
    var items: seq<T>

    ghost predicate Valid()
      reads this
    {
      |items| <= Capacity
    }

    constructor ()
      ensures Valid() && items == []
    {
      items := [];
    }

    /** Queue.full(): as many items waiting as the capacity allows. */
    function Full(): bool
      reads this
    {
      |items| >= Capacity
    }

    /** The writers' newest-wins put: a waiting frame is taken out unread, then
        x is put. Never blocks. Returns the frame that was dropped, if any. */
    method Put(x: T) returns (dropped: Option<T>)
      requires Valid()
      modifies this
      ensures Valid()
      ensures items == [x]
      ensures items == Apply(old(items), Write(x)).0
      ensures dropped == if |old(items)| == 0 then None else Some(old(items)[0])
    {
      dropped := None;
      if Full() {
        dropped := Some(items[0]);
        items := items[1..];
      }
      items := items + [x];
    }

    /** The reader's get. Where the system blocks until a frame arrives, this
        returns None and changes nothing. */
    method Get() returns (x: Option<T>)
      requires Valid()
      modifies this
      ensures Valid()
      ensures x.None? <==> |old(items)| == 0
      ensures (items, if x.Some? then [x.value] else []) == Apply(old(items), Read)
    {
      if |items| == 0 {
        x := None;
      } else {
        x := Some(items[0]);
        items := items[1..];
      }
    }
  }
}
