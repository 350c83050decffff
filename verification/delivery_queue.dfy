/** The bounded delivery queue of the stdout/stderr/file and rsyslog
    publishers: a buffered channel of capacity `cap`, drained by one worker
    goroutine that receives an entry and then writes it with a line
    terminator. Sending on a full channel blocks the sender; nothing is ever
    dropped.

    The model is sequential. Each channel operation is one step; a step that
    would block (a send on a full channel, a receive on an empty one) is not
    enabled and yields None. The worker's two statements are separate steps,
    so the entry it has received but not yet written is part of the state.
    The worker goes back to its receive as part of its write, so a worker
    that holds no entry while the buffer is empty is parked in `<-ch`. */
module DeliveryQueue {
  import opened Wrappers

  /** `pending` is the channel buffer, oldest first; `inFlight` the entry the
      worker has received and is writing; `written` the lines handed to the
      destination, in order. */
  datatype Queue = Queue(pending: seq<string>, inFlight: Option<string>, cap: nat, written: seq<string>)

  /** The channel never holds more than its capacity. */
  predicate Valid(q: Queue) {
    |q.pending| <= q.cap
  }

  /** Entries accepted but not yet written, oldest first. */
  function Contents(q: Queue): seq<string> {
    (if q.inFlight.Some? then [q.inFlight.value] else []) + q.pending
  }

  /** The worker holds no entry and the buffer is empty: it is parked in its
      receive. */
  predicate WorkerWaiting(q: Queue) {
    q.inFlight.None? && q.pending == []
  }

  /** `make(chan string, cap)` with the worker just started. */
  function Empty(cap: nat): (q: Queue)
    ensures Valid(q) && q.cap == cap
    ensures Contents(q) == [] && q.written == [] && WorkerWaiting(q)
  {
    Queue([], None, cap, [])
  }

  /** `ch <- s`: as Go's runtime does, handed straight to a parked worker
      whatever the capacity; otherwise buffered when the channel has room;
      otherwise the sender blocks. The entry always goes to the back. */
  function Push(q: Queue, s: string): (r: Option<Queue>)
    requires Valid(q)
    ensures r.Some? <==> WorkerWaiting(q) || |q.pending| < q.cap
    ensures r.Some? ==> Valid(r.value) && r.value.cap == q.cap && r.value.written == q.written
    ensures r.Some? ==> Contents(r.value) == Contents(q) + [s]
    // A parked worker takes the entry itself and leaves the buffer's room.
    ensures WorkerWaiting(q) ==> r.Some? && r.value.inFlight == Some(s) && r.value.pending == []
    // Otherwise the worker's slot is untouched and the entry is buffered.
    ensures !WorkerWaiting(q) && r.Some? ==> r.value.inFlight == q.inFlight && r.value.pending == q.pending + [s]
  {
    if WorkerWaiting(q) then Some(q.(inFlight := Some(s)))
    else if |q.pending| < q.cap then Some(q.(pending := q.pending + [s]))
    else None
  }

  /** How many sends in a row the queue accepts before a sender blocks: the
      free slots of the buffer, and one more for a parked worker. */
  function Room(q: Queue): nat
    requires Valid(q)
  {
    q.cap - |q.pending| + (if WorkerWaiting(q) then 1 else 0)
  }

  /** The worker's `s := <-ch`: takes the oldest buffered entry once it has
      finished the previous write; blocks on an empty channel. */
  function Receive(q: Queue): (r: Option<Queue>)
    requires Valid(q)
    ensures r.Some? <==> q.inFlight.None? && q.pending != []
    ensures r.Some? ==> Valid(r.value) && r.value.cap == q.cap && r.value.written == q.written
    ensures r.Some? ==> Contents(r.value) == Contents(q) && r.value.inFlight == Some(q.pending[0])
  {
    if q.inFlight.None? && q.pending != [] then
      Some(q.(pending := q.pending[1..], inFlight := Some(q.pending[0])))
    else None
  }

  /** The worker's write of `s + "\n"` to the destination. */
  function Write(q: Queue): (r: Option<Queue>)
    requires Valid(q)
    ensures r.Some? <==> q.inFlight.Some?
    ensures r.Some? ==> Valid(r.value) && r.value.cap == q.cap && r.value.inFlight.None?
    ensures r.Some? ==> Contents(q) == [q.inFlight.value] + Contents(r.value)
    ensures r.Some? ==> r.value.written == q.written + [q.inFlight.value + "\n"]
  {
    if q.inFlight.Some? then
      Some(q.(inFlight := None, written := q.written + [q.inFlight.value + "\n"]))
    else None
  }

  // ---------------------------------------------------------------------
  // Traces
  // ---------------------------------------------------------------------

  /** A producer's send, or one of the worker's two steps. */
  datatype Event = Send(entry: string) | Take | Deliver

  function Step(q: Queue, ev: Event): Option<Queue>
    requires Valid(q)
  {
    match ev
    case Send(s) => Push(q, s)
    case Take => Receive(q)
    case Deliver => Write(q)
  }

  /** Runs the events in order; None as soon as one of them would block. */
  function Run(q: Queue, evs: seq<Event>): (r: Option<Queue>)
    requires Valid(q)
    ensures r.Some? ==> Valid(r.value) && r.value.cap == q.cap
    decreases |evs|
  {
    if evs == [] then Some(q)
    else match Step(q, evs[0])
      case None => None
      case Some(q') => Run(q', evs[1..])
  }

  /** The entries of the send events, in order. */
  function Pushed(evs: seq<Event>): seq<string> {
    if evs == [] then []
    else (if evs[0].Send? then [evs[0].entry] else []) + Pushed(evs[1..])
  }

  /** The lines the worker writes for the given entries. The ensures only
      spell out the comprehension, for the solver's benefit. */
  function Terminated(xs: seq<string>): (ws: seq<string>)
    ensures |ws| == |xs|
    ensures forall k :: 0 <= k < |xs| ==> ws[k] == xs[k] + "\n"
  {
    seq(|xs|, k requires 0 <= k < |xs| => xs[k] + "\n")
  }

  lemma TerminatedAppend(a: seq<string>, b: seq<string>)
    ensures Terminated(a + b) == Terminated(a) + Terminated(b)
  {
    assert |Terminated(a + b)| == |Terminated(a) + Terminated(b)|;
    forall k | 0 <= k < |a| + |b|
      ensures Terminated(a + b)[k] == (Terminated(a) + Terminated(b))[k]
    {
      if k < |a| {
        assert (a + b)[k] == a[k];
      } else {
        assert (a + b)[k] == b[k - |a|];
      }
    }
  }

  /** The FIFO bookkeeping between an earlier state `q` and a later one
      `q'` after the entries `xs` were sent: the written lines are only
      extended, and the written lines followed by the lines the queued
      entries will become are the earlier ones followed by the lines of `xs`. */
  predicate Accounts(q: Queue, q': Queue, xs: seq<string>) {
    && q.written <= q'.written
    && q'.written + Terminated(Contents(q')) == q.written + Terminated(Contents(q) + xs)
  }

  lemma AccountsTrans(q: Queue, q1: Queue, q': Queue, xs: seq<string>, ys: seq<string>)
    requires Accounts(q, q1, xs) && Accounts(q1, q', ys)
    ensures Accounts(q, q', xs + ys)
  {
    calc {
      q'.written + Terminated(Contents(q'));
      q1.written + Terminated(Contents(q1) + ys);
      { TerminatedAppend(Contents(q1), ys); }
      q1.written + Terminated(Contents(q1)) + Terminated(ys);
      q.written + Terminated(Contents(q) + xs) + Terminated(ys);
      { TerminatedAppend(Contents(q) + xs, ys); }
      q.written + Terminated(Contents(q) + xs + ys);
      { assert Contents(q) + xs + ys == Contents(q) + (xs + ys); }
      q.written + Terminated(Contents(q) + (xs + ys));
    }
  }

  /** One step keeps the bookkeeping, with the entry of a send event. */
  lemma StepKeepsOrder(q: Queue, ev: Event)
    requires Valid(q)
    ensures Step(q, ev).Some? ==> Accounts(q, Step(q, ev).value, Pushed([ev]))
  {
    assert Pushed([ev]) == (if ev.Send? then [ev.entry] else []) + Pushed([]);
    if Step(q, ev).Some? {
      var q' := Step(q, ev).value;
      match ev
      case Send(s) =>
        assert Contents(q) + Pushed([ev]) == Contents(q');
      case Take =>
        assert Contents(q) + Pushed([ev]) == Contents(q');
      case Deliver =>
        var h := q.inFlight.value;
        TerminatedAppend([h], Contents(q'));
        assert Contents(q) + Pushed([ev]) == [h] + Contents(q');
        assert Terminated([h]) == [h + "\n"];
    }
  }

  /** Every run keeps the queue within its capacity, delivers in send order
      and loses nothing: the written lines followed by the lines of the
      queued entries are the starting ones followed by the lines of
      everything sent, in send order. */
  lemma {:induction false} RunKeepsOrder(q: Queue, evs: seq<Event>)
    requires Valid(q)
    ensures Run(q, evs).Some? ==> Valid(Run(q, evs).value) && Accounts(q, Run(q, evs).value, Pushed(evs))
    decreases |evs|
  {
    if evs == [] {
      assert Contents(q) + Pushed(evs) == Contents(q);
    } else if Step(q, evs[0]).Some? {
      var q1 := Step(q, evs[0]).value;
      assert Run(q, evs) == Run(q1, evs[1..]);
      assert Pushed(evs) == Pushed([evs[0]]) + Pushed(evs[1..]) by {
        assert [evs[0]][1..] == [];
      }
      StepKeepsOrder(q, evs[0]);
      RunKeepsOrder(q1, evs[1..]);
      if Run(q1, evs[1..]).Some? {
        AccountsTrans(q, q1, Run(q1, evs[1..]).value, Pushed([evs[0]]), Pushed(evs[1..]));
      }
    }
  }

  /** From a freshly made queue: the written lines followed by the lines of
      the queued entries are exactly the sent entries, terminated, in send
      order. */
  lemma FifoFromEmpty(cap: nat, evs: seq<Event>)
    ensures Run(Empty(cap), evs).Some? ==>
      var q := Run(Empty(cap), evs).value;
      && |q.pending| <= cap
      && q.written + Terminated(Contents(q)) == Terminated(Pushed(evs))
  {
    RunKeepsOrder(Empty(cap), evs);
    assert Contents(Empty(cap)) + Pushed(evs) == Pushed(evs);
  }

  /** Appending the terminator loses nothing. */
  lemma TerminatorCancels(a: string, b: string)
    requires a + "\n" == b + "\n"
    ensures a == b
  {
    assert a == (a + "\n")[..|a|];
    assert b == (b + "\n")[..|b|];
  }

  /** The FIFO invariant in its direct form: from a fresh queue, the lines
      written so far are the first entries sent, each terminated, and the
      queue holds exactly the entries sent after them. */
  lemma WrittenIsSentPrefix(cap: nat, evs: seq<Event>)
    ensures Run(Empty(cap), evs).Some? ==>
      var q := Run(Empty(cap), evs).value;
      var n := |q.written|;
      && n <= |Pushed(evs)|
      && q.written == Terminated(Pushed(evs)[..n])
      && Contents(q) == Pushed(evs)[n..]
  {
    FifoFromEmpty(cap, evs);
    if Run(Empty(cap), evs).Some? {
      var q := Run(Empty(cap), evs).value;
      var n := |q.written|;
      var xs := Pushed(evs);
      var t := Terminated(xs);
      assert q.written + Terminated(Contents(q)) == t;
      assert q.written == t[..n];
      assert Terminated(Contents(q)) == t[n..];
      assert q.written == Terminated(xs[..n]) by {
        forall k | 0 <= k < n ensures q.written[k] == Terminated(xs[..n])[k] {
          assert q.written[k] == t[k];
        }
      }
      assert Contents(q) == xs[n..] by {
        forall k | 0 <= k < |Contents(q)| ensures Contents(q)[k] == xs[n..][k] {
          assert Terminated(Contents(q))[k] == t[n + k];
          TerminatorCancels(Contents(q)[k], xs[n + k]);
        }
      }
    }
  }

  /** A burst of sends with no worker step in between. The ensures only
      spell out the comprehension, for the solver's benefit. */
  function Sends(xs: seq<string>): (evs: seq<Event>)
    ensures |evs| == |xs|
    ensures forall k :: 0 <= k < |xs| ==> evs[k] == Send(xs[k])
  {
    seq(|xs|, k requires 0 <= k < |xs| => Send(xs[k]))
  }

  /** The entries of a burst are exactly the entries sent. */
  lemma {:induction false} PushedSends(xs: seq<string>)
    ensures Pushed(Sends(xs)) == xs
    decreases |xs|
  {
    if xs != [] {
      var evs := Sends(xs);
      assert evs[1..] == Sends(xs[1..]);
      PushedSends(xs[1..]);
      assert xs == [xs[0]] + xs[1..];
    }
  }

  /** A burst that completes keeps the FIFO bookkeeping of any run, with
      the burst as the entries sent. */
  lemma BurstKeepsOrder(q: Queue, xs: seq<string>)
    requires Valid(q)
    ensures Run(q, Sends(xs)).Some? ==> Accounts(q, Run(q, Sends(xs)).value, xs)
  {
    RunKeepsOrder(q, Sends(xs));
    PushedSends(xs);
  }

  /** With the worker busy or the buffer non-empty, a burst that fits in the
      free slots is buffered in order behind the earlier entries; nothing
      else in the state changes. */
  lemma {:induction false} BufferFits(q: Queue, xs: seq<string>)
    requires Valid(q) && (!WorkerWaiting(q) || xs == []) && |q.pending| + |xs| <= q.cap
    ensures Run(q, Sends(xs)) == Some(Queue(q.pending + xs, q.inFlight, q.cap, q.written))
    decreases |xs|
  {
    var evs := Sends(xs);
    if xs == [] {
      assert evs == [];
      assert q.pending + xs == q.pending;
    } else {
      assert evs[0] == Send(xs[0]) && evs[1..] == Sends(xs[1..]);
      var q1 := Queue(q.pending + [xs[0]], q.inFlight, q.cap, q.written);
      assert Step(q, evs[0]) == Some(q1);
      BufferFits(q1, xs[1..]);
      assert q1.pending + xs[1..] == q.pending + xs;
    }
  }

  /** A burst that fits in the room completes: a parked worker takes its
      first entry and the rest is buffered, all in order behind the earlier
      entries, and nothing is written meanwhile. */
  lemma BurstFits(q: Queue, xs: seq<string>)
    requires Valid(q) && |xs| <= Room(q)
    ensures Run(q, Sends(xs)).Some?
    ensures Contents(Run(q, Sends(xs)).value) == Contents(q) + xs
    ensures Run(q, Sends(xs)).value.written == q.written
  {
    var evs := Sends(xs);
    if WorkerWaiting(q) && xs != [] {
      assert evs[0] == Send(xs[0]) && evs[1..] == Sends(xs[1..]);
      var q1 := Queue(q.pending, Some(xs[0]), q.cap, q.written);
      assert Step(q, evs[0]) == Some(q1);
      BufferFits(q1, xs[1..]);
      assert Contents(Queue(q1.pending + xs[1..], q1.inFlight, q.cap, q.written)) == Contents(q) + xs;
    } else {
      BufferFits(q, xs);
      assert Contents(Queue(q.pending + xs, q.inFlight, q.cap, q.written)) == Contents(q) + xs;
    }
  }

  /** A burst larger than the room blocks before it completes. */
  lemma {:induction false} BurstBlocks(q: Queue, xs: seq<string>)
    requires Valid(q) && |xs| > Room(q)
    ensures Run(q, Sends(xs)).None?
    decreases |xs|
  {
    var evs := Sends(xs);
    assert evs[0] == Send(xs[0]) && evs[1..] == Sends(xs[1..]);
    if WorkerWaiting(q) || |q.pending| < q.cap {
      var q1 := Push(q, xs[0]).value;
      assert Run(q, evs) == Run(q1, evs[1..]);
      assert Room(q1) == Room(q) - 1;
      BurstBlocks(q1, xs[1..]);
    } else {
      assert Push(q, xs[0]).None?;
    }
  }

  /** Blocking, not dropping: a burst of sends with no worker step in between
      completes exactly when it fits in the room, and then every entry of the
      burst is queued behind the others. */
  lemma BurstBlocksWhenFull(q: Queue, xs: seq<string>)
    requires Valid(q)
    ensures Run(q, Sends(xs)).Some? <==> |xs| <= Room(q)
    ensures Run(q, Sends(xs)).Some? ==> Contents(Run(q, Sends(xs)).value) == Contents(q) + xs
    ensures Run(q, Sends(xs)).Some? ==> Run(q, Sends(xs)).value.written == q.written
  {
    if |xs| <= Room(q) {
      BurstFits(q, xs);
    } else {
      BurstBlocks(q, xs);
    }
  }

  /** Lets the worker run until the queue is empty: every accepted entry is
      written, in order, each with its terminator. */
  function Drain(q: Queue): (r: Queue)
    requires Valid(q)
    ensures Valid(r) && r.cap == q.cap && Contents(r) == []
    ensures r.written == q.written + Terminated(Contents(q))
    decreases |Contents(q)|, if q.inFlight.Some? then 0 else 1
  {
    match Write(q)
    case Some(q') =>
      assert Terminated(Contents(q)) == [q.inFlight.value + "\n"] + Terminated(Contents(q'));
      Drain(q')
    case None =>
      match Receive(q)
      case Some(q') => Drain(q')
      case None => q
  }

  /** Entries sent while there is room all reach the output once the worker
      catches up, in send order and each with its terminator. */
  lemma SendThenDrain(q: Queue, xs: seq<string>)
    requires Valid(q) && |xs| <= Room(q)
    ensures Run(q, Sends(xs)).Some?
    ensures Drain(Run(q, Sends(xs)).value).written == q.written + Terminated(Contents(q) + xs)
  {
    BurstFits(q, xs);
  }

  /** Nothing is lost and nothing is reordered: after any run from a fresh
      queue, letting the worker catch up writes exactly the sent entries,
      each with its terminator, in send order. */
  lemma RunThenDrain(cap: nat, evs: seq<Event>)
    ensures Run(Empty(cap), evs).Some? ==> Drain(Run(Empty(cap), evs).value).written == Terminated(Pushed(evs))
  {
    FifoFromEmpty(cap, evs);
  }

  /** Any three entries sent to a fresh queue with room for them (two
      buffer slots and the parked worker) come out as three lines in send
      order. */
  lemma ThreeInOrder(cap: nat, a: string, b: string, c: string)
    requires cap >= 2
    ensures Run(Empty(cap), [Send(a), Send(b), Send(c)]).Some?
    ensures Drain(Run(Empty(cap), [Send(a), Send(b), Send(c)]).value).written == [a + "\n", b + "\n", c + "\n"]
  {
    var evs := [Send(a), Send(b), Send(c)];
    var q1 := Queue([], Some(a), cap, []);
    var q2 := Queue([b], Some(a), cap, []);
    var q3 := Queue([b, c], Some(a), cap, []);
    assert Run(Empty(cap), evs) == Run(q1, evs[1..]);
    assert evs[1..][0] == Send(b) && evs[1..][1..] == evs[2..];
    assert q1.pending + [b] == [b];
    assert Step(q1, Send(b)) == Some(q2);
    assert Run(q1, evs[1..]) == Run(q2, evs[2..]);
    assert evs[2..][0] == Send(c) && evs[2..][1..] == [];
    assert q2.pending + [c] == [b, c];
    assert Step(q2, Send(c)) == Some(q3);
    assert Run(q2, evs[2..]) == Run(q3, []) == Some(q3);
    assert Contents(q3) == [a, b, c];
    assert Terminated([a, b, c]) == [a + "\n", b + "\n", c + "\n"];
  }


}
