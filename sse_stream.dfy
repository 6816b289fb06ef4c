/**
 * SSEStream (backend/utils/sse_stream.py): a FIFO of strings closed by an
 * end marker, iterated asynchronously, each item leaving as a Server-Sent
 * Events "data:" frame.
 *
 * The asyncio queue becomes a sequence of `Option<string>` whose `None`
 * is the marker `close` puts. The model is sequential: `get` on an empty
 * queue would wait for a producer, and that wait is the precondition of
 * Next. The pure functions are the specification; the class `SseStream`
 * holds the two fields and its methods are proved to follow them.
 */
module ServerSentEvents {
  import opened Wrappers
  import opened Strings
  import opened EventStream

  /** The object's state: `_queue` and `_closed`. */
  datatype Stream = Stream(queue: seq<Option<string>>, closed: bool)

  /** What one `__anext__` call gives: a frame, or StopAsyncIteration. */
  datatype Step = Yield(frame: string) | StopIteration

  /** `__init__`: an empty queue, not closed. */
  function Init(): Stream
  {
    Stream([], false)
  }

  /** `send`: the item goes to the back of the queue; `_closed` is not consulted. */
  function Put(s: Stream, d: string): Stream
  {
    s.(queue := s.queue + [Some(d)])
  }

  /** `close`: the flag is set and the end marker goes to the back of the queue. */
  function Closing(s: Stream): Stream
  {
    Stream(s.queue + [None], true)
  }

  /** `__anext__`: the head is removed; an item is framed, the marker stops the iteration. */
  function Take(s: Stream): (Step, Stream)
    requires s.queue != []
  {
    var rest := s.(queue := s.queue[1..]);
    match s.queue[0]
      case None => (StopIteration, rest)
      case Some(d) => (Yield(Frame(d)), rest)
  }

  /**
   * `async for` over the stream (`__aiter__` returns the object itself):
   * Take until the marker stops it. It ends only if a marker is queued.
   * The result is the frames yielded and the state left behind.
   */
  function Iterate(s: Stream): (seq<string>, Stream)
    requires None in s.queue
    decreases |s.queue|
  {
    match Take(s)
      case (StopIteration, t) => ([], t)
      case (Yield(f), t) => var (fs, u) := Iterate(t); ([f] + fs, u)
  }

  /** The queue entries for a sequence of items. */
  function Items(ds: seq<string>): (q: seq<Option<string>>)
    ensures |q| == |ds| && None !in q
    ensures forall i :: 0 <= i < |ds| ==> q[i] == Some(ds[i])
    decreases |ds|
  {
    if ds == [] then [] else [Some(ds[0])] + Items(ds[1..])
  }

  /** Sending each item of `ds` in turn. */
  function PutAll(s: Stream, ds: seq<string>): Stream
    decreases |ds|
  {
    if ds == [] then s else PutAll(Put(s, ds[0]), ds[1..])
  }

  /** Sending items appends their entries to the queue and leaves the flag alone. */
  lemma {:induction false} PutAllQueue(s: Stream, ds: seq<string>)
    ensures PutAll(s, ds) == Stream(s.queue + Items(ds), s.closed)
    decreases |ds|
  {
    if ds == [] {
      assert s.queue + Items(ds) == s.queue;
    } else {
      PutAllQueue(Put(s, ds[0]), ds[1..]);
      assert s.queue + [Some(ds[0])] + Items(ds[1..]) == s.queue + Items(ds);
    }
  }

  /**
   * FIFO up to the marker: iterating a queue of items followed by the
   * marker yields each item's frame in queue order, consumes the marker,
   * and leaves whatever was queued behind it.
   */
  lemma {:induction false} IterateInOrder(ds: seq<string>, later: seq<Option<string>>, closed: bool)
    ensures var q := Items(ds) + [None] + later;
      None in q && Iterate(Stream(q, closed)) == (Framed(Frame, ds), Stream(later, closed))
    decreases |ds|
  {
    var q := Items(ds) + [None] + later;
    assert q[|ds|] == None;
    if ds == [] {
      assert q == [None] + later;
      assert q[1..] == later;
    } else {
      assert q[0] == Some(ds[0]);
      assert q[1..] == Items(ds[1..]) + [None] + later;
      IterateInOrder(ds[1..], later, closed);
    }
  }

  /**
   * A stream's life: items `ds` are sent, the stream is closed, then items
   * `late` are sent. The queue holds the early items, the marker and the
   * late items; iteration yields exactly the frames of the early items,
   * in the order sent, and stops, leaving the late items unread.
   */
  lemma Lifecycle(ds: seq<string>, late: seq<string>)
    ensures var s := PutAll(Closing(PutAll(Init(), ds)), late);
      s == Stream(Items(ds) + [None] + Items(late), true) &&
      None in s.queue &&
      Iterate(s) == (Framed(Frame, ds), Stream(Items(late), true))
  {
    PutAllQueue(Init(), ds);
    assert [] + Items(ds) == Items(ds);
    PutAllQueue(Closing(PutAll(Init(), ds)), late);
    IterateInOrder(ds, Items(late), true);
  }

  /**
   * End to end: a client parsing everything the stream yields before it
   * stops gets back every item sent before the close, provided no item
   * holds a line break.
   */
  lemma ClientReceivesSent(ds: seq<string>, late: seq<string>)
    requires forall i :: 0 <= i < |ds| ==> NoLineEnds(ds[i])
    ensures var s := PutAll(Closing(PutAll(Init(), ds)), late);
      None in s.queue && Parse(Concat(Iterate(s).0)) == ds
  {
    Lifecycle(ds, late);
    WireRoundTrip(ds);
  }

  /** The Python object, with its two fields. */
  class SseStream {
    var queue: seq<Option<string>>
    var closed: bool

    /** The fields as a value of the specification datatype. */
    function State(): Stream
      reads this
    {
      Stream(queue, closed)
    }

    constructor ()
      ensures queue == [] && !closed
      ensures State() == Init()
    {
      queue, closed := [], false;
    }

    method Send(d: string)
      modifies this
      ensures queue == old(queue) + [Some(d)] && closed == old(closed)
      ensures State() == Put(old(State()), d)
    {
      queue := queue + [Some(d)];
    }

    method Close()
      modifies this
      ensures queue == old(queue) + [None] && closed
      ensures State() == Closing(old(State()))
    {
      closed := true;
      queue := queue + [None];
    }

    /** `__anext__`; the queue must hold an entry, since the model does not wait for one. */
    method Next() returns (r: Step)
      requires queue != []
      modifies this
      ensures queue == old(queue)[1..] && closed == old(closed)
      ensures old(queue)[0] == None ==> r == StopIteration
      ensures old(queue)[0] != None ==> r == Yield("data: " + old(queue)[0].value + "\n\n")
      ensures (r, State()) == Take(old(State()))
    {
      var data := queue[0];
      queue := queue[1..];
      if data == None {
        return StopIteration;
      }
      r := Yield(Frame(data.value));
    }
  }
}
