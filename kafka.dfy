/**
 * The Kafka consumer (internal/kafka/consumer.go): one pass of the
 * consumeMessages loop, processOrder, and the Start/Stop pair. The reader,
 * JSON decoding and the store write are oracles whose outcomes are inputs.
 */
module Kafka {
  import opened Wrappers
  import opened Orders
  import opened Cache

  /** A message as fetched from the topic; only its identity matters to the model. */
  datatype Message = Message(partition: int, offset: int, value: seq<bv8>)

  /** What FetchMessage and json.Unmarshal produce for one pass of the loop. */
  datatype Fetch =
    | FetchFailed(err: Error)
    | Fetched(msg: Message, decoded: Result<Order, Error>)

  /** One pass's oracle outcomes: the fetch and what CreateOrder would return. */
  datatype Poll = Poll(fetch: Fetch, createErr: Option<Error>)

  /** One call of CreateOrder and its outcome. */
  datatype Write = Write(order: Order, err: Option<Error>)

  /** The log line a pass ends with, one per branch of the loop body. */
  datatype Outcome =
    | FetchSkipped        // "Failed to fetch message"
    | DecodeSkipped       // "Failed to unmarshal message"
    | EmptyUidSkipped     // "Received order with empty UID"
    | ProcessFailed(err: Error)   // "Failed to process order"
    | Processed           // "Successfully created order"

  /** What the consumer has done so far: the cache, the store writes, the commits. */
  datatype State = State(orders: map<string, Order>, writes: seq<Write>, committed: seq<Message>)

  /** One pass of the loop body once the stop channel has been found open. */
  function Next(s: State, p: Poll): (State, Outcome)
  {
    match p.fetch
    case FetchFailed(_) => (s, FetchSkipped)
    case Fetched(msg, decoded) =>
      if decoded.Err? then (s, DecodeSkipped)
      else
        var o := decoded.value;
        if o.orderUid == "" then (s, EmptyUidSkipped)
        else
          var orders := if p.createErr.None? then s.orders[o.orderUid := o] else s.orders;
          var outcome := if p.createErr.None? then Processed else ProcessFailed(p.createErr.value);
          (State(orders, s.writes + [Write(o, p.createErr)], s.committed + [msg]), outcome)
  }

  /**
   * A fetch error, a decode error or an empty UID leaves no trace: no store
   * write, no cache update, no commit. A decoded order with a UID is always
   * written and its message always committed, and it reaches the cache
   * exactly when the write succeeded.
   */
  lemma PassEffects(s: State, p: Poll)
    ensures p.fetch.FetchFailed? ==> Next(s, p) == (s, FetchSkipped)
    ensures p.fetch.Fetched? && p.fetch.decoded.Err? ==> Next(s, p) == (s, DecodeSkipped)
    ensures p.fetch.Fetched? && p.fetch.decoded.Ok? && p.fetch.decoded.value.orderUid == "" ==>
              Next(s, p) == (s, EmptyUidSkipped)
    ensures p.fetch.Fetched? && p.fetch.decoded.Ok? && p.fetch.decoded.value.orderUid != "" ==>
              var o := p.fetch.decoded.value;
              var (t, outcome) := Next(s, p);
              && t.writes == s.writes + [Write(o, p.createErr)]
              && t.committed == s.committed + [p.fetch.msg]
              && (p.createErr.None? ==> outcome == Processed && o.orderUid in t.orders && t.orders[o.orderUid] == o)
              && (p.createErr.Some? ==> outcome == ProcessFailed(p.createErr.value) && t.orders == s.orders)
  {
  }

  /** Passes over `polls` in order, the stop channel staying open throughout. */
  function Run(s: State, polls: seq<Poll>): State
    decreases |polls|
  {
    if polls == [] then s
    else Next(Run(s, polls[..|polls| - 1]), polls[|polls| - 1]).0
  }

  /** The orders of the successful writes among `ws`, in call order. */
  function Succeeded(ws: seq<Write>): seq<Order>
    decreases |ws|
  {
    if ws == [] then []
    else
      var w := ws[|ws| - 1];
      Succeeded(ws[..|ws| - 1]) + (if w.err.None? then [w.order] else [])
  }

  /** The messages a run over `polls` commits: those that decoded to an order with a UID. */
  function Commits(polls: seq<Poll>): seq<Message>
    decreases |polls|
  {
    if polls == [] then []
    else
      var p := polls[|polls| - 1];
      Commits(polls[..|polls| - 1])
        + (if p.fetch.Fetched? && p.fetch.decoded.Ok? && p.fetch.decoded.value.orderUid != ""
           then [p.fetch.msg] else [])
  }

  lemma SucceededSnoc(ws: seq<Write>, w: Write)
    ensures Succeeded(ws + [w]) == Succeeded(ws) + (if w.err.None? then [w.order] else [])
  {
    assert (ws + [w])[..|ws|] == ws;
  }

  lemma RestoredSnoc(m: map<string, Order>, os: seq<Order>, o: Order)
    ensures Restored(m, os + [o]) == Restored(m, os)[o.orderUid := o]
  {
    assert (os + [o])[..|os|] == os;
  }

  /** One pass keeps "cache = `m` plus the successful writes since position `base`". */
  lemma NextWritesThrough(m: map<string, Order>, t: State, p: Poll, base: nat)
    requires base <= |t.writes|
    requires t.orders == Restored(m, Succeeded(t.writes[base..]))
    ensures base <= |Next(t, p).0.writes| && Next(t, p).0.writes[..base] == t.writes[..base]
    ensures Next(t, p).0.orders == Restored(m, Succeeded(Next(t, p).0.writes[base..]))
  {
    var next := Next(t, p).0;
    if p.fetch.Fetched? && p.fetch.decoded.Ok? && p.fetch.decoded.value.orderUid != "" {
      var o := p.fetch.decoded.value;
      var w := Write(o, p.createErr);
      var added := t.writes[base..];
      var done := Succeeded(added);
      assert next.writes == t.writes + [w];
      assert next.writes[base..] == added + [w];
      assert next.writes[..base] == t.writes[..base];
      SucceededSnoc(added, w);
      if p.createErr.None? {
        RestoredSnoc(m, done, o);
        assert next.orders == t.orders[o.orderUid := o];
        assert Succeeded(next.writes[base..]) == done + [o];
      } else {
        assert next.orders == t.orders;
        assert Succeeded(next.writes[base..]) == done;
      }
    } else {
      assert next == t;
    }
  }

  /**
   * Write-through: a run only appends to the store log, and the cache it
   * leaves is the old cache with exactly the successfully written orders
   * applied in order; a failed write never reaches the cache.
   */
  lemma {:induction false} RunWritesThrough(s: State, polls: seq<Poll>)
    ensures |s.writes| <= |Run(s, polls).writes| && Run(s, polls).writes[..|s.writes|] == s.writes
    ensures Run(s, polls).orders == Restored(s.orders, Succeeded(Run(s, polls).writes[|s.writes|..]))
    decreases |polls|
  {
    if polls == [] {
      assert s.writes[|s.writes|..] == [];
    } else {
      var init := polls[..|polls| - 1];
      RunWritesThrough(s, init);
      NextWritesThrough(s.orders, Run(s, init), polls[|polls| - 1], |s.writes|);
    }
  }

  /** A run commits exactly the messages that decoded to an order with a non-empty UID, in order. */
  lemma {:induction false} RunCommits(s: State, polls: seq<Poll>)
    ensures Run(s, polls).committed == s.committed + Commits(polls)
    decreases |polls|
  {
    if polls != [] {
      RunCommits(s, polls[..|polls| - 1]);
    }
  }

  /**
   * Whatever the previous message was (unfetchable, undecodable, without a
   * UID, or one whose write failed), a valid order after it whose write
   * succeeds lands in the cache.
   */
  lemma NothingBlocksTheNextOrder(s: State, bad: Poll, msg: Message, o: Order)
    requires o.orderUid != ""
    ensures var good := Poll(Fetched(msg, Ok(o)), None);
            var after := Run(s, [bad, good]);
            o.orderUid in after.orders && after.orders[o.orderUid] == o
  {
    var good := Poll(Fetched(msg, Ok(o)), None);
    assert [bad, good][..1] == [bad];
    assert [bad][..0] == [];
  }

  /** Processing the same valid order twice with successful writes leaves the cache of processing it once. */
  lemma ProcessingTwiceIsProcessingOnce(s: State, m1: Message, m2: Message, o: Order)
    requires o.orderUid != ""
    ensures var once := Next(s, Poll(Fetched(m1, Ok(o)), None)).0;
            Next(once, Poll(Fetched(m2, Ok(o)), None)).0.orders == once.orders
  {
  }

  class Consumer {
    const cache: OrderCache
    var stopClosed: bool           // stopChan has been closed
    var readerClosed: bool         // reader.Close has been called
    var writes: seq<Write>         // the CreateOrder calls made, with their outcomes
    var committed: seq<Message>    // the messages handed to CommitMessages

    /** The consumer's observable state. */
    function Snapshot(): State
      reads this, cache
    {
      State(cache.orders, writes, committed)
    }

    /** NewConsumer: an open stop channel and reader, nothing written or committed yet. */
    constructor (cache: OrderCache)
      ensures this.cache == cache
      ensures !stopClosed && !readerClosed && writes == [] && committed == []
    {
      this.cache := cache;
      stopClosed, readerClosed := false, false;
      writes, committed := [], [];
    }

    /**
     * processOrder: the store write comes first; only when it succeeds is the
     * order set into the cache. The write's error, if any, is returned.
     */
    method ProcessOrder(o: Order, createErr: Option<Error>) returns (err: Option<Error>)
      requires cache.Valid()
      modifies this, cache
      ensures cache.Valid()
      ensures err == createErr
      ensures writes == old(writes) + [Write(o, createErr)]
      ensures createErr.None? ==> cache.orders == old(cache.orders)[o.orderUid := o]
      ensures createErr.Some? ==> cache.orders == old(cache.orders)
      ensures committed == old(committed)
      ensures stopClosed == old(stopClosed) && readerClosed == old(readerClosed)
    {
      writes := writes + [Write(o, createErr)];
      if createErr.Some? {
        return createErr;
      }
      cache.Set(o);
      return None;
    }

    /** The default branch of consumeMessages' select: fetch, decode, validate, process, commit. */
    method ConsumeOnce(p: Poll) returns (outcome: Outcome)
      requires cache.Valid()
      modifies this, cache
      ensures cache.Valid()
      ensures (Snapshot(), outcome) == Next(old(Snapshot()), p)
      ensures stopClosed == old(stopClosed) && readerClosed == old(readerClosed)
    {
      if p.fetch.FetchFailed? {
        return FetchSkipped;
      }
      var msg := p.fetch.msg;
      if p.fetch.decoded.Err? {
        return DecodeSkipped;
      }
      var o := p.fetch.decoded.value;
      if o.orderUid == "" {
        return EmptyUidSkipped;
      }
      var err := ProcessOrder(o, p.createErr);
      outcome := if err.Some? then ProcessFailed(err.value) else Processed;
      committed := committed + [msg];
    }

    /**
     * consumeMessages over a finite script of polls: the stop channel is
     * checked before every fetch, and once it is closed the loop returns
     * without fetching.
     */
    method ConsumeMessages(polls: seq<Poll>)
      requires cache.Valid()
      modifies this, cache
      ensures cache.Valid()
      ensures old(stopClosed) ==> Snapshot() == old(Snapshot())
      ensures !old(stopClosed) ==> Snapshot() == Run(old(Snapshot()), polls)
      ensures stopClosed == old(stopClosed) && readerClosed == old(readerClosed)
    {
      var i := 0;
      while i < |polls|
        invariant 0 <= i <= |polls|
        invariant cache.Valid()
        invariant stopClosed == old(stopClosed) && readerClosed == old(readerClosed)
        invariant old(stopClosed) ==> Snapshot() == old(Snapshot())
        invariant !old(stopClosed) ==> Snapshot() == Run(old(Snapshot()), polls[..i])
      {
        if stopClosed {
          return;
        }
        assert polls[..i + 1][..i] == polls[..i];
        var _ := ConsumeOnce(polls[i]);
        i := i + 1;
      }
      assert polls[..i] == polls;
    }

    /**
     * Stop closes the stop channel and then the reader. Closing a channel
     * that is already closed is a Go runtime panic, reported as `panicked`,
     * and the reader is then left as it was.
     */
    method Stop() returns (panicked: bool)
      modifies this
      ensures panicked == old(stopClosed)
      ensures stopClosed
      ensures readerClosed == (old(readerClosed) || !panicked)
      ensures writes == old(writes) && committed == old(committed)
    {
      if stopClosed {
        return true;
      }
      stopClosed := true;
      readerClosed := true;
      return false;
    }

    /**
     * Start as written: it closes the stop channel and the reader exactly as
     * Stop does and never runs the loop.
     */
    method Start() returns (panicked: bool)
      modifies this
      ensures panicked == old(stopClosed)
      ensures stopClosed
      ensures readerClosed == (old(readerClosed) || !panicked)
      ensures writes == old(writes) && committed == old(committed)
    {
      if stopClosed {
        return true;
      }
      stopClosed := true;
      readerClosed := true;
      return false;
    }

    /**
     * Start as evidently intended: it runs the loop (here over a finite
     * script) and leaves the stop channel open for Stop to close.
     */
    method StartConsuming(polls: seq<Poll>)
      requires cache.Valid() && !stopClosed
      modifies this, cache
      ensures cache.Valid()
      ensures !stopClosed
      ensures readerClosed == old(readerClosed)
      ensures Snapshot() == Run(old(Snapshot()), polls)
    {
      ConsumeMessages(polls);
    }
  }

  /**
   * Start then Stop on a fresh consumer, as the service's startup and
   * shutdown do: Stop panics on the second close, and nothing is cached. The
   * code never starts the consuming loop at all; the call below only shows
   * that a loop started after Start would fetch nothing, since Start already
   * closed the stop channel.
   */
  method StartThenStop(polls: seq<Poll>) returns (cached: map<string, Order>, panicked: bool)
    ensures cached == map[]
    ensures panicked
  {
    var cache := new OrderCache();
    var consumer := new Consumer(cache);
    var _ := consumer.Start();
    consumer.ConsumeMessages(polls);
    cached := cache.orders;
    panicked := consumer.Stop();
  }

  /**
   * The intended order of events: the loop ingests the script and a later
   * Stop closes the channel once, without panicking.
   */
  method StartConsumingThenStop(polls: seq<Poll>) returns (cached: map<string, Order>, panicked: bool)
    ensures cached == Run(State(map[], [], []), polls).orders
    ensures !panicked
  {
    var cache := new OrderCache();
    var consumer := new Consumer(cache);
    consumer.StartConsuming(polls);
    cached := cache.orders;
    panicked := consumer.Stop();
  }
}
