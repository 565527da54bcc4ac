/** The client's life cycle around its tracking queue (src/client.ts):
    `connect`, `track`, `flushBatch`, the batch timer and `disconnect` as
    transitions of an explicit state, and `getStats` as a query on it.

    Every backend call is an oracle: whether a write succeeds, whether the
    database connects or disconnects. The interval timer is counted, not
    run: a `TickEvent` is one firing of a live timer. Writes are recorded in
    the order they are issued; the saves of one batch written record by
    record run in parallel, and their record is one entry of the log. */
module Client {
  import opened Wrappers
  import opened Types
  import opened Pricing

  /** The parts of `SDKConfig` the life cycle reads. `batchSize` and
      `batchIntervalMs` are optional numbers and tested for truthiness. */
  datatype Config = Config(
    hasDatabase: bool,
    hasSaveBatch: bool,
    hasGetStats: bool,
    batchSize: Option<int>,
    batchIntervalMs: Option<int>,
    customPricing: PricingTable)

  /** `this.config.batchSize` is truthy. */
  predicate Batching(c: Config) {
    c.batchSize.Some? && c.batchSize.value != 0
  }

  /** `this.config.batchIntervalMs` is truthy. */
  predicate IntervalSet(c: Config) {
    c.batchIntervalMs.Some? && c.batchIntervalMs.value != 0
  }

  /** Which adapter method a write used: `saveBatch` with the whole batch,
      `save` for each record of a batch in parallel, or `save` for one record
      tracked without batching. */
  datatype WriteKind = BatchWrite | PerRecordWrites | SingleWrite

  /** One write issued to the backend and whether it succeeded. A failed
      write is logged and forgotten: nothing retries it. */
  datatype Write = Write(kind: WriteKind, records: seq<TrackingData>, succeeded: bool)

  /** The client's state. `timerHandle` says whether `batchTimer` holds an
      interval; `leakedTimers` counts intervals still running whose handle
      was overwritten by a later `connect`. `dbConnected` is the backend
      connection. */
  datatype Sdk = Sdk(
    config: Config,
    connected: bool,
    dbConnected: bool,
    pricing: PricingTable,
    queue: seq<TrackingData>,
    timerHandle: bool,
    leakedTimers: nat,
    writes: seq<Write>)

  /** A freshly constructed client. */
  function NewSdk(config: Config): (s: Sdk)
    ensures !s.connected && s.queue == [] && s.writes == [] && LiveTimers(s) == 0
  {
    Sdk(config, false, false, map[], [], false, 0, [])
  }

  /** Intervals that are still firing. */
  function LiveTimers(s: Sdk): nat {
    s.leakedTimers + (if s.timerHandle then 1 else 0)
  }

  /** The records of a write log, write after write. */
  function Written(ws: seq<Write>): seq<TrackingData> {
    if |ws| == 0 then [] else Written(ws[..|ws| - 1]) + ws[|ws| - 1].records
  }

  lemma WrittenSnoc(ws: seq<Write>, w: Write)
    ensures Written(ws + [w]) == Written(ws) + w.records
  {
    assert (ws + [w])[..|ws|] == ws;
  }

  // ---------------------------------------------------------------------------
  // Transitions
  // ---------------------------------------------------------------------------

  /** `t` differs from `s` at most in its queue and its write log. */
  predicate OnlyQueueAndLogChange(s: Sdk, t: Sdk) {
    && t.config == s.config
    && t.connected == s.connected
    && t.dbConnected == s.dbConnected
    && t.pricing == s.pricing
    && t.timerHandle == s.timerHandle
    && t.leakedTimers == s.leakedTimers
  }

  /** `flushBatch`: an empty queue makes no call; otherwise the whole queue,
      in order, is taken as the batch and the queue is emptied before the
      write, so the batch is gone whether the write succeeds or not. */
  function Flush(s: Sdk, ok: bool): (t: Sdk)
    ensures t.queue == [] && OnlyQueueAndLogChange(s, t)
    ensures s.queue == [] ==> t == s
    ensures s.queue != [] && s.config.hasDatabase ==>
      t.writes == s.writes + [Write(BatchKind(s.config), s.queue, ok)]
    ensures !s.config.hasDatabase ==> t.writes == s.writes
    ensures s.config.hasDatabase ==> Written(t.writes) == Written(s.writes) + s.queue
  {
    if |s.queue| == 0 then s
    else if !s.config.hasDatabase then s.(queue := [])
    else
      var write := Write(BatchKind(s.config), s.queue, ok);
      WrittenSnoc(s.writes, write);
      s.(queue := [], writes := s.writes + [write])
  }

  /** The adapter method a flushed batch is written with: `saveBatch` when the
      adapter has one, otherwise `save` for each record. */
  function BatchKind(c: Config): (k: WriteKind)
    ensures k != SingleWrite
    ensures k == BatchWrite <==> c.hasSaveBatch
  {
    if c.hasSaveBatch then BatchWrite else PerRecordWrites
  }

  /** `track`: a no-op unless connected with a database. With batching the
      record joins the tail of the queue, which is flushed once it holds at
      least `batchSize` records; without, the record is saved at once and a
      failed save is swallowed. */
  function Track(s: Sdk, r: TrackingData, ok: bool): (t: Sdk)
    ensures OnlyQueueAndLogChange(s, t)
    ensures !s.connected || !s.config.hasDatabase ==> t == s
    ensures s.connected && s.config.hasDatabase && !Batching(s.config) ==>
      t.queue == s.queue && t.writes == s.writes + [Write(SingleWrite, [r], ok)]
    ensures s.connected && s.config.hasDatabase && Batching(s.config) && |s.queue| + 1 < s.config.batchSize.value ==>
      t.queue == s.queue + [r] && t.writes == s.writes
    ensures s.connected && s.config.hasDatabase && Batching(s.config) && |s.queue| + 1 >= s.config.batchSize.value ==>
      t.queue == [] && t.writes == s.writes + [Write(BatchKind(s.config), s.queue + [r], ok)]
  {
    if !s.connected || !s.config.hasDatabase then s
    else if Batching(s.config) then
      var queued := s.(queue := s.queue + [r]);
      if |queued.queue| >= s.config.batchSize.value then Flush(queued, ok) else queued
    else
      s.(writes := s.writes + [Write(SingleWrite, [r], ok)])
  }

  /** One firing of a live batch interval flushes the queue. */
  function Tick(s: Sdk, ok: bool): (t: Sdk)
    ensures OnlyQueueAndLogChange(s, t)
    ensures LiveTimers(s) == 0 ==> t == s
    ensures LiveTimers(s) > 0 ==> t.queue == []
    ensures LiveTimers(s) > 0 && s.config.hasDatabase ==> Written(t.writes) == Written(s.writes) + s.queue
    ensures LiveTimers(s) > 0 && s.config.hasDatabase && s.queue != [] ==>
      t.writes == s.writes + [Write(BatchKind(s.config), s.queue, ok)]
    ensures !s.config.hasDatabase || s.queue == [] ==> t.writes == s.writes
  {
    if LiveTimers(s) > 0 then Flush(s, ok) else s
  }

  /** `disconnect`: clears the timer it holds, flushes, disconnects the
      backend and marks the client disconnected. When the backend's
      disconnect throws, the client stays marked connected. */
  function Disconnect(s: Sdk, flushOk: bool, dbOk: bool): (t: Sdk)
    ensures t.queue == [] && !t.timerHandle && t.leakedTimers == s.leakedTimers
    ensures t.config == s.config && t.pricing == s.pricing
    ensures s.queue != [] && s.config.hasDatabase ==>
      t.writes == s.writes + [Write(BatchKind(s.config), s.queue, flushOk)]
    ensures s.queue == [] || !s.config.hasDatabase ==> t.writes == s.writes
    ensures t.connected <==> s.connected && s.config.hasDatabase && !dbOk
    ensures s.config.hasDatabase && dbOk ==> !t.dbConnected
    ensures !(s.config.hasDatabase && dbOk) ==> t.dbConnected == s.dbConnected
  {
    var stopped := s.(timerHandle := false);
    var flushed := Flush(stopped, flushOk);
    if !s.config.hasDatabase then flushed.(connected := false)
    else if dbOk then flushed.(dbConnected := false, connected := false)
    else flushed
  }

  /** `connect` once the price table has been fetched: the backend connects
      alongside; if it fails, `connect` throws before changing anything.
      Otherwise the table becomes the fetched prices overlaid with the
      caller's, the client is connected, and a batch interval is started when
      a database, a batch size and an interval are all set, overwriting the
      handle of any interval started by an earlier `connect`. */
  function Connect(s: Sdk, fetched: PricingTable, dbOk: bool): (t: Sdk)
    ensures t.config == s.config
    ensures s.config.hasDatabase && !dbOk ==> t == s
    ensures !s.config.hasDatabase || dbOk ==>
      && t.connected
      && t.pricing == MergePricing(fetched, s.config.customPricing)
      && t.queue == s.queue && t.writes == s.writes
      && t.dbConnected == (s.dbConnected || s.config.hasDatabase)
    ensures (!s.config.hasDatabase || dbOk) && s.config.hasDatabase && Batching(s.config) && IntervalSet(s.config) ==>
      t.timerHandle && LiveTimers(t) == LiveTimers(s) + 1
    ensures !(s.config.hasDatabase && Batching(s.config) && IntervalSet(s.config)) ==>
      t.timerHandle == s.timerHandle && LiveTimers(t) == LiveTimers(s)
  {
    if s.config.hasDatabase && !dbOk then s
    else
      var c := s.config;
      var up := s.(
        pricing := MergePricing(fetched, c.customPricing),
        connected := true,
        dbConnected := s.dbConnected || c.hasDatabase);
      if c.hasDatabase && Batching(c) && IntervalSet(c) then
        up.(timerHandle := true, leakedTimers := s.leakedTimers + (if s.timerHandle then 1 else 0))
      else up
  }

  /** `connect` with its own fetch of the price table through the cache:
      returns the client and the cache afterwards. */
  function ConnectFetching(
    s: Sdk, cache: CacheState, now: int, received: int, outcome: FetchOutcome, dbOk: bool): (r: (Sdk, CacheState))
    ensures r.1 == FetchPricing(cache, now, received, outcome).cache
    ensures s.config.hasDatabase && !dbOk ==> r.0 == s
    ensures !s.config.hasDatabase || dbOk ==>
      && r.0.connected
      && r.0.pricing == MergePricing(FetchPricing(cache, now, received, outcome).table, s.config.customPricing)
      && r.0.queue == s.queue && r.0.writes == s.writes
  {
    var fetched := FetchPricing(cache, now, received, outcome);
    (Connect(s, fetched.table, dbOk), fetched.cache)
  }

  /** When the first fetch of the price table fails there is nothing cached,
      and the client is left with exactly the caller's prices. */
  lemma FailedFirstFetchKeepsCustomPrices(s: Sdk, now: int, received: int, outcome: FetchOutcome, dbOk: bool)
    requires !s.config.hasDatabase || dbOk
    requires !outcome.Fetched? || Imported(outcome.data).None?
    ensures ConnectFetching(s, InitialCache, now, received, outcome, dbOk).0.pricing == s.config.customPricing
  {
    FailedFetchFallsBack(InitialCache, now, received, outcome);
    assert FetchPricing(InitialCache, now, received, outcome).table == map[];
    assert map[] + s.config.customPricing == s.config.customPricing;
  }

  /** `getStats`: answered by the adapter when it has a database with a
      `getStats` method, otherwise `null`. It does not require a connection. */
  function GetStats(s: Sdk, answer: UsageStats): (r: Option<UsageStats>)
    ensures r.Some? <==> s.config.hasDatabase && s.config.hasGetStats
    ensures r.Some? ==> r.value == answer
  {
    if s.config.hasDatabase && s.config.hasGetStats then Some(answer) else None
  }

  // ---------------------------------------------------------------------------
  // Runs of events
  // ---------------------------------------------------------------------------

  datatype Event =
    | TrackEvent(record: TrackingData, saveOk: bool)
    | TickEvent(saveOk: bool)
    | ConnectEvent(fetched: PricingTable, dbOk: bool)
    | DisconnectEvent(saveOk: bool, dbOk: bool)

  function Step(s: Sdk, e: Event): Sdk {
    match e
    case TrackEvent(r, ok) => Track(s, r, ok)
    case TickEvent(ok) => Tick(s, ok)
    case ConnectEvent(fetched, dbOk) => Connect(s, fetched, dbOk)
    case DisconnectEvent(ok, dbOk) => Disconnect(s, ok, dbOk)
  }

  function Run(s: Sdk, events: seq<Event>): Sdk
    decreases |events|
  {
    if |events| == 0 then s else Run(Step(s, events[0]), events[1..])
  }

  /** The records `e` hands to the backend: a tracked record, when the client
      is connected with a database. */
  function Accepted(s: Sdk, e: Event): seq<TrackingData> {
    if e.TrackEvent? && s.connected && s.config.hasDatabase then [e.record] else []
  }

  /** The records a run of events hands to the backend, in order. */
  function AcceptedIn(s: Sdk, events: seq<Event>): seq<TrackingData>
    decreases |events|
  {
    if |events| == 0 then [] else Accepted(s, events[0]) + AcceptedIn(Step(s, events[0]), events[1..])
  }

  /** The queue is empty without a database or without batching, and
      otherwise shorter than the batch size whenever it is not empty. */
  predicate Valid(s: Sdk) {
    && (!s.config.hasDatabase ==> s.queue == [])
    && (!Batching(s.config) ==> s.queue == [])
    && (Batching(s.config) && s.queue != [] ==> |s.queue| < s.config.batchSize.value)
  }

  lemma NewSdkValid(config: Config)
    ensures Valid(NewSdk(config))
  {
  }

  /** Every transition keeps the configuration and validity, and hands on or
      queues exactly the records it accepts: what was written, followed by
      the queue, grows by those records and nothing else. */
  lemma StepPreserves(s: Sdk, e: Event)
    requires Valid(s)
    ensures Step(s, e).config == s.config
    ensures Valid(Step(s, e))
    ensures Written(Step(s, e).writes) + Step(s, e).queue == Written(s.writes) + s.queue + Accepted(s, e)
  {
    match e
    case TrackEvent(r, ok) =>
      TrackPreserves(s, r, ok);
    case TickEvent(ok) =>
      FlushPreserves(s, ok);
    case ConnectEvent(fetched, dbOk) =>
      assert s.queue + [] == s.queue;
    case DisconnectEvent(ok, dbOk) =>
      FlushPreserves(s.(timerHandle := false), ok);
  }

  lemma TrackPreserves(s: Sdk, r: TrackingData, ok: bool)
    requires Valid(s)
    ensures Track(s, r, ok).config == s.config
    ensures Valid(Track(s, r, ok))
    ensures Written(Track(s, r, ok).writes) + Track(s, r, ok).queue
         == Written(s.writes) + s.queue + Accepted(s, TrackEvent(r, ok))
  {
    var t := Track(s, r, ok);
    if !s.connected || !s.config.hasDatabase {
      assert t == s;
      assert s.queue + [] == s.queue;
    } else if Batching(s.config) {
      var queued := s.(queue := s.queue + [r]);
      if |queued.queue| >= s.config.batchSize.value {
        assert t == Flush(queued, ok);
        FlushPreserves(queued, ok);
        assert t.queue == [];
      } else {
        assert t == queued;
      }
    } else {
      assert s.queue == [];
      assert t == s.(writes := s.writes + [Write(SingleWrite, [r], ok)]);
      WrittenSnoc(s.writes, Write(SingleWrite, [r], ok));
    }
  }

  /** A flush moves the whole queue, in order, to the end of the write log. */
  lemma FlushPreserves(s: Sdk, ok: bool)
    requires s.config.hasDatabase || s.queue == []
    ensures Valid(Flush(s, ok))
    ensures Written(Flush(s, ok).writes) == Written(s.writes) + s.queue
  {
    if s.queue != [] {
      if s.config.hasSaveBatch {
        WrittenSnoc(s.writes, Write(BatchWrite, s.queue, ok));
      } else {
        WrittenSnoc(s.writes, Write(PerRecordWrites, s.queue, ok));
      }
    }
  }

  /** The main invariant over any run: the records written so far, followed
      by the queue, are exactly the records accepted, in the order they were
      tracked, so no record is written twice or lost from the log (a failed
      write is still in the log, marked failed). */
  lemma {:induction false} RunPreserves(s: Sdk, events: seq<Event>)
    requires Valid(s)
    ensures Valid(Run(s, events)) && Run(s, events).config == s.config
    ensures Written(Run(s, events).writes) + Run(s, events).queue
         == Written(s.writes) + s.queue + AcceptedIn(s, events)
    decreases |events|
  {
    if |events| > 0 {
      var next := Step(s, events[0]);
      var last := Run(s, events);
      assert last == Run(next, events[1..]);
      assert AcceptedIn(s, events) == Accepted(s, events[0]) + AcceptedIn(next, events[1..]);
      StepPreserves(s, events[0]);
      RunPreserves(next, events[1..]);
      calc {
        Written(last.writes) + last.queue;
        Written(next.writes) + next.queue + AcceptedIn(next, events[1..]);
        Written(s.writes) + s.queue + Accepted(s, events[0]) + AcceptedIn(next, events[1..]);
        Written(s.writes) + s.queue + AcceptedIn(s, events);
      }
    }
  }

  /** From a new client, whatever happens, the write log followed by the
      queue lists the accepted records in tracking order. */
  lemma TrackedRecordsAccountedFor(config: Config, events: seq<Event>)
    ensures Written(Run(NewSdk(config), events).writes) + Run(NewSdk(config), events).queue
         == AcceptedIn(NewSdk(config), events)
  {
    RunPreserves(NewSdk(config), events);
    assert Written([]) == [];
  }

  /** After a disconnect whose backend call succeeds the queue is empty and
      every later `track` is a no-op. */
  lemma DisconnectThenTrackIsNoOp(s: Sdk, flushOk: bool, r: TrackingData, ok: bool)
    ensures var t := Disconnect(s, flushOk, true);
            t.queue == [] && Track(t, r, ok) == t
  {
  }

  /** With batching on, a batch size `b >= 1` and a connected database,
      tracking `b` records into an empty queue issues exactly one write,
      holding all of them in order, with the adapter method the
      configuration selects and the outcome of that write, and empties the
      queue. */
  lemma FullBatchFlushes(s: Sdk, rs: seq<TrackingData>, oks: seq<bool>)
    requires s.connected && s.config.hasDatabase && Batching(s.config)
    requires s.queue == [] && |rs| == s.config.batchSize.value >= 1 && |oks| == |rs|
    ensures var t := TrackAll(s, rs, oks);
            t.queue == [] && t.writes == s.writes + [Write(BatchKind(s.config), rs, oks[|rs| - 1])]
  {
    var n := |rs| - 1;
    var mid := s.(queue := rs[..n]);
    assert TrackAll(s, rs[..n], oks[..n]) == mid by {
      TrackBelowBatch(s, rs[..n], oks[..n]);
      assert s.queue + rs[..n] == rs[..n];
    }
    assert TrackAll(s, rs, oks) == Track(mid, rs[n], oks[n]);
    assert mid.queue + [rs[n]] == rs;
  }

  /** Records tracked with batching that never fill a batch are written by
      `disconnect`: one final write holding all of them, in tracking order,
      with the adapter method the configuration selects. */
  lemma DisconnectWritesPending(s: Sdk, rs: seq<TrackingData>, oks: seq<bool>, flushOk: bool, dbOk: bool)
    requires s.connected && s.config.hasDatabase && Batching(s.config)
    requires s.queue == [] && |oks| == |rs| && 0 < |rs| < s.config.batchSize.value
    ensures Disconnect(TrackAll(s, rs, oks), flushOk, dbOk).writes == s.writes + [Write(BatchKind(s.config), rs, flushOk)]
  {
    TrackBelowBatch(s, rs, oks);
    assert s.queue + rs == rs;
  }

  /** Tracking the records `rs` one after the other. */
  function TrackAll(s: Sdk, rs: seq<TrackingData>, oks: seq<bool>): Sdk
    requires |oks| == |rs|
    decreases |rs|
  {
    if |rs| == 0 then s else Track(TrackAll(s, rs[..|rs| - 1], oks[..|rs| - 1]), rs[|rs| - 1], oks[|rs| - 1])
  }

  /** Records that do not fill the batch only join the queue. */
  lemma {:induction false} TrackBelowBatch(s: Sdk, rs: seq<TrackingData>, oks: seq<bool>)
    requires s.connected && s.config.hasDatabase && Batching(s.config)
    requires |oks| == |rs| && |s.queue| + |rs| < s.config.batchSize.value
    ensures TrackAll(s, rs, oks) == s.(queue := s.queue + rs)
    decreases |rs|
  {
    if |rs| == 0 {
      assert s.queue + rs == s.queue;
    } else {
      var n := |rs| - 1;
      TrackBelowBatch(s, rs[..n], oks[..n]);
      assert s.queue + rs[..n] + [rs[n]] == s.queue + rs;
    }
  }

  /** Connecting twice with a batch interval leaves the first interval
      running without a handle: after `disconnect` it still fires. */
  lemma ReconnectLeaksTimer(s: Sdk, f1: PricingTable, f2: PricingTable, flushOk: bool)
    requires s.config.hasDatabase && Batching(s.config) && IntervalSet(s.config)
    requires LiveTimers(s) == 0
    ensures var t := Disconnect(Connect(Connect(s, f1, true), f2, true), flushOk, true);
            LiveTimers(t) == 1 && !t.timerHandle
  {
  }
}
