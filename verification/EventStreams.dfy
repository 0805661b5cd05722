/** The Redis Streams event bus: producers append, a consumer group of workers reads with
    '>', reclaims idle entries, dispatches to handlers and acknowledges.

    Workers run side by side and may die between any two Redis calls, so the bus is a state
    machine whose steps are single Redis calls and single handler runs.  Redis itself is
    modelled only by what the calls used here do to a stream and its consumer group. */
module EventStreams {
  import opened Common

  const MAX_RETRIES := 3

  datatype Domain = Shipments | Alerts | Payments | Tracking

  const DOMAINS: seq<Domain> := [Shipments, Alerts, Payments, Tracking]

  /** The fields of one entry.  The retry count is absent, or unreadable, as None. */
  datatype Data = Data(eventType: Option<string>, payload: string, retryMeta: Option<int>)

  /** Fields written by publish: no retry count among them. */
  function Published(eventType: string, payload: string): Data {
    Data(Some(eventType), payload, None)
  }

  function GetRetryCount(data: Data): int {
    data.retryMeta.GetOr(0)
  }

  function SetRetryCount(data: Data, count: int): Data {
    data.(retryMeta := Some(count))
  }

  predicate Registered(handlers: set<string>, data: Data) {
    data.eventType.GetOr("unknown") in handlers
  }

  /** True on success; an event without a handler counts as one. */
  predicate ProcessMessage(handlers: set<string>, data: Data, handlerOk: bool) {
    !Registered(handlers, data) || handlerOk
  }

  datatype DeadLetter = DeadLetter(origin: nat, data: Data)

  /** One stream with its consumer group and dead-letter stream.  An entry's id is its
      position in the log.  succeeded is history: ids some handler run has accepted. */
  datatype Stream = Stream(
    log: seq<Data>,
    lastDelivered: nat,
    pending: map<nat, nat>,
    acked: set<nat>,
    dead: seq<DeadLetter>,
    succeeded: set<nat>)

  datatype Message = Message(domain: Domain, id: nat, data: Data)

  /** Where a worker is in its loop: about to read, claiming from the listed domains,
      dispatching, about to copy to the dead-letter stream, or about to acknowledge. */
  datatype Stage = Reading | Claiming(next: seq<Domain>) | Dispatching | DeadLettering(m: Message) | Acking(m: Message)

  datatype Worker = Worker(stage: Stage, results: seq<Message>)

  datatype State = State(streams: map<Domain, Stream>, workers: map<nat, Worker>)

  datatype Config = Config(handlers: set<string>, batchSize: nat)

  /** ClaimError is a reclaim whose reply never came: ids are the entries Redis had reassigned
      by then, none when the call did not reach it.  For the other calls a lost reply is the
      call followed by RedisError. */
  datatype Event =
    | Append(domain: Domain, data: Data)
    | Boot(w: nat)
    | Read(w: nat)
    | Claim(w: nat, ids: seq<nat>)
    | ClaimError(w: nat, ids: seq<nat>)
    | Handle(w: nat, handlerOk: bool)
    | CopyToDead(w: nat)
    | Ack(w: nat)
    | Finish(w: nat)
    | RedisError(w: nat)
    | Crash(w: nat)

  // ---- Redis calls on one stream ----

  function Min(a: nat, b: nat): nat {
    if a < b then a else b
  }

  function MessagesAt(d: Domain, s: Stream, ids: seq<nat>): (ms: seq<Message>)
    requires forall k :: 0 <= k < |ids| ==> ids[k] < |s.log|
    ensures |ms| == |ids|
  {
    seq(|ids|, k requires 0 <= k < |ids| => Message(d, ids[k], s.log[ids[k]]))
  }

  function FreshIds(s: Stream, batchSize: nat): seq<nat>
    requires s.lastDelivered <= |s.log|
  {
    seq(Min(batchSize, |s.log| - s.lastDelivered), k => s.lastDelivered + k)
  }

  /** XREADGROUP with '>': the next undelivered entries become pending for the reader. */
  function Delivered(s: Stream, w: nat, batchSize: nat): Stream
    requires s.lastDelivered <= |s.log|
  {
    var ids := FreshIds(s, batchSize);
    s.(lastDelivered := s.lastDelivered + |ids|,
       pending := s.pending + map id | id in ids :: w)
  }

  /** XAUTOCLAIM: pending entries change owner. */
  function Claimed(s: Stream, w: nat, ids: seq<nat>): Stream {
    s.(pending := s.pending + map id | id in ids :: w)
  }

  /** XACK: removes a pending entry; anything else is left alone. */
  function Acked(s: Stream, id: nat): Stream {
    if id in s.pending then s.(pending := s.pending - {id}, acked := s.acked + {id}) else s
  }

  function Buried(s: Stream, m: Message): Stream {
    s.(dead := s.dead + [DeadLetter(m.id, m.data)])
  }

  // ---- Steps ----

  predicate WellFormed(s: State) {
    && (forall d: Domain :: d in s.streams && s.streams[d].lastDelivered <= |s.streams[d].log|)
  }

  predicate CanClaim(c: Config, s: State, w: nat, ids: seq<nat>)
    requires WellFormed(s)
  {
    && w in s.workers && s.workers[w].stage.Claiming? && s.workers[w].stage.next != []
    && |ids| <= c.batchSize
    && var stream := s.streams[s.workers[w].stage.next[0]];
       forall k :: 0 <= k < |ids| ==> ids[k] in stream.pending && ids[k] < |stream.log|
  }

  predicate Enabled(c: Config, s: State, e: Event)
    requires WellFormed(s)
  {
    match e
    case Append(_, _) => true
    case Boot(w) => w !in s.workers
    case Read(w) => w in s.workers && s.workers[w].stage.Reading?
    case Claim(w, ids) => CanClaim(c, s, w, ids)
    case ClaimError(w, ids) => CanClaim(c, s, w, ids)
    case Handle(w, _) => w in s.workers && s.workers[w].stage.Dispatching? && s.workers[w].results != []
    case CopyToDead(w) => w in s.workers && s.workers[w].stage.DeadLettering?
    case Ack(w) => w in s.workers && s.workers[w].stage.Acking?
    case Finish(w) => w in s.workers && s.workers[w].stage.Dispatching? && s.workers[w].results == []
    case RedisError(w) => w in s.workers
    case Crash(w) => w in s.workers
  }

  function Set(s: State, d: Domain, stream: Stream): State {
    s.(streams := s.streams[d := stream])
  }

  function At(s: State, w: nat, worker: Worker): State {
    s.(workers := s.workers[w := worker])
  }

  /** After the last domain has been claimed the worker starts dispatching. */
  function AfterClaim(next: seq<Domain>): Stage {
    if |next| <= 1 then Dispatching else Claiming(next[1..])
  }

  function OnHandle(c: Config, s: State, w: nat, handlerOk: bool): State
    requires WellFormed(s) && Enabled(c, s, Handle(w, handlerOk))
  {
    var m, rest := s.workers[w].results[0], s.workers[w].results[1..];
    var stream := s.streams[m.domain];
    if ProcessMessage(c.handlers, m.data, handlerOk) then
      var t := if Registered(c.handlers, m.data)
               then Set(s, m.domain, stream.(succeeded := stream.succeeded + {m.id})) else s;
      At(t, w, Worker(Acking(m), rest))
    else if GetRetryCount(m.data) >= MAX_RETRIES then
      At(s, w, Worker(DeadLettering(m), rest))
    else
      // the raised count is written to the worker's own copy, which is then let go
      At(s, w, Worker(Dispatching, rest))
  }

  function Step(c: Config, s: State, e: Event): State
    requires WellFormed(s) && Enabled(c, s, e)
  {
    match e
    case Append(d, data) =>
      Set(s, d, s.streams[d].(log := s.streams[d].log + [data]))
    case Boot(w) =>
      At(s, w, Worker(Reading, []))
    case Read(w) =>
      At(s.(streams := map d: Domain | d in s.streams :: Delivered(s.streams[d], w, c.batchSize)),
         w, Worker(Claiming(DOMAINS), ReadResults(c, s, DOMAINS)))
    case Claim(w, ids) =>
      var next, results := s.workers[w].stage.next, s.workers[w].results;
      At(Set(s, next[0], Claimed(s.streams[next[0]], w, ids)),
         w, Worker(AfterClaim(next), results + MessagesAt(next[0], s.streams[next[0]], ids)))
    case ClaimError(w, ids) =>
      var next, results := s.workers[w].stage.next, s.workers[w].results;
      At(Set(s, next[0], Claimed(s.streams[next[0]], w, ids)), w, Worker(AfterClaim(next), results))
    case Handle(w, handlerOk) =>
      OnHandle(c, s, w, handlerOk)
    case CopyToDead(w) =>
      var m := s.workers[w].stage.m;
      At(Set(s, m.domain, Buried(s.streams[m.domain], m)), w, s.workers[w].(stage := Acking(m)))
    case Ack(w) =>
      var m := s.workers[w].stage.m;
      At(Set(s, m.domain, Acked(s.streams[m.domain], m.id)), w, s.workers[w].(stage := Dispatching))
    case Finish(w) =>
      At(s, w, Worker(Reading, []))
    case RedisError(w) =>
      At(s, w, Worker(Reading, []))
    case Crash(w) =>
      s.(workers := s.workers - {w})
  }

  function ReadResults(c: Config, s: State, domains: seq<Domain>): seq<Message>
    requires WellFormed(s)
  {
    if domains == [] then []
    else MessagesAt(domains[0], s.streams[domains[0]], FreshIds(s.streams[domains[0]], c.batchSize))
         + ReadResults(c, s, domains[1..])
  }

  // ---- What every step keeps ----

  ghost predicate HasCopyInDead(s: Stream, id: nat)
    requires id < |s.log|
  {
    DeadLetter(id, s.log[id]) in s.dead
  }

  /** Why an entry may be acknowledged. */
  ghost predicate Justified(c: Config, s: Stream, id: nat)
    requires id < |s.log|
  {
    id in s.succeeded || !Registered(c.handlers, s.log[id]) || HasCopyInDead(s, id)
  }

  ghost predicate StreamInv(c: Config, s: Stream) {
    && s.lastDelivered <= |s.log|
    && (forall id: nat :: id < s.lastDelivered <==> id in s.pending || id in s.acked)
    && (forall id: nat :: !(id in s.pending && id in s.acked))
    && (forall id: nat :: id in s.acked ==> Justified(c, s, id))
    && (forall x :: x in s.dead ==>
          x.origin < |s.log| && x.data == s.log[x.origin] && GetRetryCount(x.data) >= MAX_RETRIES)
  }

  /** A message in a worker's hands is an exact copy of a delivered entry. */
  ghost predicate Holds(s: State, m: Message) {
    && m.domain in s.streams
    && m.id < s.streams[m.domain].lastDelivered <= |s.streams[m.domain].log|
    && m.data == s.streams[m.domain].log[m.id]
  }

  ghost predicate WorkerInv(c: Config, s: State, worker: Worker) {
    && (forall k :: 0 <= k < |worker.results| ==> Holds(s, worker.results[k]))
    && (worker.stage.Acking? ==>
          Holds(s, worker.stage.m) && Justified(c, s.streams[worker.stage.m.domain], worker.stage.m.id))
    && (worker.stage.DeadLettering? ==> Holds(s, worker.stage.m) && GetRetryCount(worker.stage.m.data) >= MAX_RETRIES)
  }

  ghost predicate Inv(c: Config, s: State) {
    && WellFormed(s)
    && (forall d: Domain :: StreamInv(c, s.streams[d]))
    && (forall w :: w in s.workers ==> WorkerInv(c, s, s.workers[w]))
  }

  const EMPTY_STREAM := Stream([], 0, map[], {}, [], {})

  const EMPTY_STREAMS := map[Shipments := EMPTY_STREAM, Alerts := EMPTY_STREAM, Payments := EMPTY_STREAM,
                             Tracking := EMPTY_STREAM]

  lemma NothingPublishedYet(d: Domain)
    ensures d in EMPTY_STREAMS && EMPTY_STREAMS[d] == EMPTY_STREAM
  {
    match d case Shipments => case Alerts => case Payments => case Tracking =>
  }

  /** No entries and no workers. */
  function Initial(): (s: State)
    ensures WellFormed(s) && s.workers == map[]
    ensures forall d: Domain :: s.streams[d] == EMPTY_STREAM
  {
    assert forall d: Domain :: d in EMPTY_STREAMS && EMPTY_STREAMS[d] == EMPTY_STREAM by {
      forall d: Domain ensures d in EMPTY_STREAMS && EMPTY_STREAMS[d] == EMPTY_STREAM {
        NothingPublishedYet(d);
      }
    }
    State(EMPTY_STREAMS, map[])
  }

  /** Nothing a worker relies on is taken back: entries stay, deliveries stay, reasons stay. */
  ghost predicate Extends(s: Stream, t: Stream) {
    && s.log <= t.log && s.lastDelivered <= t.lastDelivered
    && s.acked <= t.acked && s.succeeded <= t.succeeded && s.dead <= t.dead
  }

  lemma ExtendsKeepsWorker(c: Config, s: State, t: State, worker: Worker)
    requires WellFormed(s) && WellFormed(t)
    requires forall d: Domain :: Extends(s.streams[d], t.streams[d])
    requires WorkerInv(c, s, worker)
    ensures WorkerInv(c, t, worker)
  {
  }

  lemma DeliveryExtends(s: Stream, w: nat, batchSize: nat)
    requires s.lastDelivered <= |s.log|
    ensures Extends(s, Delivered(s, w, batchSize))
    ensures Delivered(s, w, batchSize).lastDelivered <= |Delivered(s, w, batchSize).log|
  {
  }

  lemma ReadResult(c: Config, s: State, w: nat)
    requires WellFormed(s) && Enabled(c, s, Read(w))
    ensures var t := Step(c, s, Read(w));
            && t.workers == s.workers[w := Worker(Claiming(DOMAINS), ReadResults(c, s, DOMAINS))]
            && forall d: Domain :: d in t.streams && t.streams[d] == Delivered(s.streams[d], w, c.batchSize)
  {
    hide ReadResults;
    hide Delivered;
  }

  lemma StepExtendsAt(c: Config, s: State, e: Event, d: Domain)
    requires WellFormed(s) && Enabled(c, s, e)
    ensures d in Step(c, s, e).streams && Extends(s.streams[d], Step(c, s, e).streams[d])
    ensures Step(c, s, e).streams[d].lastDelivered <= |Step(c, s, e).streams[d].log|
  {
    hide ReadResults;
    hide Delivered;
    hide MessagesAt;
    hide FreshIds;
    if e.Read? {
      ReadResult(c, s, e.w);
      DeliveryExtends(s.streams[d], e.w, c.batchSize);
    }
  }

  lemma StepExtends(c: Config, s: State, e: Event)
    requires WellFormed(s) && Enabled(c, s, e)
    ensures WellFormed(Step(c, s, e))
    ensures forall d: Domain :: Extends(s.streams[d], Step(c, s, e).streams[d])
  {
    var t := Step(c, s, e);
    forall d: Domain
      ensures d in t.streams && t.streams[d].lastDelivered <= |t.streams[d].log| && Extends(s.streams[d], t.streams[d])
    {
      StepExtendsAt(c, s, e, d);
    }
  }

  lemma DeliveryKeepsStream(c: Config, s: Stream, w: nat)
    requires StreamInv(c, s)
    ensures StreamInv(c, Delivered(s, w, c.batchSize))
  {
    var t, ids := Delivered(s, w, c.batchSize), FreshIds(s, c.batchSize);
    forall id: nat
      ensures id in t.pending <==> id in s.pending || s.lastDelivered <= id < t.lastDelivered
    {
      if s.lastDelivered <= id < t.lastDelivered {
        assert ids[id - s.lastDelivered] == id;
      }
    }
  }

  lemma ClaimKeepsStream(c: Config, s: Stream, w: nat, ids: seq<nat>)
    requires StreamInv(c, s)
    requires forall k :: 0 <= k < |ids| ==> ids[k] in s.pending
    ensures StreamInv(c, Claimed(s, w, ids))
  {
    assert Claimed(s, w, ids).pending.Keys == s.pending.Keys;
  }

  lemma AckKeepsStream(c: Config, s: Stream, id: nat)
    requires StreamInv(c, s)
    requires id < |s.log| && Justified(c, s, id)
    ensures StreamInv(c, Acked(s, id))
  {
  }

  lemma BurialKeepsStream(c: Config, s: Stream, m: Message)
    requires StreamInv(c, s)
    requires m.id < |s.log| && m.data == s.log[m.id] && GetRetryCount(m.data) >= MAX_RETRIES
    ensures StreamInv(c, Buried(s, m)) && HasCopyInDead(Buried(s, m), m.id)
  {
    assert DeadLetter(m.id, m.data) in Buried(s, m).dead;
  }

  lemma AppendKeepsStream(c: Config, s: Stream, data: Data)
    requires StreamInv(c, s)
    ensures StreamInv(c, s.(log := s.log + [data]))
  {
  }

  lemma SuccessKeepsStream(c: Config, s: Stream, id: nat)
    requires StreamInv(c, s)
    ensures StreamInv(c, s.(succeeded := s.succeeded + {id}))
  {
  }

  lemma StepKeepsStreams(c: Config, s: State, e: Event, d: Domain)
    requires Inv(c, s) && Enabled(c, s, e) && WellFormed(Step(c, s, e))
    ensures StreamInv(c, Step(c, s, e).streams[d])
  {
    hide StreamInv;
    var stream := s.streams[d];
    match e
    case Append(_, data) => AppendKeepsStream(c, stream, data);
    case Read(w) => DeliveryKeepsStream(c, stream, w);
    case Claim(w, ids) =>
      if d == s.workers[w].stage.next[0] {
        ClaimKeepsStream(c, stream, w, ids);
      }
    case ClaimError(w, ids) =>
      if d == s.workers[w].stage.next[0] {
        ClaimKeepsStream(c, stream, w, ids);
      }
    case Handle(w, _) => SuccessKeepsStream(c, stream, s.workers[w].results[0].id);
    case CopyToDead(w) =>
      if d == s.workers[w].stage.m.domain {
        BurialKeepsStream(c, stream, s.workers[w].stage.m);
      }
    case Ack(w) =>
      if d == s.workers[w].stage.m.domain {
        AckKeepsStream(c, stream, s.workers[w].stage.m.id);
      }
    case _ =>
  }

  lemma ExtendedWorker(c: Config, s: State, e: Event, w: nat)
    requires Inv(c, s) && Enabled(c, s, e) && WellFormed(Step(c, s, e)) && w in s.workers
    ensures WorkerInv(c, Step(c, s, e), s.workers[w])
  {
    StepExtends(c, s, e);
    hide Step;
    hide WorkerInv;
    ExtendsKeepsWorker(c, s, Step(c, s, e), s.workers[w]);
  }

  /** Workers that do not act only see the streams extended. */
  lemma StepKeepsBystander(c: Config, s: State, e: Event, w: nat)
    requires Inv(c, s) && Enabled(c, s, e) && WellFormed(Step(c, s, e))
    requires w in Step(c, s, e).workers && (e.Append? || e.w != w)
    ensures WorkerInv(c, Step(c, s, e), Step(c, s, e).workers[w])
  {
    assert w in s.workers && Step(c, s, e).workers[w] == s.workers[w] by {
      hide Delivered;
      hide ReadResults;
      hide MessagesAt;
    }
    ExtendedWorker(c, s, e, w);
  }

  lemma StepKeepsActor(c: Config, s: State, e: Event)
    requires Inv(c, s) && Enabled(c, s, e) && WellFormed(Step(c, s, e))
    requires !e.Append? && e.w in Step(c, s, e).workers
    ensures WorkerInv(c, Step(c, s, e), Step(c, s, e).workers[e.w])
  {
    hide Delivered;
    hide ReadResults;
    hide MessagesAt;
    hide FreshIds;
    hide StreamInv;
    match e
    case Read(w) => ReadKeepsReader(c, s, w);
    case Claim(w, ids) => ClaimKeepsClaimer(c, s, w, ids);
    case Handle(w, handlerOk) => HandleKeepsDispatcher(c, s, w, handlerOk);
    case CopyToDead(w) => BurialKeepsWorker(c, s, w);
    case ClaimError(w, _) => ExtendedWorker(c, s, e, w);
    case Ack(w) => ExtendedWorker(c, s, e, w);
    case _ =>
  }

  lemma ClaimKeepsClaimer(c: Config, s: State, w: nat, ids: seq<nat>)
    requires Inv(c, s) && Enabled(c, s, Claim(w, ids)) && WellFormed(Step(c, s, Claim(w, ids)))
    ensures WorkerInv(c, Step(c, s, Claim(w, ids)), Step(c, s, Claim(w, ids)).workers[w])
  {
    var t := Step(c, s, Claim(w, ids));
    StepExtends(c, s, Claim(w, ids));
    ExtendsKeepsWorker(c, s, t, s.workers[w]);
    var d := s.workers[w].stage.next[0];
    var claimed := MessagesAt(d, s.streams[d], ids);
    assert forall k :: 0 <= k < |ids| ==> ids[k] < s.streams[d].lastDelivered;
    assert AllHeld(t, claimed);
    assert AllHeld(t, s.workers[w].results + claimed);
  }

  lemma HandleKeepsDispatcher(c: Config, s: State, w: nat, handlerOk: bool)
    requires Inv(c, s) && Enabled(c, s, Handle(w, handlerOk)) && WellFormed(Step(c, s, Handle(w, handlerOk)))
    ensures WorkerInv(c, Step(c, s, Handle(w, handlerOk)), Step(c, s, Handle(w, handlerOk)).workers[w])
  {
    var t := Step(c, s, Handle(w, handlerOk));
    StepExtends(c, s, Handle(w, handlerOk));
    ExtendsKeepsWorker(c, s, t, s.workers[w]);
    assert AllHeld(t, s.workers[w].results[1..]);
    assert Holds(t, s.workers[w].results[0]);
  }

  lemma BurialKeepsWorker(c: Config, s: State, w: nat)
    requires Inv(c, s) && Enabled(c, s, CopyToDead(w)) && WellFormed(Step(c, s, CopyToDead(w)))
    ensures WorkerInv(c, Step(c, s, CopyToDead(w)), Step(c, s, CopyToDead(w)).workers[w])
  {
    var m := s.workers[w].stage.m;
    StepExtends(c, s, CopyToDead(w));
    ExtendsKeepsWorker(c, s, Step(c, s, CopyToDead(w)), s.workers[w]);
    BurialKeepsStream(c, s.streams[m.domain], m);
  }

  ghost predicate AllHeld(s: State, ms: seq<Message>) {
    forall k :: 0 <= k < |ms| ==> Holds(s, ms[k])
  }

  lemma ReadKeepsReader(c: Config, s: State, w: nat)
    requires Inv(c, s) && Enabled(c, s, Read(w)) && WellFormed(Step(c, s, Read(w)))
    ensures WorkerInv(c, Step(c, s, Read(w)), Step(c, s, Read(w)).workers[w])
  {
    ReadResultsHeld(c, s, w, DOMAINS);
    hide ReadResults;
    assert Step(c, s, Read(w)).workers[w] == Worker(Claiming(DOMAINS), ReadResults(c, s, DOMAINS));
  }

  lemma FreshMessagesHeld(c: Config, s: State, w: nat, d: Domain)
    requires Inv(c, s) && Enabled(c, s, Read(w))
    ensures AllHeld(Step(c, s, Read(w)), MessagesAt(d, s.streams[d], FreshIds(s.streams[d], c.batchSize)))
  {
    var t := Step(c, s, Read(w));
    assert t.streams[d] == Delivered(s.streams[d], w, c.batchSize);
  }

  lemma {:induction false} ReadResultsHeld(c: Config, s: State, w: nat, domains: seq<Domain>)
    requires Inv(c, s) && Enabled(c, s, Read(w))
    ensures AllHeld(Step(c, s, Read(w)), ReadResults(c, s, domains))
  {
    if domains != [] {
      FreshMessagesHeld(c, s, w, domains[0]);
      ReadResultsHeld(c, s, w, domains[1..]);
    }
  }

  lemma StepKeepsInv(c: Config, s: State, e: Event)
    requires Inv(c, s) && Enabled(c, s, e)
    ensures Inv(c, Step(c, s, e))
  {
    var t := Step(c, s, e);
    StepExtends(c, s, e);
    forall d: Domain ensures StreamInv(c, t.streams[d]) {
      StepKeepsStreams(c, s, e, d);
    }
    forall w | w in t.workers ensures WorkerInv(c, t, t.workers[w]) {
      if !e.Append? && e.w == w {
        StepKeepsActor(c, s, e);
      } else {
        StepKeepsBystander(c, s, e, w);
      }
    }
  }

  // ---- Runs ----

  /** The events of es are enabled one after the other: any interleaving of appends, workers,
      errors and crashes. */
  predicate IsRun(c: Config, s: State, es: seq<Event>)
    requires WellFormed(s)
    decreases |es|
  {
    es == [] || (Enabled(c, s, es[0]) && (StepExtends(c, s, es[0]); IsRun(c, Step(c, s, es[0]), es[1..])))
  }

  function Run(c: Config, s: State, es: seq<Event>): (t: State)
    requires WellFormed(s) && IsRun(c, s, es)
    ensures WellFormed(t)
    decreases |es|
  {
    if es == [] then s
    else
      StepExtends(c, s, es[0]);
      Run(c, Step(c, s, es[0]), es[1..])
  }

  /** The invariant holds wherever a run leads, and nothing about the run is assumed but that
      each event was possible when it happened. */
  lemma {:induction false} RunKeepsInv(c: Config, s: State, es: seq<Event>)
    requires Inv(c, s) && IsRun(c, s, es)
    ensures Inv(c, Run(c, s, es))
    decreases |es|
  {
    if es != [] {
      StepKeepsInv(c, s, es[0]);
      RunKeepsInv(c, Step(c, s, es[0]), es[1..]);
    }
  }

  lemma {:induction false} RunConcat(c: Config, s: State, es: seq<Event>, fs: seq<Event>)
    requires WellFormed(s) && IsRun(c, s, es) && IsRun(c, Run(c, s, es), fs)
    ensures IsRun(c, s, es + fs) && Run(c, s, es + fs) == Run(c, Run(c, s, es), fs)
    decreases |es|
  {
    hide Step;
    hide Enabled;
    if es == [] {
      assert es + fs == fs;
    } else {
      StepExtends(c, s, es[0]);
      RunConcat(c, Step(c, s, es[0]), es[1..], fs);
      assert (es + fs)[1..] == es[1..] + fs;
    }
  }

  /** The run es takes s to t. */
  ghost predicate Reaches(c: Config, s: State, es: seq<Event>, t: State) {
    WellFormed(s) && IsRun(c, s, es) && Run(c, s, es) == t
  }

  lemma ReachesConcat(c: Config, s: State, es: seq<Event>, t: State, fs: seq<Event>, u: State)
    requires Reaches(c, s, es, t) && Reaches(c, t, fs, u)
    ensures Reaches(c, s, es + fs, u)
  {
    RunConcat(c, s, es, fs);
  }

  lemma Then(c: Config, s: State, es: seq<Event>, t: State, e: Event) returns (u: State)
    requires Reaches(c, s, es, t) && Inv(c, t) && Enabled(c, t, e)
    ensures u == Step(c, t, e) && Inv(c, u) && Reaches(c, s, es + [e], u)
  {
    u := Step(c, t, e);
    StepKeepsInv(c, t, e);
    assert [e][1..] == [];
    assert IsRun(c, u, []);
    assert Reaches(c, t, [e], u);
    ReachesConcat(c, s, es, t, [e], u);
  }

  lemma Reach1(c: Config, s: State, e: Event, t: State)
    requires Inv(c, s) && Enabled(c, s, e) && t == Step(c, s, e)
    ensures Reaches(c, s, [e], t) && Inv(c, t)
  {
    assert Reaches(c, s, [], s);
    var _ := Then(c, s, [], s, e);
    assert [] + [e] == [e];
  }

  lemma Reach2(c: Config, s: State, e: Event, t: State, f: Event, u: State)
    requires Inv(c, s) && Enabled(c, s, e) && t == Step(c, s, e)
    requires Inv(c, t) && Enabled(c, t, f) && u == Step(c, t, f)
    ensures Reaches(c, s, [e, f], u) && Inv(c, u)
  {
    Reach1(c, s, e, t);
    var _ := Then(c, s, [e], t, f);
    assert [e] + [f] == [e, f];
  }

  lemma Reach3(c: Config, s: State, e: Event, t: State, f: Event, u: State, g: Event, v: State)
    requires Inv(c, s) && Enabled(c, s, e) && t == Step(c, s, e)
    requires Inv(c, t) && Enabled(c, t, f) && u == Step(c, t, f)
    requires Inv(c, u) && Enabled(c, u, g) && v == Step(c, u, g)
    ensures Reaches(c, s, [e, f, g], v) && Inv(c, v)
  {
    Reach2(c, s, e, t, f, u);
    var _ := Then(c, s, [e, f], u, g);
    assert [e, f] + [g] == [e, f, g];
  }

  lemma InitialInv(c: Config)
    ensures Inv(c, Initial())
  {
  }

  /** At-least-once delivery.  In every reachable state each entry is exactly one of
      undelivered, pending and acknowledged, and an acknowledged entry has been accepted by
      its handler, has no handler, or has a copy in the dead-letter stream. */
  lemma AtLeastOnce(c: Config, es: seq<Event>, d: Domain, id: nat)
    requires IsRun(c, Initial(), es)
    requires id < |Run(c, Initial(), es).streams[d].log|
    ensures var s := Run(c, Initial(), es).streams[d];
            && (if id >= s.lastDelivered then id !in s.pending && id !in s.acked
                else (id in s.pending) != (id in s.acked))
            && (id in s.acked ==> Justified(c, s, id))
  {
    InitialInv(c);
    RunKeepsInv(c, Initial(), es);
  }

  /** Entries are never changed or lost, and acknowledgements never undone. */
  lemma {:induction false} RunExtends(c: Config, s: State, es: seq<Event>)
    requires WellFormed(s) && IsRun(c, s, es)
    ensures forall d: Domain :: Extends(s.streams[d], Run(c, s, es).streams[d])
    decreases |es|
  {
    if es != [] {
      StepExtends(c, s, es[0]);
      RunExtends(c, Step(c, s, es[0]), es[1..]);
    }
  }

  /** Reading with '>' never redelivers: what a read returns was neither pending nor
      acknowledged before, and is pending for this reader afterwards. */
  lemma ReadIsFresh(c: Config, s: State, w: nat, d: Domain, id: nat)
    requires Inv(c, s) && Enabled(c, s, Read(w))
    requires id in FreshIds(s.streams[d], c.batchSize)
    ensures id !in s.streams[d].pending && id !in s.streams[d].acked
    ensures var t := Step(c, s, Read(w)).streams[d]; id in t.pending && t.pending[id] == w
  {
    assert Step(c, s, Read(w)).streams[d] == Delivered(s.streams[d], w, c.batchSize);
  }

  // ---- What a worker is handed ----

  /** Messages of one domain stand in log order, so none stands twice. */
  predicate InLogOrder(ms: seq<Message>) {
    forall i, j :: 0 <= i < j < |ms| && ms[i].domain == ms[j].domain ==> ms[i].id < ms[j].id
  }

  predicate DistinctDomains(domains: seq<Domain>) {
    forall i, j :: 0 <= i < j < |domains| ==> domains[i] != domains[j]
  }

  lemma FreshMessages(d: Domain, s: Stream, batchSize: nat)
    requires s.lastDelivered <= |s.log|
    ensures var ms := MessagesAt(d, s, FreshIds(s, batchSize));
            && InLogOrder(ms)
            && forall m :: m in ms <==>
                 && m.domain == d && s.lastDelivered <= m.id < |s.log| && m.id - s.lastDelivered < batchSize
                 && m.data == s.log[m.id]
  {
    var ids := FreshIds(s, batchSize);
    var ms := MessagesAt(d, s, ids);
    forall m: Message | m.domain == d && s.lastDelivered <= m.id < |s.log| && m.id - s.lastDelivered < batchSize
               && m.data == s.log[m.id]
      ensures m in ms
    {
      assert ms[m.id - s.lastDelivered] == m;
    }
  }

  lemma {:induction false} ReadResultsExact(c: Config, s: State, domains: seq<Domain>)
    requires WellFormed(s) && DistinctDomains(domains)
    ensures InLogOrder(ReadResults(c, s, domains))
    ensures forall m :: m in ReadResults(c, s, domains) <==>
              && m.domain in domains
              && var stream := s.streams[m.domain];
                 && stream.lastDelivered <= m.id < |stream.log| && m.id - stream.lastDelivered < c.batchSize
                 && m.data == stream.log[m.id]
  {
    if domains != [] {
      var d, rest := domains[0], domains[1..];
      FreshMessages(d, s.streams[d], c.batchSize);
      ReadResultsExact(c, s, rest);
      hide MessagesAt;
      hide FreshIds;
      var a, b := MessagesAt(d, s.streams[d], FreshIds(s.streams[d], c.batchSize)), ReadResults(c, s, rest);
      assert ReadResults(c, s, domains) == a + b;
      assert forall i :: 0 <= i < |a| ==> a[i] in a;
      assert forall i :: 0 <= i < |b| ==> b[i] in b && b[i].domain != d;
    }
  }

  lemma AllDomains(d: Domain)
    ensures d in DOMAINS
  {
    match d
    case Shipments => assert DOMAINS[0] == d;
    case Alerts => assert DOMAINS[1] == d;
    case Payments => assert DOMAINS[2] == d;
    case Tracking => assert DOMAINS[3] == d;
  }

  lemma HandedOver(c: Config, s: State, w: nat, d: Domain, id: nat)
    requires Inv(c, s) && Enabled(c, s, Read(w))
    ensures var t := Step(c, s, Read(w));
            && d in t.streams && w in t.workers
            && (id in t.streams[d].pending && id !in s.streams[d].pending
                <==> id < |s.streams[d].log| && Message(d, id, s.streams[d].log[id]) in t.workers[w].results)
  {
    AllDomains(d);
    ReadResult(c, s, w);
    ReadResultsExact(c, s, DOMAINS);
    DeliveredExactly(c, s.streams[d], w, id);
    hide ReadResults;
    hide Step;
    hide Inv;
    hide Delivered;
    hide InLogOrder;
    if id < |s.streams[d].log| {
      var m := Message(d, id, s.streams[d].log[id]);
      assert m.domain == d;
    }
  }

  /** A reader is handed exactly the entries its read made pending: in every domain the next
      ones of the log, up to the batch size, once each and in log order, now pending for it. */
  lemma ReaderGetsWhatIsPending(c: Config, s: State, w: nat)
    requires Inv(c, s) && w in s.workers && s.workers[w].stage.Reading?
    ensures Enabled(c, s, Read(w))
    ensures var t := Step(c, s, Read(w));
            && t.workers.Keys == s.workers.Keys && w in t.workers && InLogOrder(t.workers[w].results)
            && t.workers[w].stage == Claiming([Shipments, Alerts, Payments, Tracking])
            && (forall d: Domain, id: nat :: d in t.streams &&
                  (id in t.streams[d].pending && id !in s.streams[d].pending
                   <==> id < |s.streams[d].log| && Message(d, id, s.streams[d].log[id]) in t.workers[w].results))
            && (forall m :: m in t.workers[w].results ==>
                  m.id < |s.streams[m.domain].log| && m.data == s.streams[m.domain].log[m.id])
  {
    var t := Step(c, s, Read(w));
    ReadResult(c, s, w);
    ReadResultsExact(c, s, DOMAINS);
    forall d: Domain, id: nat
      ensures d in t.streams
      ensures id in t.streams[d].pending && id !in s.streams[d].pending
              <==> id < |s.streams[d].log| && Message(d, id, s.streams[d].log[id]) in t.workers[w].results
    {
      HandedOver(c, s, w, d, id);
    }
    hide ReadResults;
    hide Step;
    hide Inv;
    hide Delivered;
    hide InLogOrder;
  }

  lemma DeliveredExactly(c: Config, s: Stream, w: nat, id: nat)
    requires StreamInv(c, s)
    ensures id in Delivered(s, w, c.batchSize).pending && id !in s.pending
            <==> s.lastDelivered <= id < |s.log| && id - s.lastDelivered < c.batchSize
  {
    var ids := FreshIds(s, c.batchSize);
    if s.lastDelivered <= id < |s.log| && id - s.lastDelivered < c.batchSize {
      assert ids[id - s.lastDelivered] == id;
    }
  }

  /** What a read does to each stream: it moves the mark on by the batch size, or to the end. */
  lemma ReadMovesTheMark(c: Config, s: State, w: nat, d: Domain)
    requires Inv(c, s) && Enabled(c, s, Read(w))
    ensures var u, t := s.streams[d], Step(c, s, Read(w)).streams[d];
            && (if |u.log| - u.lastDelivered <= c.batchSize then t.lastDelivered == |u.log|
                else t.lastDelivered == u.lastDelivered + c.batchSize)
            && t.log == u.log && t.acked == u.acked && t.dead == u.dead && t.succeeded == u.succeeded
            && (forall id :: id in u.pending ==> id in t.pending && t.pending[id] == u.pending[id])
            && (forall id :: id in t.pending && id !in u.pending ==> t.pending[id] == w)
  {
    ReadResult(c, s, w);
    var t := Step(c, s, Read(w)).streams[d];
    hide Step;
    forall id | id in s.streams[d].pending ensures id in t.pending && t.pending[id] == s.streams[d].pending[id] {
      assert id < s.streams[d].lastDelivered;
    }
  }

  /** A reclaim hands over exactly the reclaimed entries, in the order Redis lists them: they
      stay pending, now for the claimer, and the claimer moves on to the next domain.  With the
      reply lost it hands over nothing. */
  lemma ClaimHandsOver(c: Config, s: State, w: nat, ids: seq<nat>, answered: bool)
    requires Inv(c, s) && w in s.workers && s.workers[w].stage.Claiming? && s.workers[w].stage.next != []
    requires |ids| <= c.batchSize
    requires forall k :: 0 <= k < |ids| ==> ids[k] in s.streams[s.workers[w].stage.next[0]].pending
    ensures var e := if answered then Claim(w, ids) else ClaimError(w, ids);
            Enabled(c, s, e)
            && var t := Step(c, s, e);
               var next, old_ := s.workers[w].stage.next, s.workers[w].results;
               var u := s.streams[next[0]];
               && w in t.workers && next[0] in t.streams
               && (forall d: Domain :: d != next[0] ==> d in t.streams && t.streams[d] == s.streams[d])
               && t.streams[next[0]] == u.(pending := t.streams[next[0]].pending)
               && t.streams[next[0]].pending.Keys == u.pending.Keys
               && (forall id :: id in u.pending ==>
                     t.streams[next[0]].pending[id] == if id in ids then w else u.pending[id])
               && t.workers[w].stage == (if |next| == 1 then Dispatching else Claiming(next[1..]))
               && |t.workers[w].results| == |old_| + (if answered then |ids| else 0)
               && t.workers[w].results[..|old_|] == old_
               && (answered ==> forall k :: 0 <= k < |ids| ==>
                     t.workers[w].results[|old_| + k] == Message(next[0], ids[k], u.log[ids[k]]))
  {
    var stream := s.streams[s.workers[w].stage.next[0]];
    assert StreamInv(c, stream);
    assert forall k :: 0 <= k < |ids| ==> ids[k] < |stream.log|;
    hide StreamInv;
    hide WorkerInv;
  }

  /** Runs leave nothing out: whatever state the bus is in, an entry may be published, a new
      worker may start, and any worker may lose its connection or die. */
  lemma AnythingMayHappen(c: Config, s: State, w: nat, d: Domain, data: Data)
    requires WellFormed(s)
    ensures Enabled(c, s, Append(d, data))
    ensures w !in s.workers ==> Enabled(c, s, Boot(w))
    ensures w in s.workers ==> Enabled(c, s, Crash(w)) && Enabled(c, s, RedisError(w))
    ensures w in s.workers && s.workers[w] == Worker(Dispatching, []) ==> Enabled(c, s, Finish(w))
  {
  }

  /** Every step leaves the other workers alone; an interrupted or finished pass leaves the
      streams alone too, so what the worker held stays pending, and it starts afresh. */
  lemma OthersAreLeftAlone(c: Config, s: State, e: Event)
    requires Inv(c, s) && Enabled(c, s, e)
    ensures var t := Step(c, s, e);
            && (forall v :: v in s.workers && (e.Append? || v != e.w) ==>
                  v in t.workers && t.workers[v] == s.workers[v])
            && (e.Boot? || e.Finish? || e.RedisError? ==> e.w in t.workers && t.workers[e.w] == Worker(Reading, []))
            && (e.Crash? ==> e.w !in t.workers)
            && (e.Boot? || e.Finish? || e.RedisError? || e.Crash? ==> t.streams == s.streams)
  {
    hide ReadResults;
    hide Delivered;
    hide StreamInv;
    hide WorkerInv;
  }

  /** An id joins the accepted ones only when a worker's registered handler accepts it. */
  lemma AcceptedOnlyByHandlers(c: Config, s: State, e: Event, d: Domain, id: nat)
    requires Inv(c, s) && Enabled(c, s, e) && id !in s.streams[d].succeeded
    ensures d in Step(c, s, e).streams
    ensures id in Step(c, s, e).streams[d].succeeded <==>
              && e.Handle? && e.handlerOk
              && s.workers[e.w].results[0] == Message(d, id, s.workers[e.w].results[0].data)
              && Registered(c.handlers, s.workers[e.w].results[0].data)
  {
    StepExtendsAt(c, s, e, d);
  }

  // ---- The dead-letter stream ----

  /** A failed message is sent to the dead-letter stream exactly when the count stored in
      the log, not the number of failed attempts, has reached the limit. */
  lemma DeadLetteredIffStoredCount(c: Config, s: State, w: nat, handlerOk: bool)
    requires Inv(c, s) && Enabled(c, s, Handle(w, handlerOk))
    ensures var m := s.workers[w].results[0];
            var stored := s.streams[m.domain].log[m.id];
            Step(c, s, Handle(w, handlerOk)).workers[w].stage.DeadLettering?
            <==> Registered(c.handlers, stored) && !handlerOk && GetRetryCount(stored) >= MAX_RETRIES
  {
    assert Holds(s, s.workers[w].results[0]);
  }

  predicate IsPublished(data: Data) {
    data.eventType.Some? && data == Published(data.eventType.value, data.payload)
  }

  predicate OnlyPublishes(es: seq<Event>) {
    forall k :: 0 <= k < |es| && es[k].Append? ==> IsPublished(es[k].data)
  }

  ghost predicate AllPublished(s: State) {
    WellFormed(s) && forall d: Domain, id: nat :: id < |s.streams[d].log| ==> IsPublished(s.streams[d].log[id])
  }

  lemma {:induction false} PublishedStays(c: Config, s: State, es: seq<Event>)
    requires AllPublished(s) && IsRun(c, s, es) && OnlyPublishes(es)
    ensures AllPublished(Run(c, s, es))
    decreases |es|
  {
    if es != [] {
      PublishedStep(c, s, es[0]);
      PublishedStays(c, Step(c, s, es[0]), es[1..]);
    }
  }

  lemma PublishedStep(c: Config, s: State, e: Event)
    requires AllPublished(s) && Enabled(c, s, e)
    requires e.Append? ==> IsPublished(e.data)
    ensures AllPublished(Step(c, s, e))
  {
    StepExtends(c, s, e);
  }

  /** When every entry was written by publish, nothing ever reaches a dead-letter stream,
      however often a handler fails. */
  lemma DeadLetterStreamStaysEmpty(c: Config, es: seq<Event>, d: Domain)
    requires IsRun(c, Initial(), es) && OnlyPublishes(es)
    ensures Run(c, Initial(), es).streams[d].dead == []
  {
    var s := Run(c, Initial(), es).streams[d];
    assert s.dead == [] || s.dead[0] in s.dead;
    InitialInv(c);
    RunKeepsInv(c, Initial(), es);
    PublishedStays(c, Initial(), es);
  }

  /** So a published entry is acknowledged only if its handler accepted it or none exists:
      one that keeps failing is never taken off the queue. */
  lemma FailingEntryIsNeverAcked(c: Config, es: seq<Event>, d: Domain, id: nat)
    requires IsRun(c, Initial(), es) && OnlyPublishes(es)
    requires id < |Run(c, Initial(), es).streams[d].log|
    ensures var s := Run(c, Initial(), es).streams[d];
            id in s.acked ==> id in s.succeeded || !Registered(c.handlers, s.log[id])
  {
    AtLeastOnce(c, es, d, id);
    DeadLetterStreamStaysEmpty(c, es, d);
  }

  /** One delivered entry is pending, nothing else is left to read; worker is worker 0. */
  ghost predicate Sick(c: Config, s: State, data: Data, worker: Worker) {
    && Inv(c, s) && 0 in s.workers && s.workers[0] == worker
    && (forall d: Domain :: s.streams[d].lastDelivered == |s.streams[d].log| && s.streams[d].dead == [])
    && s.streams[Shipments].log == [data] && 0 in s.streams[Shipments].pending
  }

  lemma {:induction false} NothingFresh(c: Config, s: State, domains: seq<Domain>)
    requires WellFormed(s)
    requires forall d: Domain :: s.streams[d].lastDelivered == |s.streams[d].log|
    ensures ReadResults(c, s, domains) == []
  {
    if domains != [] {
      NothingFresh(c, s, domains[1..]);
    }
  }

  lemma SickRead(c: Config, s: State, data: Data)
    requires Sick(c, s, data, Worker(Reading, []))
    ensures Enabled(c, s, Read(0)) && Sick(c, Step(c, s, Read(0)), data, Worker(Claiming(DOMAINS), []))
  {
    NothingFresh(c, s, DOMAINS);
    StepKeepsInv(c, s, Read(0));
    var t := Step(c, s, Read(0));
    hide ReadResults;
    assert t.workers[0] == Worker(Claiming(DOMAINS), []);
    assert forall d: Domain :: t.streams[d] == Delivered(s.streams[d], 0, c.batchSize);
  }

  lemma SickClaim(c: Config, s: State, data: Data, next: seq<Domain>, results: seq<Message>, ids: seq<nat>)
    requires Sick(c, s, data, Worker(Claiming(next), results)) && next != []
    requires ids == [] || (ids == [0] && next[0] == Shipments && c.batchSize >= 1)
    ensures Enabled(c, s, Claim(0, ids))
    ensures Sick(c, Step(c, s, Claim(0, ids)), data,
                 Worker(AfterClaim(next), results + if ids == [] then [] else [Message(Shipments, 0, data)]))
  {
    StepKeepsInv(c, s, Claim(0, ids));
  }

  lemma SickHandle(c: Config, s: State, data: Data)
    requires Sick(c, s, data, Worker(Dispatching, [Message(Shipments, 0, data)]))
    requires Registered(c.handlers, data) && GetRetryCount(data) < MAX_RETRIES
    ensures Enabled(c, s, Handle(0, false)) && Sick(c, Step(c, s, Handle(0, false)), data, Worker(Dispatching, []))
  {
    StepKeepsInv(c, s, Handle(0, false));
  }

  lemma SickFinish(c: Config, s: State, data: Data)
    requires Sick(c, s, data, Worker(Dispatching, []))
    ensures Enabled(c, s, Finish(0)) && Sick(c, Step(c, s, Finish(0)), data, Worker(Reading, []))
  {
    StepKeepsInv(c, s, Finish(0));
  }

  /** An entry is read by a worker that dies, then reclaimed again and again by another,
      whose handler fails every time. */
  function FailingRun(data: Data, passes: nat): seq<Event> {
    if passes == 0 then [] + [Append(Shipments, data)] + [Boot(0)] + [Read(0)] + [Crash(0)] + [Boot(0)]
    else FailingRun(data, passes - 1) + [Read(0)] + [Claim(0, [0])] + [Claim(0, [])] + [Claim(0, [])] + [Claim(0, [])]
         + [Handle(0, false)] + [Finish(0)]
  }

  /** Only the shipments stream has been touched so far. */
  ghost predicate Early(s: State, shipments: Stream, workers: map<nat, Worker>) {
    && s.workers == workers && WellFormed(s)
    && s.streams[Shipments] == shipments
    && forall d: Domain :: d != Shipments ==> s.streams[d] == EMPTY_STREAM
  }

  lemma EarlyAppend(c: Config, s: State, data: Data)
    requires Early(s, EMPTY_STREAM, map[])
    ensures Early(Step(c, s, Append(Shipments, data)), EMPTY_STREAM.(log := [data]), map[])
  {
  }

  lemma EarlyRead(c: Config, s: State, data: Data)
    requires Early(s, EMPTY_STREAM.(log := [data]), map[0 := Worker(Reading, [])]) && c.batchSize >= 1
    ensures Enabled(c, s, Read(0))
    ensures var t := Step(c, s, Read(0));
            && t.workers.Keys == {0}
            && Early(t, Stream([data], 1, map[0 := 0], {}, [], {}), t.workers)
  {
    hide ReadResults;
    var t := Step(c, s, Read(0));
    ReadResult(c, s, 0);
    hide Step;
    assert FreshIds(s.streams[Shipments], c.batchSize) == [0];
    assert t.streams[Shipments] == Stream([data], 1, map[0 := 0], {}, [], {});
    forall d: Domain | d != Shipments ensures t.streams[d] == EMPTY_STREAM {
      assert FreshIds(s.streams[d], c.batchSize) == [];
    }
  }

  lemma EarlyCrash(c: Config, s: State, shipments: Stream)
    requires Early(s, shipments, s.workers) && s.workers.Keys == {0}
    ensures Enabled(c, s, Crash(0)) && Early(Step(c, s, Crash(0)), shipments, map[])
  {
  }

  lemma EarlyBoot(c: Config, s: State, shipments: Stream)
    requires Early(s, shipments, map[])
    ensures Enabled(c, s, Boot(0)) && Early(Step(c, s, Boot(0)), shipments, map[0 := Worker(Reading, [])])
  {
  }

  lemma FirstAppend(c: Config, data: Data) returns (t: State)
    ensures Reaches(c, Initial(), [] + [Append(Shipments, data)] + [Boot(0)], t) && Inv(c, t)
    ensures Early(t, EMPTY_STREAM.(log := [data]), map[0 := Worker(Reading, [])])
  {
    InitialInv(c);
    assert Reaches(c, Initial(), [], Initial()) && Early(Initial(), EMPTY_STREAM, map[]);
    hide Step;
    hide Inv;
    hide Reaches;
    EarlyAppend(c, Initial(), data);
    t := Then(c, Initial(), [], Initial(), Append(Shipments, data));
    EarlyBoot(c, t, EMPTY_STREAM.(log := [data]));
    t := Then(c, Initial(), [] + [Append(Shipments, data)], t, Boot(0));
  }

  lemma FirstDelivery(c: Config, data: Data) returns (t: State)
    requires c.batchSize >= 1
    ensures Reaches(c, Initial(), FailingRun(data, 0), t) && Sick(c, t, data, Worker(Reading, []))
  {
    var delivered := Stream([data], 1, map[0 := 0], {}, [], {});
    hide Step;
    hide Inv;
    hide Reaches;
    var es := [] + [Append(Shipments, data)] + [Boot(0)];
    var booted := FirstAppend(c, data);
    EarlyRead(c, booted, data);
    var read := Then(c, Initial(), es, booted, Read(0));
    EarlyCrash(c, read, delivered);
    var crashed := Then(c, Initial(), es + [Read(0)], read, Crash(0));
    EarlyBoot(c, crashed, delivered);
    t := Then(c, Initial(), es + [Read(0)] + [Crash(0)], crashed, Boot(0));
  }

  lemma OnePass(c: Config, es: seq<Event>, s: State, data: Data) returns (t: State)
    requires Reaches(c, Initial(), es, s) && Sick(c, s, data, Worker(Reading, [])) && c.batchSize >= 1
    requires Registered(c.handlers, data) && GetRetryCount(data) < MAX_RETRIES
    ensures Sick(c, t, data, Worker(Reading, []))
    ensures Reaches(c, Initial(), es + [Read(0)] + [Claim(0, [0])] + [Claim(0, [])] + [Claim(0, [])] + [Claim(0, [])]
                                + [Handle(0, false)] + [Finish(0)], t)
  {
    hide Inv;
    hide Step;
    hide Reaches;
    var m, fs := Message(Shipments, 0, data), es + [Read(0)];
    SickRead(c, s, data);
    t := Then(c, Initial(), es, s, Read(0));
    SickClaim(c, t, data, DOMAINS, [], [0]);
    t := Then(c, Initial(), fs, t, Claim(0, [0]));
    SickClaim(c, t, data, DOMAINS[1..], [m], []);
    t := Then(c, Initial(), fs + [Claim(0, [0])], t, Claim(0, []));
    SickClaim(c, t, data, DOMAINS[1..][1..], [m], []);
    t := Then(c, Initial(), fs + [Claim(0, [0])] + [Claim(0, [])], t, Claim(0, []));
    SickClaim(c, t, data, DOMAINS[1..][1..][1..], [m], []);
    t := Then(c, Initial(), fs + [Claim(0, [0])] + [Claim(0, [])] + [Claim(0, [])], t, Claim(0, []));
    fs := fs + [Claim(0, [0])] + [Claim(0, [])] + [Claim(0, [])] + [Claim(0, [])];
    SickHandle(c, t, data);
    t := Then(c, Initial(), fs, t, Handle(0, false));
    SickFinish(c, t, data);
    t := Then(c, Initial(), fs + [Handle(0, false)], t, Finish(0));
  }

  /** The documented limit of three retries does not take effect: for every number of failed
      passes there is a run after which the published entry is still pending. */
  lemma {:induction false} RetriesAreUnbounded(c: Config, data: Data, passes: nat) returns (t: State)
    requires Registered(c.handlers, data) && IsPublished(data) && c.batchSize >= 1
    ensures Reaches(c, Initial(), FailingRun(data, passes), t) && Sick(c, t, data, Worker(Reading, []))
  {
    if passes == 0 {
      t := FirstDelivery(c, data);
    } else {
      t := RetriesAreUnbounded(c, data, passes - 1);
      t := OnePass(c, FailingRun(data, passes - 1), t, data);
    }
  }

  // ---- The bus in place ----

  /** How one call to Redis ends: the last two raise an error, after or before it took effect. */
  datatype Call = Answered | ReplyLost | NeverArrived

  class Bus {
    const config: Config
    var streams: map<Domain, Stream>
    var workers: map<nat, Worker>

    ghost function Abs(): State
      reads this
    {
      State(streams, workers)
    }

    constructor (config: Config)
      ensures Abs() == Initial() && this.config == config
    {
      this.config := config;
      streams := EMPTY_STREAMS;
      workers := map[];
    }

    /** XADD by publish: the new entry's id, or None (publish returns an empty string) when the
        call raised, whether or not the entry had been added by then. */
    method Publish(d: Domain, eventType: string, payload: string, call: Call) returns (id: Option<nat>)
      requires Inv(config, Abs())
      modifies this`streams
      ensures Inv(config, Abs())
      ensures Abs() == if call.NeverArrived? then old(Abs())
                       else Step(config, old(Abs()), Append(d, Published(eventType, payload)))
      ensures id == if call.Answered? then Some(|old(streams)[d].log|) else None
      ensures id.Some? ==> streams[d].log == old(streams)[d].log + [Data(Some(eventType), payload, None)]
    {
      if call.NeverArrived? {
        return None;
      }
      StepKeepsInv(config, Abs(), Append(d, Published(eventType, payload)));
      var newId := |streams[d].log|;
      streams := streams[d := streams[d].(log := streams[d].log + [Published(eventType, payload)])];
      return if call.Answered? then Some(newId) else None;
    }

    method DispatchNext(w: nat, handlerOk: bool)
      requires Inv(config, Abs())
      requires w in workers && workers[w].stage.Dispatching? && workers[w].results != []
      modifies this
      ensures Inv(config, Abs()) && Abs() == Step(config, old(Abs()), Handle(w, handlerOk))
      ensures var m, rest := old(workers)[w].results[0], old(workers)[w].results[1..];
              w in workers && workers[w] == Worker(StageAfter(config, m, handlerOk), rest)
    {
      StepKeepsInv(config, Abs(), Handle(w, handlerOk));
      var m, rest := workers[w].results[0], workers[w].results[1..];
      var data := m.data;
      var retries := GetRetryCount(data);
      var success := ProcessMessage(config.handlers, data, handlerOk);
      if success {
        if Registered(config.handlers, data) {
          streams := streams[m.domain := streams[m.domain].(succeeded := streams[m.domain].succeeded + {m.id})];
        }
        workers := workers[w := Worker(Acking(m), rest)];
      } else if retries >= MAX_RETRIES {
        workers := workers[w := Worker(DeadLettering(m), rest)];
      } else {
        data := SetRetryCount(data, retries + 1);
        workers := workers[w := Worker(Dispatching, rest)];
      }
    }

    method AddToDeadLetters(w: nat)
      requires Inv(config, Abs()) && w in workers && workers[w].stage.DeadLettering?
      modifies this
      ensures Inv(config, Abs()) && Abs() == Step(config, old(Abs()), CopyToDead(w))
      ensures w in workers && workers[w] == Worker(Acking(old(workers)[w].stage.m), old(workers)[w].results)
    {
      StepKeepsInv(config, Abs(), CopyToDead(w));
      var m := workers[w].stage.m;
      streams := streams[m.domain := streams[m.domain].(dead := streams[m.domain].dead + [DeadLetter(m.id, m.data)])];
      workers := workers[w := workers[w].(stage := Acking(m))];
    }

    method Acknowledge(w: nat)
      requires Inv(config, Abs()) && w in workers && workers[w].stage.Acking?
      modifies this
      ensures Inv(config, Abs()) && Abs() == Step(config, old(Abs()), Ack(w))
      ensures w in workers && workers[w] == Worker(Dispatching, old(workers)[w].results)
    {
      StepKeepsInv(config, Abs(), Ack(w));
      var m := workers[w].stage.m;
      var stream := streams[m.domain];
      if m.id in stream.pending {
        streams := streams[m.domain := stream.(pending := stream.pending - {m.id}, acked := stream.acked + {m.id})];
      }
      workers := workers[w := workers[w].(stage := Dispatching)];
      assert streams == Step(config, old(Abs()), Ack(w)).streams;
    }

    /** One turn of the dispatch loop. */
    method DispatchOne(w: nat, handlerOk: bool)
      requires Inv(config, Abs())
      requires w in workers && workers[w].stage.Dispatching? && workers[w].results != []
      modifies this
      ensures var es := MessageTrace(config, w, old(workers)[w].results[0], handlerOk);
              Reaches(config, old(Abs()), es, Abs())
      ensures Inv(config, Abs())
      ensures w in workers && workers[w] == Worker(Dispatching, old(workers)[w].results[1..])
    {
      ghost var before := Abs();
      DispatchNext(w, handlerOk);
      ghost var handled := Abs();
      Reach1(config, before, Handle(w, handlerOk), handled);
      if workers[w].stage.DeadLettering? {
        AddToDeadLetters(w);
        Reach2(config, before, Handle(w, handlerOk), handled, CopyToDead(w), Abs());
        ghost var copied := Abs();
        Acknowledge(w);
        Reach3(config, before, Handle(w, handlerOk), handled, CopyToDead(w), copied, Ack(w), Abs());
      } else if workers[w].stage.Acking? {
        Acknowledge(w);
        Reach2(config, before, Handle(w, handlerOk), handled, Ack(w), Abs());
      }
    }

    /** The dispatch loop over one batch of results, no call failing: it performs exactly
        the calls of DispatchTrace and empties the batch. */
    method DispatchAll(w: nat, verdicts: seq<bool>)
      requires Inv(config, Abs()) && w in workers && workers[w].stage.Dispatching?
      requires |verdicts| == |workers[w].results|
      modifies this
      ensures var es := DispatchTrace(config, w, old(workers)[w].results, verdicts, |verdicts|);
              Reaches(config, old(Abs()), es, Abs())
      ensures w in workers && workers[w] == Worker(Dispatching, [])
    {
      ghost var before, results := Abs(), workers[w].results;
      ghost var done: seq<Event> := [];
      var k := 0;
      assert Reaches(config, before, done, before);
      hide Reaches;
      hide Inv;
      hide MessageTrace;
      hide DispatchTrace;
      TraceStart(config, w, results, verdicts);
      while k < |verdicts|
        invariant 0 <= k <= |verdicts|
        invariant Inv(config, Abs()) && w in workers && workers[w] == Worker(Dispatching, results[k..])
        invariant Reaches(config, before, done, Abs())
        invariant done == DispatchTrace(config, w, results, verdicts, k)
      {
        ghost var here := Abs();
        ghost var one := MessageTrace(config, w, results[k], verdicts[k]);
        DropStep(results, k);
        DispatchOne(w, verdicts[k]);
        ReachesConcat(config, before, done, here, one, Abs());
        done := done + one;
        TraceStep(config, w, results, verdicts, k);
        k := k + 1;
      }
    }
  }

  /** Where the handler's verdict on m sends the worker. */
  function StageAfter(c: Config, m: Message, handlerOk: bool): Stage {
    if ProcessMessage(c.handlers, m.data, handlerOk) then Acking(m)
    else if GetRetryCount(m.data) >= MAX_RETRIES then DeadLettering(m)
    else Dispatching
  }

  /** The handler run and the Redis calls made for one message. */
  function MessageTrace(c: Config, w: nat, m: Message, handlerOk: bool): seq<Event> {
    if ProcessMessage(c.handlers, m.data, handlerOk) then [Handle(w, handlerOk), Ack(w)]
    else if GetRetryCount(m.data) >= MAX_RETRIES then [Handle(w, handlerOk), CopyToDead(w), Ack(w)]
    else [Handle(w, handlerOk)]
  }

  /** The handler runs and Redis calls of the first k messages of a batch, in order. */
  function DispatchTrace(c: Config, w: nat, results: seq<Message>, verdicts: seq<bool>, k: nat): seq<Event>
    requires k <= |results| == |verdicts|
  {
    if k == 0 then []
    else DispatchTrace(c, w, results, verdicts, k - 1) + MessageTrace(c, w, results[k - 1], verdicts[k - 1])
  }

  /** How a handled message ends: its handler must accept it, if there is one. */
  predicate Accepted(c: Config, m: Message, handlerOk: bool) {
    m.data.eventType.GetOr("unknown") in c.handlers ==> handlerOk
  }

  /** A message is given up when the count stored with it has reached three. */
  predicate GivenUp(c: Config, m: Message, handlerOk: bool) {
    !Accepted(c, m, handlerOk) && m.data.retryMeta.Some? && m.data.retryMeta.value >= 3
  }

  lemma HandleFate(c: Config, s: State, w: nat, handlerOk: bool)
    requires Inv(c, s) && Enabled(c, s, Handle(w, handlerOk))
    ensures var t := Step(c, s, Handle(w, handlerOk));
            var m, rest := s.workers[w].results[0], s.workers[w].results[1..];
            && m.domain in t.streams
            && t.streams[m.domain] == s.streams[m.domain].(succeeded := t.streams[m.domain].succeeded)
            && (forall d: Domain :: d != m.domain ==> d in t.streams && t.streams[d] == s.streams[d])
            && t.workers == s.workers[w := Worker(if Accepted(c, m, handlerOk) then Acking(m)
                                                  else if GivenUp(c, m, handlerOk) then DeadLettering(m)
                                                  else Dispatching, rest)]
  {
    hide StreamInv;
    hide WorkerInv;
  }

  lemma AckFate(c: Config, s: State, w: nat)
    requires Inv(c, s) && Enabled(c, s, Ack(w))
    ensures var t, m := Step(c, s, Ack(w)), s.workers[w].stage.m;
            var u := s.streams[m.domain];
            && m.domain in t.streams
            && t.streams[m.domain] == u.(pending := u.pending - {m.id}, acked := u.acked + {m.id})
            && (forall d: Domain :: d != m.domain ==> d in t.streams && t.streams[d] == s.streams[d])
            && t.workers == s.workers[w := Worker(Dispatching, s.workers[w].results)]
  {
    var m := s.workers[w].stage.m;
    assert WorkerInv(c, s, s.workers[w]) && Holds(s, m);
    var u := s.streams[m.domain];
    assert m.id in u.pending || m.id in u.acked;
    if m.id !in u.pending {
      assert u.pending - {m.id} == u.pending && u.acked + {m.id} == u.acked;
    }
  }

  lemma CopyFate(c: Config, s: State, w: nat)
    requires Inv(c, s) && Enabled(c, s, CopyToDead(w))
    ensures var t, m := Step(c, s, CopyToDead(w)), s.workers[w].stage.m;
            var u := s.streams[m.domain];
            && m.domain in t.streams
            && t.streams[m.domain] == u.(dead := u.dead + [DeadLetter(m.id, m.data)])
            && (forall d: Domain :: d != m.domain ==> d in t.streams && t.streams[d] == s.streams[d])
            && t.workers == s.workers[w := Worker(Acking(m), s.workers[w].results)]
  {
    hide StreamInv;
    hide WorkerInv;
  }

  /** Where one turn of the dispatch loop leaves its message, no call failing.  Accepted, it is
      acknowledged and no longer pending; given up, it is copied to the dead letters first;
      otherwise its stream is as before, the message still pending.  No other stream changes. */
  lemma MessageFate(c: Config, s: State, w: nat, handlerOk: bool, t: State)
    requires Inv(c, s) && w in s.workers && s.workers[w].stage.Dispatching? && s.workers[w].results != []
    requires Reaches(c, s, MessageTrace(c, w, s.workers[w].results[0], handlerOk), t)
    ensures var m := s.workers[w].results[0];
            var u, v := s.streams[m.domain], t.streams[m.domain];
            && t.workers == s.workers[w := Worker(Dispatching, s.workers[w].results[1..])]
            && (forall d: Domain :: d != m.domain ==> t.streams[d] == s.streams[d])
            && v.log == u.log && v.lastDelivered == u.lastDelivered
            && v.dead == u.dead + (if GivenUp(c, m, handlerOk) then [DeadLetter(m.id, m.data)] else [])
            && if Accepted(c, m, handlerOk) || GivenUp(c, m, handlerOk)
               then v.acked == u.acked + {m.id} && v.pending == u.pending - {m.id}
               else v.acked == u.acked && v.pending == u.pending
  {
    var m, h := s.workers[w].results[0], Step(c, s, Handle(w, handlerOk));
    var rest := AfterHandle(c, s, w, handlerOk, t);
    HandleFate(c, s, w, handlerOk);
    StepKeepsInv(c, s, Handle(w, handlerOk));
    hide Step;
    hide Inv;
    hide Reaches;
    hide MessageTrace;
    hide Accepted;
    hide GivenUp;
    if Accepted(c, m, handlerOk) {
      AckedFate(c, h, w, rest, t);
    } else if GivenUp(c, m, handlerOk) {
      BuriedFate(c, h, w, rest, t);
    }
  }

  lemma AfterHandle(c: Config, s: State, w: nat, handlerOk: bool, t: State) returns (rest: seq<Event>)
    requires WellFormed(s) && Enabled(c, s, Handle(w, handlerOk))
    requires Reaches(c, s, MessageTrace(c, w, s.workers[w].results[0], handlerOk), t)
    ensures var m := s.workers[w].results[0];
            rest == if Accepted(c, m, handlerOk) then [Ack(w)]
                    else if GivenUp(c, m, handlerOk) then [CopyToDead(w), Ack(w)] else []
    ensures Reaches(c, Step(c, s, Handle(w, handlerOk)), rest, t)
    ensures rest == [] ==> t == Step(c, s, Handle(w, handlerOk))
  {
    var es := MessageTrace(c, w, s.workers[w].results[0], handlerOk);
    assert es[0] == Handle(w, handlerOk);
    FirstEvent(c, s, es);
    hide Step;
    rest := es[1..];
  }

  lemma AckedFate(c: Config, s: State, w: nat, es: seq<Event>, t: State)
    requires Inv(c, s) && w in s.workers && s.workers[w].stage.Acking?
    requires es == [Ack(w)] && Reaches(c, s, es, t)
    ensures var m := s.workers[w].stage.m;
            var u := s.streams[m.domain];
            && WellFormed(t) && t.streams[m.domain] == u.(pending := u.pending - {m.id}, acked := u.acked + {m.id})
            && (forall d: Domain :: d != m.domain ==> t.streams[d] == s.streams[d])
            && t.workers == s.workers[w := Worker(Dispatching, s.workers[w].results)]
  {
    FirstEvent(c, s, es);
    AckFate(c, s, w);
  }

  lemma BuriedFate(c: Config, s: State, w: nat, es: seq<Event>, t: State)
    requires Inv(c, s) && w in s.workers && s.workers[w].stage.DeadLettering?
    requires es == [CopyToDead(w), Ack(w)] && Reaches(c, s, es, t)
    ensures var m := s.workers[w].stage.m;
            var u := s.streams[m.domain];
            && WellFormed(t)
            && t.streams[m.domain] == u.(dead := u.dead + [DeadLetter(m.id, m.data)],
                                         pending := u.pending - {m.id}, acked := u.acked + {m.id})
            && (forall d: Domain :: d != m.domain ==> t.streams[d] == s.streams[d])
            && t.workers == s.workers[w := Worker(Dispatching, s.workers[w].results)]
  {
    FirstEvent(c, s, es);
    CopyFate(c, s, w);
    StepKeepsInv(c, s, CopyToDead(w));
    hide Step;
    hide Inv;
    hide Run;
    hide IsRun;
    AckedFate(c, Step(c, s, CopyToDead(w)), w, es[1..], t);
  }

  lemma FirstEvent(c: Config, s: State, es: seq<Event>)
    requires WellFormed(s) && IsRun(c, s, es) && es != []
    ensures Enabled(c, s, es[0])
    ensures var t := Step(c, s, es[0]);
            WellFormed(t) && IsRun(c, t, es[1..]) && Run(c, s, es) == Run(c, t, es[1..])
    ensures |es| == 1 ==> Run(c, s, es) == Step(c, s, es[0])
  {
    StepExtends(c, s, es[0]);
  }

  lemma TraceStart(c: Config, w: nat, results: seq<Message>, verdicts: seq<bool>)
    requires |results| == |verdicts|
    ensures DispatchTrace(c, w, results, verdicts, 0) == []
  {
  }

  lemma TraceStep(c: Config, w: nat, results: seq<Message>, verdicts: seq<bool>, k: nat)
    requires k < |results| == |verdicts|
    ensures DispatchTrace(c, w, results, verdicts, k + 1)
            == DispatchTrace(c, w, results, verdicts, k) + MessageTrace(c, w, results[k], verdicts[k])
  {
  }

  lemma DropStep(results: seq<Message>, k: nat)
    requires k < |results|
    ensures results[k..] != [] && results[k..][0] == results[k] && results[k..][1..] == results[k + 1..]
  {
  }
}
