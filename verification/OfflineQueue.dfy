/** The mobile client's offline mutation queue: kept in persistent storage, capped, and
    replayed in order by a sync that overwrites the storage with what failed.

    Every storage access and every request is awaited, so enqueues, removals and a sync may
    interleave: an enqueue or a removal reads the queue in one step and writes it back in a
    later one, and a sync suspends at each request.  The queue is a state machine whose steps
    are the stretches between awaits.  Storage may fail: a failed read counts as an empty
    queue, a failed write leaves storage alone. */
module OfflineQueue {

  const MAX_QUEUE_SIZE := 100

  datatype Mutation = Mutation(id: string, request: string)

  /** The queue a running sync has read, split into what is still to be sent and what failed. */
  datatype Sync = Idle | Syncing(todo: seq<Mutation>, remaining: seq<Mutation>)

  datatype Op = Add(m: Mutation) | Delete(id: string)

  /** An enqueue or removal that has read the queue and not yet written it back. */
  datatype Call = Call(op: Op, queue: seq<Mutation>)

  /** storage is the stored queue; enqueued, sent, dropped and removed are history. */
  datatype State = State(
    storage: seq<Mutation>,
    sync: Sync,
    calls: map<nat, Call>,
    enqueued: seq<Mutation>,
    sent: seq<Mutation>,
    dropped: seq<Mutation>,
    removed: seq<Mutation>)

  datatype Event =
    | Open(c: nat, op: Op, readOk: bool)
    | Close(c: nat, saveOk: bool)
    | BeginSync(readOk: bool)
    | SendNext(ok: bool)
    | EndSync(saveOk: bool)

  // ---- Steps ----

  function ReadQueue(storage: seq<Mutation>, readOk: bool): seq<Mutation> {
    if readOk then storage else []
  }

  /** How many of the oldest entries make room for one more. */
  function Overflow(q: seq<Mutation>): nat {
    if |q| >= MAX_QUEUE_SIZE then |q| - MAX_QUEUE_SIZE + 1 else 0
  }

  function Others(q: seq<Mutation>, id: string): seq<Mutation> {
    if q == [] then [] else (if q[0].id != id then [q[0]] else []) + Others(q[1..], id)
  }

  function WithId(q: seq<Mutation>, id: string): seq<Mutation> {
    if q == [] then [] else (if q[0].id == id then [q[0]] else []) + WithId(q[1..], id)
  }

  predicate Enabled(s: State, e: Event) {
    match e
    case Open(c, _, _) => c !in s.calls
    case Close(c, _) => c in s.calls
    case BeginSync(_) => true
    case SendNext(_) => s.sync.Syncing? && s.sync.todo != []
    case EndSync(_) => s.sync.Syncing? && s.sync.todo == []
  }

  /** A call writes back what it makes of the queue it has read. */
  function Written(s: State, call: Call): State {
    var q := call.queue;
    match call.op
    case Add(m) =>
      s.(storage := q[Overflow(q)..] + [m], enqueued := s.enqueued + [m], dropped := s.dropped + q[..Overflow(q)])
    case Delete(id) =>
      s.(storage := Others(q, id), removed := s.removed + WithId(q, id))
  }

  function Step(s: State, e: Event): State
    requires Enabled(s, e)
  {
    match e
    case Open(c, op, readOk) =>
      s.(calls := s.calls[c := Call(op, ReadQueue(s.storage, readOk))])
    case Close(c, saveOk) =>
      var t := s.(calls := s.calls - {c});
      if saveOk then Written(t, s.calls[c]) else t
    case BeginSync(readOk) =>
      var q := ReadQueue(s.storage, readOk);
      if s.sync.Syncing? || q == [] then s else s.(sync := Syncing(q, []))
    case SendNext(ok) =>
      var m, rest := s.sync.todo[0], s.sync.todo[1..];
      if ok then s.(sync := Syncing(rest, s.sync.remaining), sent := s.sent + [m])
      else s.(sync := Syncing(rest, s.sync.remaining + [m]))
    case EndSync(saveOk) =>
      s.(sync := Idle, storage := if saveOk then s.sync.remaining else s.storage)
  }

  // ---- The queue in place ----

  /** What a sync leaves in the queue: the mutations whose request failed, in order. */
  function Unsent(q: seq<Mutation>, outcomes: seq<bool>): seq<Mutation>
    requires |outcomes| == |q|
  {
    if q == [] then []
    else Unsent(q[..|q| - 1], outcomes[..|q| - 1]) + if outcomes[|q| - 1] then [] else [q[|q| - 1]]
  }

  /** What a sync gets through, in order. */
  function Delivered(q: seq<Mutation>, outcomes: seq<bool>): seq<Mutation>
    requires |outcomes| == |q|
  {
    if q == [] then []
    else Delivered(q[..|q| - 1], outcomes[..|q| - 1]) + if outcomes[|q| - 1] then [q[|q| - 1]] else []
  }

  /** The functions of the client, each run without another one interleaving; sent lists the
      requests the server has accepted. */
  class Client {
    var storage: seq<Mutation>
    var isSyncing: bool
    var sent: seq<Mutation>

    constructor ()
      ensures storage == [] && !isSyncing && sent == []
    {
      storage, isSyncing, sent := [], false, [];
    }

    method GetOfflineQueue(readOk: bool) returns (queue: seq<Mutation>)
      ensures queue == ReadQueue(storage, readOk)
    {
      queue := if readOk then storage else [];
    }

    /** True when stored; a failed write rejects the call. */
    method EnqueueMutation(m: Mutation, readOk: bool, saveOk: bool) returns (stored: bool)
      modifies this`storage
      ensures stored <==> saveOk
      ensures var q := ReadQueue(old(storage), readOk);
              storage == if saveOk then q[Overflow(q)..] + [m] else old(storage)
      ensures saveOk ==> |storage| <= 100 && storage[|storage| - 1] == m
    {
      var queue := GetOfflineQueue(readOk);
      if |queue| >= MAX_QUEUE_SIZE {
        queue := queue[|queue| - MAX_QUEUE_SIZE + 1..];
      }
      queue := queue + [m];
      if saveOk {
        storage := queue;
      }
      return saveOk;
    }

    method RemoveFromQueue(id: string, readOk: bool, saveOk: bool) returns (stored: bool)
      modifies this`storage
      ensures stored <==> saveOk
      ensures storage == if saveOk then Others(ReadQueue(old(storage), readOk), id) else old(storage)
    {
      var queue := GetOfflineQueue(readOk);
      var kept: seq<Mutation> := [];
      for k := 0 to |queue|
        invariant kept + Others(queue[k..], id) == Others(queue, id)
      {
        assert queue[k..][1..] == queue[k + 1..];
        assert kept + ([queue[k]] + Others(queue[k + 1..], id)) == kept + [queue[k]] + Others(queue[k + 1..], id);
        if queue[k].id != id {
          kept := kept + [queue[k]];
        }
      }
      if saveOk {
        storage := kept;
      }
      return saveOk;
    }

    /** An uninterrupted sync; outcomes says how each request ends. */
    method SyncOfflineQueue(readOk: bool, outcomes: seq<bool>, saveOk: bool) returns (succeeded: nat, failed: nat)
      requires |outcomes| == |storage|
      modifies this
      ensures isSyncing == old(isSyncing)
      ensures old(isSyncing) || !readOk ==> storage == old(storage) && sent == old(sent) && succeeded == failed == 0
      ensures !old(isSyncing) && readOk ==>
                && storage == (if saveOk then Unsent(old(storage), outcomes) else old(storage))
                && sent == old(sent) + Delivered(old(storage), outcomes)
                && failed == |Unsent(old(storage), outcomes)| && succeeded == |Delivered(old(storage), outcomes)|
                && succeeded + failed == |old(storage)|
    {
      succeeded, failed := 0, 0;
      if isSyncing {
        return;
      }
      isSyncing := true;
      var queue := GetOfflineQueue(readOk);
      if |queue| == 0 {
        isSyncing := false;
        return;
      }
      var remaining: seq<Mutation> := [];
      for k := 0 to |queue|
        invariant remaining == Unsent(queue[..k], outcomes[..k])
        invariant sent == old(sent) + Delivered(queue[..k], outcomes[..k])
        invariant failed == |remaining| && succeeded == |Delivered(queue[..k], outcomes[..k])|
        invariant succeeded + failed == k && storage == queue
      {
        assert queue[..k + 1][..k] == queue[..k] && outcomes[..k + 1][..k] == outcomes[..k];
        if outcomes[k] {
          sent := sent + [queue[k]];
          succeeded := succeeded + 1;
        } else {
          remaining := remaining + [queue[k]];
          failed := failed + 1;
        }
      }
      assert queue[..|queue|] == queue && outcomes[..|queue|] == outcomes;
      if saveOk {
        storage := remaining;
      }
      isSyncing := false;
    }
  }

  // ---- Runs ----

  const EMPTY := State([], Idle, map[], [], [], [], [])

  predicate IsRun(s: State, es: seq<Event>)
    decreases |es|
  {
    es == [] || (Enabled(s, es[0]) && IsRun(Step(s, es[0]), es[1..]))
  }

  function Run(s: State, es: seq<Event>): State
    requires IsRun(s, es)
    decreases |es|
  {
    if es == [] then s else Run(Step(s, es[0]), es[1..])
  }

  lemma {:induction false} RunConcat(s: State, es: seq<Event>, fs: seq<Event>)
    requires IsRun(s, es) && IsRun(Run(s, es), fs)
    ensures IsRun(s, es + fs) && Run(s, es + fs) == Run(Run(s, es), fs)
    decreases |es|
  {
    if es == [] {
      assert es + fs == fs;
    } else {
      RunConcat(Step(s, es[0]), es[1..], fs);
      assert (es + fs)[1..] == es[1..] + fs;
    }
  }

  lemma OneEvent(s: State, e: Event)
    requires Enabled(s, e)
    ensures IsRun(s, [e]) && Run(s, [e]) == Step(s, e)
  {
    var t := Step(s, e);
    assert [e][1..] == [];
    assert Run(t, []) == t;
  }

  /** A call that nothing interleaves: its read, and its write. */
  function CallTrace(c: nat, op: Op, readOk: bool, saveOk: bool): seq<Event> {
    [Open(c, op, readOk)] + [Close(c, saveOk)]
  }

  /** The enqueue and the removal of the client are the runs of their two steps. */
  lemma CallIsItsSteps(s: State, c: nat, op: Op, readOk: bool, saveOk: bool)
    requires c !in s.calls
    ensures IsRun(s, CallTrace(c, op, readOk, saveOk))
    ensures var q := ReadQueue(s.storage, readOk);
            Run(s, CallTrace(c, op, readOk, saveOk)) == if saveOk then Written(s, Call(op, q)) else s
  {
    var t := Step(s, Open(c, op, readOk));
    OneEvent(s, Open(c, op, readOk));
    OneEvent(t, Close(c, saveOk));
    RunConcat(s, [Open(c, op, readOk)], [Close(c, saveOk)]);
    assert t.calls - {c} == s.calls;
  }

  function Sends(outcomes: seq<bool>): seq<Event> {
    seq(|outcomes|, k requires 0 <= k < |outcomes| => SendNext(outcomes[k]))
  }

  /** The sends of a running sync: what fails is kept in order, what succeeds is sent in
      order, and storage is not touched. */
  lemma {:induction false} SendsRun(s: State, outcomes: seq<bool>, k: nat)
    requires s.sync.Syncing? && |outcomes| == |s.sync.todo| && k <= |outcomes|
    ensures IsRun(s, Sends(outcomes[..k]))
    ensures var q := s.sync.todo;
            Run(s, Sends(outcomes[..k]))
            == s.(sync := Syncing(q[k..], s.sync.remaining + Unsent(q[..k], outcomes[..k])),
                  sent := s.sent + Delivered(q[..k], outcomes[..k]))
  {
    var q, r := s.sync.todo, s.sync.remaining;
    if k > 0 {
      SendsRun(s, outcomes, k - 1);
      var t, e := Run(s, Sends(outcomes[..k - 1])), SendNext(outcomes[k - 1]);
      assert Sends(outcomes[..k]) == Sends(outcomes[..k - 1]) + [e];
      OneEvent(t, e);
      RunConcat(s, Sends(outcomes[..k - 1]), [e]);
      assert q[..k][..k - 1] == q[..k - 1] && outcomes[..k][..k - 1] == outcomes[..k - 1];
      assert q[k - 1..][1..] == q[k..] && q[k - 1..][0] == q[k - 1];
      var kept, done := Unsent(q[..k - 1], outcomes[..k - 1]), Delivered(q[..k - 1], outcomes[..k - 1]);
      assert Unsent(q[..k], outcomes[..k]) == kept + if outcomes[k - 1] then [] else [q[k - 1]];
      assert Delivered(q[..k], outcomes[..k]) == done + if outcomes[k - 1] then [q[k - 1]] else [];
      hide Unsent;
      hide Delivered;
      hide Run;
      hide IsRun;
      hide Sends;
      assert kept + [] == kept && done + [] == done;
      assert s.sent + done + [q[k - 1]] == s.sent + (done + [q[k - 1]]);
      assert r + kept + [q[k - 1]] == r + (kept + [q[k - 1]]);
    } else {
      assert q[0..] == q && s.sent + [] == s.sent && r + [] == r;
      assert Sends(outcomes[..0]) == [];
    }
  }

  function Count(outcomes: seq<bool>, outcome: bool): nat {
    if outcomes == [] then 0
    else Count(outcomes[..|outcomes| - 1], outcome) + if outcomes[|outcomes| - 1] == outcome then 1 else 0
  }

  /** Where each mutation of the queue goes: behind exactly those before it that fared alike. */
  lemma {:induction false} SentInQueueOrder(q: seq<Mutation>, outcomes: seq<bool>, k: nat)
    requires |outcomes| == |q|
    ensures |Delivered(q, outcomes)| == Count(outcomes, true) && |Unsent(q, outcomes)| == Count(outcomes, false)
    ensures k < |q| ==>
              if outcomes[k] then
                var at := Count(outcomes[..k], true);
                at < |Delivered(q, outcomes)| && Delivered(q, outcomes)[at] == q[k]
              else
                var at := Count(outcomes[..k], false);
                at < |Unsent(q, outcomes)| && Unsent(q, outcomes)[at] == q[k]
  {
    if q != [] {
      var n := |q| - 1;
      SentInQueueOrder(q[..n], outcomes[..n], k);
      if k < n {
        assert outcomes[..n][..k] == outcomes[..k];
      }
    }
  }

  /** The sends of a running sync and its final write. */
  lemma SyncEnds(s: State, outcomes: seq<bool>, saveOk: bool)
    requires s.sync.Syncing? && |outcomes| == |s.sync.todo|
    ensures IsRun(s, Sends(outcomes) + [EndSync(saveOk)])
    ensures Run(s, Sends(outcomes) + [EndSync(saveOk)])
            == s.(sync := Idle,
                  storage := if saveOk then s.sync.remaining + Unsent(s.sync.todo, outcomes) else s.storage,
                  sent := s.sent + Delivered(s.sync.todo, outcomes))
  {
    SendsRun(s, outcomes, |outcomes|);
    assert outcomes[..|outcomes|] == outcomes && s.sync.todo[..|outcomes|] == s.sync.todo;
    var u := Run(s, Sends(outcomes));
    OneEvent(u, EndSync(saveOk));
    RunConcat(s, Sends(outcomes), [EndSync(saveOk)]);
  }

  function SyncTrace(outcomes: seq<bool>, saveOk: bool): seq<Event> {
    [BeginSync(true)] + (Sends(outcomes) + [EndSync(saveOk)])
  }

  /** The sync of the client is the run of its steps. */
  lemma SyncIsItsSteps(s: State, outcomes: seq<bool>, saveOk: bool)
    requires s.sync.Idle? && s.storage != [] && |outcomes| == |s.storage|
    ensures IsRun(s, SyncTrace(outcomes, saveOk))
    ensures Run(s, SyncTrace(outcomes, saveOk))
            == s.(storage := if saveOk then Unsent(s.storage, outcomes) else s.storage,
                  sent := s.sent + Delivered(s.storage, outcomes))
  {
    SyncEnds(Step(s, BeginSync(true)), outcomes, saveOk);
    assert SyncTrace(outcomes, saveOk)[1..] == Sends(outcomes) + [EndSync(saveOk)];
    assert [] + Unsent(s.storage, outcomes) == Unsent(s.storage, outcomes);
  }

  // ---- Conservation ----

  /** The mutations still waiting for a successful request. */
  function Live(s: State): seq<Mutation> {
    match s.sync
    case Idle => s.storage
    case Syncing(todo, remaining) => remaining + todo
  }

  /** Conservation: what was enqueued is what was sent, dropped by the cap, removed, or waits. */
  ghost predicate Balanced(s: State) {
    multiset(s.enqueued) == multiset(s.sent) + multiset(s.dropped) + multiset(s.removed) + multiset(Live(s))
  }

  /** What the write of a call must meet to conserve.  Outside a sync, storage still holds
      what the call had read.  Inside one storage does not count, so an enqueue conserves only
      if the cap drops that very mutation, and a removal only if it takes nothing out. */
  predicate WriteConserves(s: State, call: Call) {
    if s.sync.Idle? then multiset(call.queue) == multiset(s.storage)
    else
      match call.op
      case Add(m) => call.queue[..Overflow(call.queue)] == [m]
      case Delete(id) => WithId(call.queue, id) == []
  }

  /** What a step must meet to conserve.  The write that ends a sync must work, unless storage
      already holds what failed. */
  predicate Conserves(s: State, e: Event)
    requires Enabled(s, e)
  {
    match e
    case Open(_, _, _) => true
    case Close(c, saveOk) => saveOk ==> WriteConserves(s, s.calls[c])
    case BeginSync(_) => true
    case SendNext(_) => true
    case EndSync(saveOk) => saveOk || multiset(s.storage) == multiset(s.sync.remaining)
  }

  lemma {:induction false} FilterSplits(q: seq<Mutation>, id: string)
    ensures multiset(Others(q, id)) + multiset(WithId(q, id)) == multiset(q)
    ensures forall m :: m in Others(q, id) ==> m.id != id
    ensures forall m :: m in WithId(q, id) ==> m.id == id
  {
    if q != [] {
      FilterSplits(q[1..], id);
      assert q == [q[0]] + q[1..];
    }
  }

  lemma Cancel(base: multiset<Mutation>, x: multiset<Mutation>, y: multiset<Mutation>)
    ensures base + x == base + y <==> x == y
  {
    if base + x == base + y {
      forall m ensures x[m] == y[m] {
        assert (base + x)[m] == (base + y)[m];
      }
    }
  }

  lemma OneOf(q: seq<Mutation>, m: Mutation)
    ensures multiset(q) == multiset{m} <==> q == [m]
  {
    if multiset(q) == multiset{m} {
      assert |multiset(q)| == |q| == 1;
      assert q == [q[0]] && q[0] in multiset(q);
    }
  }

  /** What was accounted for before the step, without what waits. */
  function Settled(s: State): multiset<Mutation> {
    multiset(s.sent) + multiset(s.dropped) + multiset(s.removed)
  }

  lemma Regroup(base: multiset<Mutation>, x: multiset<Mutation>, y: multiset<Mutation>, z: multiset<Mutation>)
    ensures (base + x) + (y + z) == (base + z) + (x + y)
    ensures base + x + y == base + (y + x)
    ensures base + x + y == base + y + x
  {
  }

  lemma Move(sent: multiset<Mutation>, dropped: multiset<Mutation>, removed: multiset<Mutation>, x: multiset<Mutation>)
    ensures (sent + x) + dropped + removed == sent + dropped + removed + x
    ensures sent + (dropped + x) + removed == sent + dropped + removed + x
  {
  }

  lemma AddConservesExactlyWhen(s: State, c: nat)
    requires Balanced(s) && Enabled(s, Close(c, true)) && s.calls[c].op.Add?
    ensures Balanced(Step(s, Close(c, true))) <==> Conserves(s, Close(c, true))
  {
    var t, q, m := Step(s, Close(c, true)), s.calls[c].queue, s.calls[c].op.m;
    var k, base := Overflow(q), Settled(s);
    var drop, keep, live := multiset(q[..k]), multiset(q[k..]), multiset(Live(s));
    assert multiset(t.enqueued) == base + live + multiset{m};
    assert Settled(t) == base + drop by {
      assert multiset(s.dropped + q[..k]) == multiset(s.dropped) + drop;
      Move(multiset(s.sent), multiset(s.dropped), multiset(s.removed), drop);
    }
    Regroup(base, live, multiset{m}, multiset{});
    if s.sync.Idle? {
      assert q == q[..k] + q[k..];
      assert multiset(Live(t)) == keep + multiset{m};
      hide Settled;
      Regroup(base, drop, keep, multiset{m});
      Cancel(base + multiset{m}, multiset(q), live);
    } else {
      hide Settled;
      assert Live(t) == Live(s);
      Regroup(base, drop, live, multiset{});
      Cancel(base + live, drop, multiset{m});
      OneOf(q[..k], m);
    }
  }

  lemma DeleteConservesExactlyWhen(s: State, c: nat)
    requires Balanced(s) && Enabled(s, Close(c, true)) && s.calls[c].op.Delete?
    ensures Balanced(Step(s, Close(c, true))) <==> Conserves(s, Close(c, true))
  {
    var t, q, id := Step(s, Close(c, true)), s.calls[c].queue, s.calls[c].op.id;
    var base, out, live := Settled(s), multiset(WithId(q, id)), multiset(Live(s));
    FilterSplits(q, id);
    assert Settled(t) == base + out by {
      assert multiset(s.removed + WithId(q, id)) == multiset(s.removed) + out;
    }
    hide Settled;
    hide Others;
    hide WithId;
    if s.sync.Idle? {
      var kept := multiset(Others(q, id));
      assert multiset(Live(t)) == kept;
      Regroup(base, out, kept, multiset{});
      Cancel(base, multiset(q), live);
    } else {
      assert Live(t) == Live(s);
      Regroup(base, out, live, multiset{});
      Cancel(base + live, out, multiset{});
      assert WithId(q, id) == [] <==> |out| == 0;
    }
  }

  lemma SendConserves(s: State, ok: bool)
    requires Balanced(s) && Enabled(s, SendNext(ok))
    ensures Balanced(Step(s, SendNext(ok)))
  {
    var t, r, m, rest := Step(s, SendNext(ok)), s.sync.remaining, s.sync.todo[0], s.sync.todo[1..];
    assert s.sync.todo == [m] + rest;
    if ok {
      assert multiset(t.sent) == multiset(s.sent) + multiset{m};
      assert Live(t) == r + rest;
      assert multiset(r + ([m] + rest)) == multiset{m} + multiset(r + rest);
      Move(multiset(s.sent), multiset(s.dropped), multiset(s.removed), multiset{m});
      Regroup(Settled(s), multiset(r + rest), multiset{m}, multiset{});
      Regroup(Settled(s), multiset{m}, multiset(r + rest), multiset{});
    } else {
      assert Live(t) == Live(s);
    }
  }

  /** From a balanced state, a step leads to a balanced one exactly when its condition holds. */
  lemma StepConservesExactlyWhen(s: State, e: Event)
    requires Balanced(s) && Enabled(s, e)
    ensures Balanced(Step(s, e)) <==> Conserves(s, e)
  {
    match e
    case Open(_, _, _) =>
    case Close(c, saveOk) =>
      if saveOk {
        if s.calls[c].op.Add? {
          AddConservesExactlyWhen(s, c);
        } else {
          DeleteConservesExactlyWhen(s, c);
        }
      }
    case BeginSync(_) => assert [] + s.storage == s.storage;
    case SendNext(ok) => SendConserves(s, ok);
    case EndSync(saveOk) =>
      assert s.sync.remaining + [] == s.sync.remaining;
      Cancel(Settled(s), multiset(s.storage), multiset(s.sync.remaining));
  }

  ghost predicate AlwaysBalanced(s: State, es: seq<Event>)
    requires IsRun(s, es)
    decreases |es|
  {
    Balanced(s) && (es != [] ==> AlwaysBalanced(Step(s, es[0]), es[1..]))
  }

  ghost predicate AlwaysConserves(s: State, es: seq<Event>)
    requires IsRun(s, es)
    decreases |es|
  {
    es != [] ==> Conserves(s, es[0]) && AlwaysConserves(Step(s, es[0]), es[1..])
  }

  /** Over every run, failing storage and every interleaving included: nothing is lost or
      counted twice at any moment exactly when every step meets its condition. */
  lemma {:induction false} RunConservesExactlyWhen(s: State, es: seq<Event>)
    requires Balanced(s) && IsRun(s, es)
    ensures AlwaysBalanced(s, es) <==> AlwaysConserves(s, es)
    decreases |es|
  {
    if es != [] {
      StepConservesExactlyWhen(s, es[0]);
      if Conserves(s, es[0]) {
        RunConservesExactlyWhen(Step(s, es[0]), es[1..]);
      }
    }
  }

  // ---- Clean runs ----

  /** Storage works, and enqueues, removals and syncs run one at a time. */
  predicate Clean(s: State, e: Event) {
    match e
    case Open(_, _, readOk) => readOk && s.sync.Idle? && s.calls == map[]
    case Close(_, saveOk) => saveOk
    case BeginSync(readOk) => readOk && s.calls == map[]
    case SendNext(_) => true
    case EndSync(saveOk) => saveOk
  }

  predicate IsCleanRun(s: State, es: seq<Event>)
    decreases |es|
  {
    es == [] || (Enabled(s, es[0]) && Clean(s, es[0]) && IsCleanRun(Step(s, es[0]), es[1..]))
  }

  /** At most one call is open, with the queue as stored, and then no sync is running. */
  predicate OneAtATime(s: State) {
    forall c :: c in s.calls ==> s.sync.Idle? && s.calls == map[c := s.calls[c]] && s.calls[c].queue == s.storage
  }

  /** Over every clean run every enqueued mutation is accounted for, multiplicities included. */
  lemma {:induction false} CleanRunConserves(s: State, es: seq<Event>)
    requires Balanced(s) && OneAtATime(s) && IsCleanRun(s, es)
    ensures IsRun(s, es) && Balanced(Run(s, es))
    decreases |es|
  {
    if es != [] {
      StepConservesExactlyWhen(s, es[0]);
      CleanRunConserves(Step(s, es[0]), es[1..]);
    }
  }

  /** A mutation enqueued once is in exactly one of the four places, and there once. */
  lemma ExactlyOnePlace(es: seq<Event>, m: Mutation)
    requires IsCleanRun(EMPTY, es) && IsRun(EMPTY, es)
    requires multiset(Run(EMPTY, es).enqueued)[m] == 1
    ensures var s := Run(EMPTY, es);
            multiset(s.sent)[m] + multiset(s.dropped)[m] + multiset(s.removed)[m] + multiset(Live(s))[m] == 1
  {
    CleanRunConserves(EMPTY, es);
  }

  /** The cap drops the oldest: an enqueue leaves the newest mutations, up to 100, in order. */
  lemma EnqueueKeepsTheNewest(s: State, q: seq<Mutation>, m: Mutation)
    requires |q| <= 100
    ensures var t := Written(s, Call(Add(m), q)).storage;
            var all := q + [m];
            t == all[|all| - |t|..] && |t| == (if |all| <= 100 then |all| else 100)
  {
  }

  // ---- Where conservation ends ----

  /** Between syncs, an enqueue or removal that is stored conserves exactly when its read
      worked or there was nothing to read: a failed read is taken for an empty queue, which
      the write then makes true. */
  lemma ConservedExactlyWhenRead(s: State, c: nat, op: Op, readOk: bool)
    requires Balanced(s) && s.sync.Idle? && c !in s.calls
    ensures IsRun(s, CallTrace(c, op, readOk, true))
    ensures Balanced(Run(s, CallTrace(c, op, readOk, true))) <==> readOk || s.storage == []
  {
    CallConservesExactlyWhen(s, c, op, readOk);
    assert s.storage == [] <==> |multiset(s.storage)| == 0;
  }

  /** With working storage, an enqueue of a new mutation conserves exactly outside a sync,
      and a removal exactly outside a sync or when it finds nothing. */
  lemma ConservedExactlyOutsideSync(s: State, c: nat, op: Op)
    requires Balanced(s) && c !in s.calls
    requires op.Add? ==> op.m !in s.storage
    ensures IsRun(s, CallTrace(c, op, true, true))
    ensures Balanced(Run(s, CallTrace(c, op, true, true)))
            <==> s.sync.Idle? || (op.Delete? && WithId(s.storage, op.id) == [])
  {
    CallConservesExactlyWhen(s, c, op, true);
    assert s.storage[..Overflow(s.storage)] <= s.storage;
  }

  lemma CallConservesExactlyWhen(s: State, c: nat, op: Op, readOk: bool)
    requires Balanced(s) && c !in s.calls
    ensures var t := Step(s, Open(c, op, readOk));
            && IsRun(s, CallTrace(c, op, readOk, true)) && Enabled(t, Close(c, true))
            && (Balanced(Run(s, CallTrace(c, op, readOk, true))) <==> Conserves(t, Close(c, true)))
  {
    var t := Step(s, Open(c, op, readOk));
    StepConservesExactlyWhen(t, Close(c, true));
    OneEvent(s, Open(c, op, readOk));
    OneEvent(t, Close(c, true));
    RunConcat(s, [Open(c, op, readOk)], [Close(c, true)]);
  }

  /** A sync whose final write fails conserves exactly when storage still holds what failed. */
  lemma ConservedExactlyWhenSaved(s: State)
    requires Balanced(s) && Enabled(s, EndSync(false))
    ensures Balanced(Step(s, EndSync(false))) <==> multiset(s.storage) == multiset(s.sync.remaining)
  {
    StepConservesExactlyWhen(s, EndSync(false));
  }

  /** Two enqueues that both read before either writes: the one that writes first is lost. */
  lemma OverlappingEnqueuesLoseOne(s: State, c: nat, d: nat, m: Mutation, n: Mutation)
    requires s.sync.Idle? && c !in s.calls && d !in s.calls && c != d && m != n
    requires m !in s.storage + s.sent + s.dropped + s.removed
    ensures var es := [Open(c, Add(m), true)] + [Open(d, Add(n), true)] + [Close(c, true)] + [Close(d, true)];
            && IsRun(s, es)
            && var t := Run(s, es);
               m in t.enqueued && m !in t.storage + t.sent + t.dropped + t.removed && t.sync.Idle? && t.calls == s.calls
  {
    var e1, e2, e3, e4 := Open(c, Add(m), true), Open(d, Add(n), true), Close(c, true), Close(d, true);
    var s1 := Step(s, e1);
    var s2 := Step(s1, e2);
    var s3 := Step(s2, e3);
    OneEvent(s, e1);
    OneEvent(s1, e2);
    RunConcat(s, [e1], [e2]);
    OneEvent(s2, e3);
    RunConcat(s, [e1] + [e2], [e3]);
    OneEvent(s3, e4);
    RunConcat(s, [e1] + [e2] + [e3], [e4]);
    assert Step(s3, e4).calls == s.calls;
    assert m in s3.enqueued;
  }

  /** m is stored, if at all, behind the back of the running sync. */
  predicate Overlooked(s: State, m: Mutation) {
    s.sync.Syncing? && m !in Live(s) && m !in s.sent
  }

  /** No open call will write m. */
  predicate NotInHand(s: State, m: Mutation) {
    forall c :: c in s.calls ==> m !in s.calls[c].queue && s.calls[c].op != Add(m)
  }

  /** m is nowhere it could still be sent from. */
  predicate Gone(s: State, m: Mutation) {
    m !in s.storage && m !in Live(s) && m !in s.sent && NotInHand(s, m)
  }

  predicate NoEndOfSync(es: seq<Event>) {
    forall k :: 0 <= k < |es| ==> !es[k].EndSync?
  }

  predicate NoEnqueueOf(es: seq<Event>, m: Mutation) {
    forall k :: 0 <= k < |es| && es[k].Open? ==> es[k].op != Add(m)
  }

  lemma {:induction false} StaysOverlooked(s: State, es: seq<Event>, m: Mutation)
    requires Overlooked(s, m) && IsRun(s, es) && NoEndOfSync(es)
    ensures Overlooked(Run(s, es), m)
    decreases |es|
  {
    if es != [] {
      assert Overlooked(Step(s, es[0]), m);
      StaysOverlooked(Step(s, es[0]), es[1..], m);
    }
  }

  lemma StepKeepsGone(s: State, e: Event, m: Mutation)
    requires Gone(s, m) && Enabled(s, e) && (e.Open? ==> e.op != Add(m))
    ensures Gone(Step(s, e), m)
  {
    if e.Close? && s.calls[e.c].op.Delete? {
      FilterSplits(s.calls[e.c].queue, s.calls[e.c].op.id);
      assert m !in multiset(s.calls[e.c].queue);
    }
  }

  lemma {:induction false} StaysGone(s: State, es: seq<Event>, m: Mutation)
    requires Gone(s, m) && IsRun(s, es) && NoEnqueueOf(es, m)
    ensures Gone(Run(s, es), m)
    decreases |es|
  {
    if es != [] {
      StepKeepsGone(s, es[0], m);
      StaysGone(Step(s, es[0]), es[1..], m);
    }
  }

  /** A mutation enqueued while a sync is running is never sent: not by that sync, whatever
      else is enqueued or removed until it ends, and after the sync has written its queue not
      by any later one either, unless an enqueue or removal that has read it still has to write. */
  lemma EnqueuedDuringSyncIsNeverSent(s: State, m: Mutation, es: seq<Event>, fs: seq<Event>)
    requires Overlooked(s, m) && IsRun(s, es) && NoEndOfSync(es)
    requires NotInHand(Run(s, es), m) && Enabled(Run(s, es), EndSync(true))
    requires IsRun(Step(Run(s, es), EndSync(true)), fs) && NoEnqueueOf(fs, m)
    ensures Overlooked(Run(s, es), m) && Gone(Run(Step(Run(s, es), EndSync(true)), fs), m)
  {
    StaysOverlooked(s, es, m);
    StaysGone(Step(Run(s, es), EndSync(true)), fs, m);
  }

  /** With nothing else interleaved, a new mutation enqueued at any moment of a sync survives
      exactly if the write that ends the sync fails; otherwise it is in no place at all. */
  lemma EnqueuedDuringSyncIsLost(s: State, c: nat, m: Mutation, outcomes: seq<bool>, saveOk: bool)
    requires s.sync.Syncing? && |outcomes| == |s.sync.todo| && c !in s.calls
    requires m !in s.storage + Live(s) + s.sent + s.dropped + s.removed
    ensures var es := CallTrace(c, Add(m), true, true) + (Sends(outcomes) + [EndSync(saveOk)]);
            && IsRun(s, es)
            && var t := Run(s, es);
               && m in t.enqueued && t.sync.Idle? && m !in t.sent + t.dropped + t.removed
               && (m in t.storage <==> !saveOk)
  {
    CallIsItsSteps(s, c, Add(m), true, true);
    var t := Run(s, CallTrace(c, Add(m), true, true));
    SyncEnds(t, outcomes, saveOk);
    RunConcat(s, CallTrace(c, Add(m), true, true), Sends(outcomes) + [EndSync(saveOk)]);
    PartsOf(s.sync.todo, outcomes, m);
  }

  lemma {:induction false} PartsOf(q: seq<Mutation>, outcomes: seq<bool>, m: Mutation)
    requires |outcomes| == |q| && m !in q
    ensures m !in Unsent(q, outcomes) && m !in Delivered(q, outcomes)
  {
    if q != [] {
      PartsOf(q[..|q| - 1], outcomes[..|q| - 1], m);
    }
  }

  // ---- Order and size, over every run ----

  /** idx places a inside b, in order. */
  predicate Embeds(a: seq<Mutation>, b: seq<Mutation>, idx: seq<nat>) {
    && |idx| == |a|
    && (forall k :: 0 <= k < |a| ==> idx[k] < |b| && b[idx[k]] == a[k])
    && forall j, k :: 0 <= j < k < |idx| ==> idx[j] < idx[k]
  }

  ghost predicate IsSubsequence(a: seq<Mutation>, b: seq<Mutation>) {
    exists idx: seq<nat> :: Embeds(a, b, idx)
  }

  lemma SubsequenceOfSubsequence(a: seq<Mutation>, b: seq<Mutation>, c: seq<Mutation>)
    requires IsSubsequence(a, b) && IsSubsequence(b, c)
    ensures IsSubsequence(a, c)
  {
    var i: seq<nat> :| Embeds(a, b, i);
    var j: seq<nat> :| Embeds(b, c, j);
    assert Embeds(a, c, seq(|a|, k requires 0 <= k < |a| => j[i[k]]));
  }

  lemma SubsequenceAppend(a: seq<Mutation>, b: seq<Mutation>, m: Mutation)
    requires IsSubsequence(a, b)
    ensures IsSubsequence(a, b + [m]) && IsSubsequence(a + [m], b + [m])
  {
    var i: seq<nat> :| Embeds(a, b, i);
    assert Embeds(a, b + [m], i);
    assert Embeds(a + [m], b + [m], i + [|b|]);
  }

  /** Leaving out a stretch in the middle. */
  lemma SubsequenceCut(b: seq<Mutation>, lo: nat, hi: nat)
    requires lo <= hi <= |b|
    ensures IsSubsequence(b[..lo] + b[hi..], b)
  {
    assert Embeds(b[..lo] + b[hi..], b, seq(lo + |b| - hi, k => if k < lo then k else k + hi - lo));
  }

  lemma SubsequenceCons(a: seq<Mutation>, b: seq<Mutation>, m: Mutation)
    requires IsSubsequence(a, b)
    ensures IsSubsequence(a, [m] + b) && IsSubsequence([m] + a, [m] + b)
  {
    var i: seq<nat> :| Embeds(a, b, i);
    var shifted: seq<nat> := seq(|i|, k requires 0 <= k < |i| => i[k] + 1);
    assert Embeds(a, [m] + b, shifted);
    assert Embeds([m] + a, [m] + b, [0] + shifted);
  }

  lemma {:induction false} OthersIsSubsequence(q: seq<Mutation>, id: string)
    ensures IsSubsequence(Others(q, id), q)
  {
    if q == [] {
      assert Embeds([], [], []);
    } else {
      OthersIsSubsequence(q[1..], id);
      SubsequenceCons(Others(q[1..], id), q[1..], q[0]);
      assert q == [q[0]] + q[1..] && [] + Others(q[1..], id) == Others(q[1..], id);
    }
  }

  /** A queue that respects the order of enqueueing and the cap. */
  ghost predicate Fits(q: seq<Mutation>, enqueued: seq<Mutation>) {
    IsSubsequence(q, enqueued) && |q| <= 100
  }

  ghost predicate InOrder(s: State) {
    && Fits(s.storage, s.enqueued)
    && Fits(Live(s), s.enqueued)
    && forall c :: c in s.calls ==> Fits(s.calls[c].queue, s.enqueued)
  }

  lemma NothingFits(enqueued: seq<Mutation>)
    ensures Fits([], enqueued)
  {
    assert Embeds([], enqueued, []);
  }

  lemma AddFits(q: seq<Mutation>, enqueued: seq<Mutation>, m: Mutation)
    requires Fits(q, enqueued)
    ensures Fits(q[Overflow(q)..] + [m], enqueued + [m]) && Fits(q, enqueued + [m])
  {
    var k := Overflow(q);
    SubsequenceCut(q, 0, k);
    assert q[..0] + q[k..] == q[k..];
    SubsequenceOfSubsequence(q[k..], q, enqueued);
    SubsequenceAppend(q[k..], enqueued, m);
    SubsequenceAppend(q, enqueued, m);
  }

  lemma DeleteFits(q: seq<Mutation>, enqueued: seq<Mutation>, id: string)
    requires Fits(q, enqueued)
    ensures Fits(Others(q, id), enqueued)
  {
    OthersIsSubsequence(q, id);
    SubsequenceOfSubsequence(Others(q, id), q, enqueued);
    FilterSplits(q, id);
    assert |multiset(Others(q, id))| <= |multiset(Others(q, id)) + multiset(WithId(q, id))|;
  }

  lemma CloseKeepsOrder(s: State, c: nat)
    requires InOrder(s) && Enabled(s, Close(c, true))
    ensures InOrder(Step(s, Close(c, true)))
  {
    hide Fits;
    match s.calls[c].op
    case Add(m) =>
      AddFits(s.calls[c].queue, s.enqueued, m);
      AddFits(Live(s), s.enqueued, m);
      forall d | d in s.calls ensures Fits(s.calls[d].queue, s.enqueued + [m]) {
        AddFits(s.calls[d].queue, s.enqueued, m);
      }
    case Delete(id) =>
      DeleteFits(s.calls[c].queue, s.enqueued, id);
  }

  lemma SendKeepsOrder(s: State, ok: bool)
    requires InOrder(s) && Enabled(s, SendNext(ok))
    ensures InOrder(Step(s, SendNext(ok)))
  {
    var r, live, live' := s.sync.remaining, Live(s), Live(Step(s, SendNext(ok)));
    if ok {
      assert live[..|r|] + live[|r| + 1..] == live';
      SubsequenceCut(live, |r|, |r| + 1);
      SubsequenceOfSubsequence(live', live, s.enqueued);
    } else {
      assert live' == live;
    }
  }

  lemma StepKeepsOrder(s: State, e: Event)
    requires InOrder(s) && Enabled(s, e)
    ensures InOrder(Step(s, e))
  {
    hide Fits;
    match e
    case Open(_, _, _) => NothingFits(s.enqueued);
    case Close(c, saveOk) => if saveOk { CloseKeepsOrder(s, c); }
    case BeginSync(_) => assert [] + s.storage == s.storage;
    case SendNext(ok) => SendKeepsOrder(s, ok);
    case EndSync(_) => assert Live(s) == s.sync.remaining;
  }

  /** Over every run, failing storage and interleaved syncs included: the queue holds at most
      100 mutations, and holds them in the order in which they were enqueued. */
  lemma {:induction false} OrderAndSizeOverRuns(s: State, es: seq<Event>)
    requires InOrder(s) && IsRun(s, es)
    ensures InOrder(Run(s, es))
    decreases |es|
  {
    if es != [] {
      StepKeepsOrder(s, es[0]);
      OrderAndSizeOverRuns(Step(s, es[0]), es[1..]);
    }
  }

  lemma EmptyIsInOrder()
    ensures InOrder(EMPTY) && Balanced(EMPTY) && OneAtATime(EMPTY)
  {
    assert Embeds([], [], []);
  }
}
