/** The 401 interceptor of the shared API client.

    The JavaScript event loop runs one handler at a time and switches only at an await, so
    the client is a state machine whose steps are: a request is first sent, a response
    reaches the interceptor, the running token refresh succeeds, or it fails.  State and
    Step are the specification; ApiClient is the client with its closure variables updated
    in place, every handler proved to perform exactly one Step. */
module TokenRefresh {
  import opened Common

  type Token = string

  /** What the server, or the network, answers to one send. */
  datatype Response = Success | Failure(status: Option<int>, hasConfig: bool)

  datatype Phase = Unsent | InFlight | Queued | Leading | Resolved | Rejected

  /** One request made through the client: where it is, the retry mark on its config, its
      Authorization header, and how often its promise has been settled. */
  datatype Request = Request(phase: Phase, retry: bool, authorization: Option<Token>, settlements: nat) {

    function Resent(token: Token): Request {
      this.(phase := InFlight, authorization := Some(token))
    }

    function Settled(outcome: Phase): Request {
      this.(phase := outcome, settlements := settlements + 1)
    }
  }

  datatype State = State(
    requests: seq<Request>,
    isRefreshing: bool,
    pendingQueue: seq<nat>,
    sends: nat,
    refreshes: nat,
    unauthorizedCalls: nat)

  datatype Event =
    | Start(i: nat)
    | Respond(i: nat, response: Response)
    | RefreshOk(i: nat, token: Token)
    | RefreshFail(i: nat)

  // ---- Steps ----

  predicate Enabled(s: State, e: Event) {
    && e.i < |s.requests|
    && match e
       case Start(i) => s.requests[i].phase.Unsent?
       case Respond(i, _) => s.requests[i].phase.InFlight?
       case RefreshOk(i, _) => s.requests[i].phase.Leading?
       case RefreshFail(i) => s.requests[i].phase.Leading?
  }

  predicate InRange(queue: seq<nat>, n: nat) {
    forall k :: 0 <= k < |queue| ==> queue[k] < n
  }

  predicate IsUnauthorized(r: Response) {
    r.Failure? && r.status == Some(401)
  }

  /** The interceptor's decision for one response. */
  function OnResponse(canRefresh: bool, s: State, i: nat, response: Response): State
    requires i < |s.requests|
  {
    var r := s.requests[i];
    if response.Success? then
      s.(requests := s.requests[i := r.Settled(Resolved)])
    else if !IsUnauthorized(response) || !response.hasConfig || r.retry then
      s.(requests := s.requests[i := r.Settled(Rejected)],
         unauthorizedCalls := s.unauthorizedCalls + if IsUnauthorized(response) then 1 else 0)
    else if !canRefresh then
      s.(requests := s.requests[i := r.Settled(Rejected)], unauthorizedCalls := s.unauthorizedCalls + 1)
    else if s.isRefreshing then
      s.(requests := s.requests[i := r.(phase := Queued)], pendingQueue := s.pendingQueue + [i])
    else
      s.(requests := s.requests[i := r.(phase := Leading, retry := true)],
         isRefreshing := true, refreshes := s.refreshes + 1)
  }

  /** Waiters are resent, first come first served, with the new token. */
  function Drained(requests: seq<Request>, queue: seq<nat>, token: Token): (rs: seq<Request>)
    requires InRange(queue, |requests|)
    ensures |rs| == |requests|
    decreases |queue|
  {
    if queue == [] then requests
    else Drained(requests[queue[0] := requests[queue[0]].Resent(token)], queue[1..], token)
  }

  function AllRejected(requests: seq<Request>, queue: seq<nat>): (rs: seq<Request>)
    requires InRange(queue, |requests|)
    ensures |rs| == |requests|
    decreases |queue|
  {
    if queue == [] then requests
    else AllRejected(requests[queue[0] := requests[queue[0]].Settled(Rejected)], queue[1..])
  }

  function Step(canRefresh: bool, s: State, e: Event): (t: State)
    requires InRange(s.pendingQueue, |s.requests|) && e.i < |s.requests|
    ensures InRange(t.pendingQueue, |t.requests|)
  {
    match e
    case Start(i) =>
      s.(requests := s.requests[i := s.requests[i].(phase := InFlight)], sends := s.sends + 1)
    case Respond(i, response) =>
      OnResponse(canRefresh, s, i, response)
    case RefreshOk(i, token) =>
      var drained := Drained(s.requests, s.pendingQueue, token);
      s.(requests := drained[i := drained[i].Resent(token)],
         isRefreshing := false, pendingQueue := [], sends := s.sends + |s.pendingQueue| + 1)
    case RefreshFail(i) =>
      var rejected := AllRejected(s.requests, s.pendingQueue);
      s.(requests := rejected[i := rejected[i].Settled(Rejected)],
         isRefreshing := false, pendingQueue := [], unauthorizedCalls := s.unauthorizedCalls + 1)
  }

  // ---- The client ----

  class ApiClient {
    /** Whether both getRefreshToken and saveAccessToken are configured. */
    const canRefresh: bool
    var requests: seq<Request>
    var isRefreshing: bool
    var pendingQueue: seq<nat>
    var sends: nat
    var refreshes: nat
    var unauthorizedCalls: nat

    ghost function Abs(): State
      reads this
    {
      State(requests, isRefreshing, pendingQueue, sends, refreshes, unauthorizedCalls)
    }

    ghost predicate Valid()
      reads this
    {
      Inv(Abs())
    }

    constructor (canRefresh: bool, n: nat)
      ensures Valid() && Abs() == Initial(n) && this.canRefresh == canRefresh
    {
      this.canRefresh := canRefresh;
      requests := seq(n, _ => Request(Unsent, false, None, 0));
      isRefreshing, pendingQueue := false, [];
      sends, refreshes, unauthorizedCalls := 0, 0, 0;
      new;
      InitialInv(n);
      assert requests == Initial(n).requests;
    }

    method Send(i: nat)
      requires Valid() && i < |requests| && requests[i].phase.Unsent?
      modifies this
      ensures Valid() && Abs() == Step(canRefresh, old(Abs()), Start(i))
    {
      StepKeepsInv(canRefresh, Abs(), Start(i));
      requests := requests[i := requests[i].(phase := InFlight)];
      sends := sends + 1;
    }

    method DrainQueue(token: Token)
      requires InRange(pendingQueue, |requests|)
      modifies this`requests, this`pendingQueue, this`sends
      ensures requests == Drained(old(requests), old(pendingQueue), token)
      ensures pendingQueue == [] && sends == old(sends) + |old(pendingQueue)|
    {
      var k := 0;
      while k < |pendingQueue|
        invariant 0 <= k <= |pendingQueue| && pendingQueue == old(pendingQueue)
        invariant |requests| == |old(requests)| && sends == old(sends) + k
        invariant Drained(requests, pendingQueue[k..], token) == Drained(old(requests), pendingQueue, token)
      {
        var i := pendingQueue[k];
        requests := requests[i := requests[i].Resent(token)];
        sends := sends + 1;
        assert pendingQueue[k..][1..] == pendingQueue[k + 1..];
        k := k + 1;
      }
      pendingQueue := [];
    }

    method RejectQueue()
      requires InRange(pendingQueue, |requests|)
      modifies this`requests, this`pendingQueue
      ensures requests == AllRejected(old(requests), old(pendingQueue))
      ensures pendingQueue == []
    {
      var k := 0;
      while k < |pendingQueue|
        invariant 0 <= k <= |pendingQueue| && pendingQueue == old(pendingQueue)
        invariant |requests| == |old(requests)|
        invariant AllRejected(requests, pendingQueue[k..]) == AllRejected(old(requests), pendingQueue)
      {
        var i := pendingQueue[k];
        requests := requests[i := requests[i].Settled(Rejected)];
        assert pendingQueue[k..][1..] == pendingQueue[k + 1..];
        k := k + 1;
      }
      pendingQueue := [];
    }

    /** The response interceptor, up to its first await. */
    method Intercept(i: nat, response: Response)
      requires Valid() && i < |requests| && requests[i].phase.InFlight?
      modifies this
      ensures Valid() && Abs() == Step(canRefresh, old(Abs()), Respond(i, response))
    {
      StepKeepsInv(canRefresh, Abs(), Respond(i, response));
      var original := requests[i];
      if response.Success? {
        requests := requests[i := original.Settled(Resolved)];
        return;
      }
      if response.status != Some(401) || !response.hasConfig || original.retry {
        if response.status == Some(401) {
          unauthorizedCalls := unauthorizedCalls + 1;
        }
        requests := requests[i := original.Settled(Rejected)];
        return;
      }
      if !canRefresh {
        unauthorizedCalls := unauthorizedCalls + 1;
        requests := requests[i := original.Settled(Rejected)];
        return;
      }
      if isRefreshing {
        requests := requests[i := original.(phase := Queued)];
        pendingQueue := pendingQueue + [i];
        return;
      }
      requests := requests[i := original.(phase := Leading, retry := true)];
      isRefreshing := true;
      refreshes := refreshes + 1;
    }

    /** The leader resumes after its awaits: the new token, or None when one of them threw. */
    method Resume(i: nat, refreshed: Option<Token>)
      requires Valid() && i < |requests| && requests[i].phase.Leading?
      modifies this
      ensures Valid()
      ensures Abs() == Step(canRefresh, old(Abs()),
                            match refreshed case Some(token) => RefreshOk(i, token) case None => RefreshFail(i))
    {
      match refreshed {
        case Some(token) =>
          StepKeepsInv(canRefresh, Abs(), RefreshOk(i, token));
          DrainQueue(token);
          requests := requests[i := requests[i].Resent(token)];
          sends := sends + 1;
        case None =>
          StepKeepsInv(canRefresh, Abs(), RefreshFail(i));
          RejectQueue();
          unauthorizedCalls := unauthorizedCalls + 1;
          requests := requests[i := requests[i].Settled(Rejected)];
      }
      isRefreshing := false;
    }
  }

  // ---- What every step keeps ----

  predicate NoDuplicates(q: seq<nat>) {
    forall j, k :: 0 <= j < k < |q| ==> q[j] != q[k]
  }

  predicate SettledOnce(r: Request) {
    r.settlements == if r.phase.Resolved? || r.phase.Rejected? then 1 else 0
  }

  predicate Leads(s: State, i: nat) {
    i < |s.requests| && s.requests[i].phase.Leading?
  }

  ghost predicate Inv(s: State) {
    && InRange(s.pendingQueue, |s.requests|)
    && NoDuplicates(s.pendingQueue)
    && (forall i :: 0 <= i < |s.requests| ==> SettledOnce(s.requests[i]))
    // at most one refresh, run by a marked leader, and only then is there a queue
    && (forall i: nat, j: nat :: Leads(s, i) && Leads(s, j) ==> i == j)
    && (forall i: nat :: Leads(s, i) ==> s.isRefreshing && s.requests[i].retry)
    && (s.isRefreshing ==> exists i: nat :: Leads(s, i))
    && (!s.isRefreshing ==> s.pendingQueue == [])
    // the queue holds exactly the waiting requests, none of them marked
    && (forall i: nat :: i < |s.requests| ==> (i in s.pendingQueue <==> s.requests[i].phase.Queued?))
    && (forall i :: 0 <= i < |s.requests| && s.requests[i].phase.Queued? ==> !s.requests[i].retry)
  }

  function Initial(n: nat): State {
    State(seq(n, _ => Request(Unsent, false, None, 0)), false, [], 0, 0, 0)
  }

  lemma InitialInv(n: nat)
    ensures Inv(Initial(n))
  {
  }

  /** Draining touches exactly the queued requests and gives each the new token. */
  lemma {:induction false} DrainedAt(requests: seq<Request>, queue: seq<nat>, token: Token)
    requires InRange(queue, |requests|)
    requires NoDuplicates(queue)
    ensures forall j: nat :: j < |requests| ==>
              Drained(requests, queue, token)[j]
              == if j in queue then requests[j].Resent(token) else requests[j]
    decreases |queue|
  {
    if queue != [] {
      DrainedAt(requests[queue[0] := requests[queue[0]].Resent(token)], queue[1..], token);
      assert queue == [queue[0]] + queue[1..];
    }
  }

  lemma {:induction false} AllRejectedAt(requests: seq<Request>, queue: seq<nat>)
    requires InRange(queue, |requests|)
    requires NoDuplicates(queue)
    ensures forall j: nat :: j < |requests| ==>
              AllRejected(requests, queue)[j]
              == if j in queue then requests[j].Settled(Rejected) else requests[j]
    decreases |queue|
  {
    if queue != [] {
      AllRejectedAt(requests[queue[0] := requests[queue[0]].Settled(Rejected)], queue[1..]);
      assert queue == [queue[0]] + queue[1..];
    }
  }

  /** Successful refresh: the leader and every waiter, and nobody else, are back in flight
      with the new token; nothing is settled. */
  lemma RefreshOkResendsEveryWaiter(canRefresh: bool, s: State, i: nat, token: Token)
    requires Inv(s) && Enabled(s, RefreshOk(i, token))
    ensures var t := Step(canRefresh, s, RefreshOk(i, token));
            && |t.requests| == |s.requests| && t.sends == s.sends + 1 + |s.pendingQueue|
            && forall j: nat :: j < |s.requests| ==>
                 t.requests[j] == if j == i || s.requests[j].phase.Queued?
                                  then Request(InFlight, s.requests[j].retry, Some(token), s.requests[j].settlements)
                                  else s.requests[j]
  {
    DrainedAt(s.requests, s.pendingQueue, token);
  }

  /** Failed refresh: the leader and every waiter, and nobody else, are rejected; the
      unauthorized callback is called once, however many were waiting. */
  lemma RefreshFailRejectsEveryWaiter(canRefresh: bool, s: State, i: nat)
    requires Inv(s) && Enabled(s, RefreshFail(i))
    ensures var t := Step(canRefresh, s, RefreshFail(i));
            && |t.requests| == |s.requests|
            && t.unauthorizedCalls == s.unauthorizedCalls + 1
            && forall j: nat :: j < |s.requests| ==>
                 t.requests[j] == if j == i || s.requests[j].phase.Queued?
                                  then Request(Rejected, s.requests[j].retry, s.requests[j].authorization, 1)
                                  else s.requests[j]
  {
    AllRejectedAt(s.requests, s.pendingQueue);
  }

  predicate IsSettled(r: Request) {
    r.phase.Resolved? || r.phase.Rejected?
  }

  /** A response settles its request unless it is a 401 that may still be refreshed away, and
      touches no other; a settled request was resolved by success only; one that is not settled
      leads the refresh, marked, or joins the end of the queue; and the unauthorized callback is
      called exactly when a 401 settles. */
  lemma ResponseOutcome(canRefresh: bool, s: State, i: nat, response: Response)
    requires Inv(s) && Enabled(s, Respond(i, response))
    ensures var t := Step(canRefresh, s, Respond(i, response));
            var unauthorized := response.Failure? && response.status == Some(401);
            var refreshable := unauthorized && response.hasConfig && !s.requests[i].retry && canRefresh;
            && |t.requests| == |s.requests| && t.sends == s.sends
            && (forall j :: 0 <= j < |s.requests| && j != i ==> t.requests[j] == s.requests[j])
            && (IsSettled(t.requests[i]) <==> !refreshable)
            && (t.requests[i].phase.Resolved? <==> response.Success?)
            && (t.requests[i].phase.Leading? <==> refreshable && !s.isRefreshing)
            && t.requests[i].retry == (s.requests[i].retry || t.requests[i].phase.Leading?)
            && t.requests[i].authorization == s.requests[i].authorization
            && t.pendingQueue == s.pendingQueue + (if t.requests[i].phase.Queued? then [i] else [])
            && t.refreshes - s.refreshes == (if t.requests[i].phase.Leading? then 1 else 0)
            && t.unauthorizedCalls - s.unauthorizedCalls
               == if unauthorized && IsSettled(t.requests[i]) then 1 else 0
  {
  }

  lemma StepKeepsInv(canRefresh: bool, s: State, e: Event)
    requires Inv(s) && Enabled(s, e)
    ensures Inv(Step(canRefresh, s, e))
  {
    var t := Step(canRefresh, s, e);
    match e
    case Start(i) =>
      assert forall j: nat :: Leads(t, j) <==> Leads(s, j);
    case Respond(i, response) =>
      RespondKeepsInv(canRefresh, s, i, response);
    case RefreshOk(i, token) =>
      RefreshOkResendsEveryWaiter(canRefresh, s, i, token);
      assert Leads(s, i);
      assert forall j: nat :: Leads(t, j) ==> Leads(s, j);
    case RefreshFail(i) =>
      RefreshFailRejectsEveryWaiter(canRefresh, s, i);
      assert Leads(s, i);
      assert forall j: nat :: Leads(t, j) ==> Leads(s, j);
  }

  lemma RespondKeepsInv(canRefresh: bool, s: State, i: nat, response: Response)
    requires Inv(s) && Enabled(s, Respond(i, response))
    ensures Inv(Step(canRefresh, s, Respond(i, response)))
  {
    var t := Step(canRefresh, s, Respond(i, response));
    assert t.requests == s.requests[i := t.requests[i]];
    assert forall j: nat :: Leads(t, j) ==> j == i || Leads(s, j);
    if !s.isRefreshing {
      assert t.isRefreshing ==> Leads(t, i);
    } else {
      var leader: nat :| Leads(s, leader);
      assert Leads(t, leader);
    }
  }

  // ---- Runs ----

  /** The events of es are enabled one after the other. */
  predicate IsRun(canRefresh: bool, s: State, es: seq<Event>)
    requires InRange(s.pendingQueue, |s.requests|)
    decreases |es|
  {
    es == [] || (Enabled(s, es[0]) && IsRun(canRefresh, Step(canRefresh, s, es[0]), es[1..]))
  }

  /** The state after a run. */
  function Run(canRefresh: bool, s: State, es: seq<Event>): State
    requires InRange(s.pendingQueue, |s.requests|) && IsRun(canRefresh, s, es)
    decreases |es|
  {
    if es == [] then s else Run(canRefresh, Step(canRefresh, s, es[0]), es[1..])
  }

  /** The invariant holds wherever a run leads, and nothing about the run is assumed but that
      each event was possible when it happened. */
  lemma {:induction false} RunKeepsInv(canRefresh: bool, s: State, es: seq<Event>)
    requires Inv(s) && IsRun(canRefresh, s, es)
    ensures Inv(Run(canRefresh, s, es))
    decreases |es|
  {
    if es != [] {
      StepKeepsInv(canRefresh, s, es[0]);
      RunKeepsInv(canRefresh, Step(canRefresh, s, es[0]), es[1..]);
    }
  }

  function Unmarked(s: State): set<nat> {
    set i: nat | i < |s.requests| && !s.requests[i].retry
  }

  function UnsentSet(s: State): set<nat> {
    set i: nat | i < |s.requests| && s.requests[i].phase.Unsent?
  }

  function InFlightSet(s: State): set<nat> {
    set i: nat | i < |s.requests| && s.requests[i].phase.InFlight?
  }

  function Triangle(u: nat): nat {
    if u == 0 then 0 else u + Triangle(u - 1)
  }

  /** Sends made plus the sends still possible: every unmarked request may lead once, and a
      successful refresh resends its leader and at most every request still unmarked. */
  function SendBudget(s: State): nat {
    s.sends + |UnsentSet(s)| + Triangle(|Unmarked(s)|)
    + if s.isRefreshing then |Unmarked(s)| + 1 else 0
  }

  /** A measure that every step lowers. */
  function StepBudget(s: State): nat {
    2 * |UnsentSet(s)| + |InFlightSet(s)| + Triangle(|Unmarked(s)|) + |Unmarked(s)|
    + if s.isRefreshing then |Unmarked(s)| + 2 else 0
  }

  lemma {:induction false} SizeOfSeq(q: seq<nat>, t: set<nat>)
    requires NoDuplicates(q)
    requires forall k :: 0 <= k < |q| ==> q[k] in t
    ensures |q| <= |t|
  {
    if q != [] {
      SizeOfSeq(q[1..], t - {q[0]});
    }
  }

  ghost predicate Spends(s: State, t: State) {
    && SendBudget(t) <= SendBudget(s)
    && StepBudget(t) < StepBudget(s)
    && t.refreshes + |Unmarked(t)| == s.refreshes + |Unmarked(s)|
  }

  lemma RespondSpends(canRefresh: bool, s: State, i: nat, response: Response)
    requires Inv(s) && Enabled(s, Respond(i, response))
    ensures Spends(s, Step(canRefresh, s, Respond(i, response)))
  {
    var t := Step(canRefresh, s, Respond(i, response));
    assert t.requests == s.requests[i := t.requests[i]];
    hide Step;
    hide OnResponse;
    assert UnsentSet(t) == UnsentSet(s);
    assert InFlightSet(t) == InFlightSet(s) - {i};
    if t.requests[i].phase.Leading? {
      assert Unmarked(t) == Unmarked(s) - {i};
    } else {
      assert Unmarked(t) == Unmarked(s);
    }
  }

  lemma RefreshOkSpends(canRefresh: bool, s: State, i: nat, token: Token)
    requires Inv(s) && Enabled(s, RefreshOk(i, token))
    ensures Spends(s, Step(canRefresh, s, RefreshOk(i, token)))
  {
    var t := Step(canRefresh, s, RefreshOk(i, token));
    RefreshOkResendsEveryWaiter(canRefresh, s, i, token);
    assert Leads(s, i);
    var waiters := set j: nat | j < |s.requests| && s.requests[j].phase.Queued?;
    assert Unmarked(t) == Unmarked(s);
    assert UnsentSet(t) == UnsentSet(s);
    assert InFlightSet(t) == InFlightSet(s) + {i} + waiters;
    assert waiters <= Unmarked(s);
    SizeOfSeq(s.pendingQueue, Unmarked(s));
    SubsetSize(waiters, Unmarked(s));
  }

  lemma RefreshFailSpends(canRefresh: bool, s: State, i: nat)
    requires Inv(s) && Enabled(s, RefreshFail(i))
    ensures Spends(s, Step(canRefresh, s, RefreshFail(i)))
  {
    var t := Step(canRefresh, s, RefreshFail(i));
    RefreshFailRejectsEveryWaiter(canRefresh, s, i);
    assert Leads(s, i);
    assert Unmarked(t) == Unmarked(s);
    assert UnsentSet(t) == UnsentSet(s);
    assert InFlightSet(t) == InFlightSet(s);
  }

  lemma StepSpendsBudget(canRefresh: bool, s: State, e: Event)
    requires Inv(s) && Enabled(s, e)
    ensures Spends(s, Step(canRefresh, s, e))
  {
    match e
    case Start(i) =>
      var t := Step(canRefresh, s, e);
      assert Unmarked(t) == Unmarked(s);
      assert UnsentSet(t) == UnsentSet(s) - {i};
      assert InFlightSet(t) == InFlightSet(s) + {i};
    case Respond(i, response) => RespondSpends(canRefresh, s, i, response);
    case RefreshOk(i, token) => RefreshOkSpends(canRefresh, s, i, token);
    case RefreshFail(i) => RefreshFailSpends(canRefresh, s, i);
  }

  lemma SubsetSize(a: set<nat>, b: set<nat>)
    requires a <= b
    ensures |a| <= |b|
  {
    assert b == a + (b - a);
  }

  lemma {:induction false} RunSpendsBudget(canRefresh: bool, s: State, es: seq<Event>)
    requires Inv(s) && IsRun(canRefresh, s, es)
    ensures var t := Run(canRefresh, s, es);
            && SendBudget(t) <= SendBudget(s)
            && |es| + StepBudget(t) <= StepBudget(s)
            && t.refreshes + |Unmarked(t)| == s.refreshes + |Unmarked(s)|
    decreases |es|
  {
    if es != [] {
      StepKeepsInv(canRefresh, s, es[0]);
      StepSpendsBudget(canRefresh, s, es[0]);
      RunSpendsBudget(canRefresh, Step(canRefresh, s, es[0]), es[1..]);
    }
  }

  lemma {:induction false} SizeOfInterval(n: nat, t: set<nat>)
    requires forall i: nat :: i in t <==> i < n
    ensures |t| == n
  {
    if n == 0 {
      assert t == {};
    } else {
      SizeOfInterval(n - 1, t - {n - 1});
    }
  }

  lemma {:induction false} TriangleClosedForm(u: nat)
    ensures 2 * Triangle(u) == u * (u + 1)
  {
    if u > 0 {
      TriangleClosedForm(u - 1);
    }
  }

  lemma InitialBudget(n: nat)
    ensures SendBudget(Initial(n)) == n + Triangle(n)
    ensures StepBudget(Initial(n)) == 3 * n + Triangle(n)
    ensures |Unmarked(Initial(n))| == n
  {
    var s := Initial(n);
    SizeOfInterval(n, Unmarked(s));
    SizeOfInterval(n, UnsentSet(s));
    assert InFlightSet(s) == {};
  }

  /** For n requests and every behaviour of the server: at most n refreshes are started,
      at most n + n(n+1)/2 requests are sent, and the run has a bounded length. */
  lemma SendsAreBounded(canRefresh: bool, n: nat, es: seq<Event>)
    requires IsRun(canRefresh, Initial(n), es)
    ensures var t := Run(canRefresh, Initial(n), es);
            && t.refreshes <= n
            && t.sends <= n + n * (n + 1) / 2
            && |es| <= 3 * n + n * (n + 1) / 2
  {
    InitialInv(n);
    InitialBudget(n);
    RunSpendsBudget(canRefresh, Initial(n), es);
    TriangleClosedForm(n);
  }

  /** A settled request is never touched again, whatever the rest of the run does. */
  lemma {:induction false} SettledIsFinal(canRefresh: bool, s: State, es: seq<Event>, j: nat)
    requires Inv(s) && IsRun(canRefresh, s, es) && j < |s.requests| && IsSettled(s.requests[j])
    ensures var t := Run(canRefresh, s, es);
            |t.requests| == |s.requests| && t.requests[j] == s.requests[j]
    decreases |es|
  {
    if es != [] {
      match es[0] {
        case Start(_) =>
        case Respond(_, _) =>
        case RefreshOk(i, token) => RefreshOkResendsEveryWaiter(canRefresh, s, i, token);
        case RefreshFail(i) => RefreshFailRejectsEveryWaiter(canRefresh, s, i);
      }
      StepKeepsInv(canRefresh, s, es[0]);
      SettledIsFinal(canRefresh, Step(canRefresh, s, es[0]), es[1..], j);
    }
  }

  /** No waiter is stranded: wherever a run has stopped because nothing can happen any more,
      every request's promise has been settled, and settled once. */
  lemma NothingIsStranded(canRefresh: bool, n: nat, es: seq<Event>)
    requires IsRun(canRefresh, Initial(n), es)
    requires forall e :: !Enabled(Run(canRefresh, Initial(n), es), e)
    ensures var t := Run(canRefresh, Initial(n), es);
            && |t.requests| == n && !t.isRefreshing && t.pendingQueue == []
            && forall i :: 0 <= i < n ==> IsSettled(t.requests[i]) && t.requests[i].settlements == 1
  {
    InitialInv(n);
    RunKeepsInv(canRefresh, Initial(n), es);
    RunKeepsCount(canRefresh, Initial(n), es);
    StuckIsSettled(Run(canRefresh, Initial(n), es));
  }

  lemma {:induction false} RunKeepsCount(canRefresh: bool, s: State, es: seq<Event>)
    requires InRange(s.pendingQueue, |s.requests|) && IsRun(canRefresh, s, es)
    ensures |Run(canRefresh, s, es).requests| == |s.requests|
    decreases |es|
  {
    if es != [] {
      RunKeepsCount(canRefresh, Step(canRefresh, s, es[0]), es[1..]);
    }
  }

  lemma StuckIsSettled(s: State)
    requires Inv(s)
    requires forall e :: !Enabled(s, e)
    ensures forall i :: 0 <= i < |s.requests| ==>
              IsSettled(s.requests[i]) && s.requests[i].settlements == 1
    ensures !s.isRefreshing && s.pendingQueue == []
  {
    assert forall i: nat :: Leads(s, i) ==> Enabled(s, RefreshFail(i));
    forall i: nat | i < |s.requests|
      ensures IsSettled(s.requests[i])
    {
      assert !Enabled(s, Start(i)) && !Enabled(s, Respond(i, Success)) && !Enabled(s, RefreshFail(i));
      assert i !in s.pendingQueue;
    }
  }

  // ---- What a run has done ----

  /** The events of a run after which the user must log in again: failed refreshes, and 401
      answers that settle their request. */
  function UnauthorizedEvents(canRefresh: bool, s: State, es: seq<Event>): nat
    requires InRange(s.pendingQueue, |s.requests|) && IsRun(canRefresh, s, es)
    decreases |es|
  {
    if es == [] then 0
    else
      var t := Step(canRefresh, s, es[0]);
      UnauthorizedEvents(canRefresh, t, es[1..])
      + match es[0]
        case Start(_) => 0
        case RefreshOk(_, _) => 0
        case RefreshFail(_) => 1
        case Respond(i, r) =>
          if r.Failure? && r.status == Some(401) && |t.requests| == |s.requests| && t.requests[i].phase.Rejected? then 1
          else 0
  }

  function TakingOff(s: State, t: State): set<nat> {
    set i: nat | i < |t.requests| && i < |s.requests| && t.requests[i].phase.InFlight? && !s.requests[i].phase.InFlight?
  }

  /** How often a request of the run went into flight. */
  function TakeOffs(canRefresh: bool, s: State, es: seq<Event>): nat
    requires InRange(s.pendingQueue, |s.requests|) && IsRun(canRefresh, s, es)
    decreases |es|
  {
    if es == [] then 0
    else
      var t := Step(canRefresh, s, es[0]);
      |TakingOff(s, t)| + TakeOffs(canRefresh, t, es[1..])
  }

  lemma {:induction false} QueueSize(q: seq<nat>, waiting: set<nat>)
    requires NoDuplicates(q)
    requires forall i: nat :: i in q <==> i in waiting
    ensures |waiting| == |q|
  {
    if q == [] {
      assert waiting == {};
    } else {
      assert q == [q[0]] + q[1..];
      QueueSize(q[1..], waiting - {q[0]});
    }
  }

  lemma RefreshOkTakesOff(canRefresh: bool, s: State, i: nat, token: Token)
    requires Inv(s) && Enabled(s, RefreshOk(i, token))
    ensures |TakingOff(s, Step(canRefresh, s, RefreshOk(i, token)))| == 1 + |s.pendingQueue|
  {
    var t := Step(canRefresh, s, RefreshOk(i, token));
    RefreshOkResendsEveryWaiter(canRefresh, s, i, token);
    hide Step;
    var waiting := set j: nat | j < |s.requests| && s.requests[j].phase.Queued?;
    QueueSize(s.pendingQueue, waiting);
    assert TakingOff(s, t) == waiting + {i};
  }

  /** Each send puts one request into flight and nothing else does; a failed refresh sends
      nothing, and a first send or a successful refresh calls nobody. */
  lemma StepDoes(canRefresh: bool, s: State, e: Event)
    requires Inv(s) && Enabled(s, e)
    ensures var t := Step(canRefresh, s, e);
            && |t.requests| == |s.requests|
            && t.sends - s.sends == |TakingOff(s, t)|
            && (e.Start? ==> TakingOff(s, t) == {e.i})
            && (e.Start? || e.RefreshOk? ==> t.unauthorizedCalls == s.unauthorizedCalls)
            && (e.RefreshFail? ==> t.unauthorizedCalls == s.unauthorizedCalls + 1)
            && (!e.Respond? ==> t.refreshes == s.refreshes)
            && (e.Start? ==>
                  && t.isRefreshing == s.isRefreshing && t.pendingQueue == s.pendingQueue
                  && t.requests[e.i] == Request(InFlight, s.requests[e.i].retry, s.requests[e.i].authorization,
                                                s.requests[e.i].settlements)
                  && forall j :: 0 <= j < |s.requests| && j != e.i ==> t.requests[j] == s.requests[j])
  {
    var t := Step(canRefresh, s, e);
    match e
    case Start(i) => assert TakingOff(s, t) == {i};
    case Respond(i, response) =>
      ResponseOutcome(canRefresh, s, i, response);
      hide OnResponse;
      assert TakingOff(s, t) == {};
    case RefreshOk(i, token) =>
      RefreshOkTakesOff(canRefresh, s, i, token);
      hide TakingOff;
    case RefreshFail(i) =>
      RefreshFailRejectsEveryWaiter(canRefresh, s, i);
      hide AllRejected;
      assert TakingOff(s, t) == {};
  }

  /** Over every run the unauthorized callback is called exactly once for each failed refresh
      and each 401 that settles its request, and every send is one request going into flight. */
  lemma {:induction false} RunDoes(canRefresh: bool, s: State, es: seq<Event>)
    requires Inv(s) && IsRun(canRefresh, s, es)
    ensures var t := Run(canRefresh, s, es);
            && t.unauthorizedCalls == s.unauthorizedCalls + UnauthorizedEvents(canRefresh, s, es)
            && t.sends == s.sends + TakeOffs(canRefresh, s, es)
    decreases |es|
  {
    if es != [] {
      StepKeepsInv(canRefresh, s, es[0]);
      StepDoes(canRefresh, s, es[0]);
      if es[0].Respond? {
        ResponseOutcome(canRefresh, s, es[0].i, es[0].response);
      }
      hide Step;
      hide Inv;
      hide TakingOff;
      RunDoes(canRefresh, Step(canRefresh, s, es[0]), es[1..]);
    }
  }

  /** From the fresh client on. */
  lemma CallbackCount(canRefresh: bool, n: nat, es: seq<Event>)
    requires IsRun(canRefresh, Initial(n), es)
    ensures Run(canRefresh, Initial(n), es).unauthorizedCalls == UnauthorizedEvents(canRefresh, Initial(n), es)
    ensures Run(canRefresh, Initial(n), es).sends == TakeOffs(canRefresh, Initial(n), es)
  {
    InitialInv(n);
    RunDoes(canRefresh, Initial(n), es);
  }

  // ---- The bound is reached ----

  datatype Stage = Starting | AllFlying | Queueing | Retried

  /** Stages of the worst run: every request is answered 401 every time, and each refresh
      succeeds.  Requests below k have been leaders and are settled. */
  ghost predicate AtStage(stage: Stage, s: State, k: nat, j: nat) {
    var n := |s.requests|;
    && Inv(s)
    && (forall i :: 0 <= i < k < n || 0 <= i < k == n ==> IsSettled(s.requests[i]))
    && match stage
       case Starting =>
         && k == 0 && j <= n && !s.isRefreshing
         && (forall i :: 0 <= i < j ==> s.requests[i].phase.InFlight? && !s.requests[i].retry)
         && (forall i :: j <= i < n ==> s.requests[i].phase.Unsent? && !s.requests[i].retry)
       case AllFlying =>
         && k <= n && j == 0 && !s.isRefreshing
         && (forall i :: k <= i < n ==> s.requests[i].phase.InFlight? && !s.requests[i].retry)
       case Queueing =>
         && k < j <= n && Leads(s, k) && |s.pendingQueue| == j - k - 1
         && (forall i :: k < i < j ==> s.requests[i].phase.Queued?)
         && (forall i :: j <= i < n ==> s.requests[i].phase.InFlight? && !s.requests[i].retry)
       case Retried =>
         && k < n && j == 0 && !s.isRefreshing
         && s.requests[k].phase.InFlight? && s.requests[k].retry
         && (forall i :: k < i < n ==> s.requests[i].phase.InFlight? && !s.requests[i].retry)
  }

  function SendsLeft(stage: Stage, n: nat, k: nat, j: nat): int
    requires k <= n
  {
    match stage
    case Starting => n - j + Triangle(n - k)
    case AllFlying => Triangle(n - k)
    case Queueing => Triangle(n - k)
    case Retried => if k == n then 0 else Triangle(n - k - 1)
  }

  const UNAUTHORIZED := Failure(Some(401), true)

  /** Event e takes the worst run from s to the given stage with that many more sends. */
  ghost predicate Advances(s: State, e: Event, stage: Stage, k: nat, j: nat, sent: int) {
    && Inv(s) && Enabled(s, e)
    && var t := Step(true, s, e);
       |t.requests| == |s.requests| && AtStage(stage, t, k, j) && t.sends == s.sends + sent
  }

  lemma WorstStart(s: State, k: nat, j: nat)
    requires AtStage(Starting, s, k, j)
    ensures k == 0
    ensures if j < |s.requests| then Advances(s, Start(j), Starting, 0, j + 1, 1)
            else j == |s.requests| && AtStage(AllFlying, s, 0, 0)
  {
    if j < |s.requests| {
      StepKeepsInv(true, s, Start(j));
    }
  }

  lemma WorstLead(s: State, k: nat, j: nat)
    requires AtStage(AllFlying, s, k, j)
    ensures if k < |s.requests| then Advances(s, Respond(k, UNAUTHORIZED), Queueing, k, k + 1, 0)
            else k == |s.requests| && Inv(s)
  {
    if k < |s.requests| {
      StepKeepsInv(true, s, Respond(k, UNAUTHORIZED));
    }
  }

  lemma WorstQueue(s: State, k: nat, j: nat)
    requires AtStage(Queueing, s, k, j) && j < |s.requests|
    ensures Advances(s, Respond(j, UNAUTHORIZED), Queueing, k, j + 1, 0)
  {
    StepKeepsInv(true, s, Respond(j, UNAUTHORIZED));
    assert Leads(s, k);
  }

  lemma WorstRefresh(s: State, k: nat, j: nat, token: Token)
    requires AtStage(Queueing, s, k, j) && j >= |s.requests|
    ensures k < |s.requests| == j && Advances(s, RefreshOk(k, token), Retried, k, 0, |s.requests| - k)
  {
    StepKeepsInv(true, s, RefreshOk(k, token));
    RefreshOkResendsEveryWaiter(true, s, k, token);
  }

  lemma WorstRetry(s: State, k: nat, j: nat)
    requires AtStage(Retried, s, k, j)
    ensures k < |s.requests| && Advances(s, Respond(k, UNAUTHORIZED), AllFlying, k + 1, 0, 0)
  {
    StepKeepsInv(true, s, Respond(k, UNAUTHORIZED));
  }

  lemma RunCons(s: State, e: Event, rest: seq<Event>)
    requires InRange(s.pendingQueue, |s.requests|) && Enabled(s, e) && IsRun(true, Step(true, s, e), rest)
    ensures IsRun(true, s, [e] + rest) && Run(true, s, [e] + rest) == Run(true, Step(true, s, e), rest)
  {
    assert ([e] + rest)[1..] == rest;
  }

  lemma NoRun(s: State)
    requires InRange(s.pendingQueue, |s.requests|)
    ensures IsRun(true, s, []) && Run(true, s, []) == s
  {
  }

  lemma {:induction false} WorstRunFrom(stage: Stage, s: State, k: nat, j: nat, token: Token) returns (es: seq<Event>)
    requires AtStage(stage, s, k, j) && k <= |s.requests|
    ensures InRange(s.pendingQueue, |s.requests|) && IsRun(true, s, es)
    ensures Run(true, s, es).sends == s.sends + SendsLeft(stage, |s.requests|, k, j)
    decreases |s.requests| - k, match stage case Starting => 3 case AllFlying => 2 case Queueing => 1 case Retried => 0,
              |s.requests| - j
  {
    hide Step;
    hide AtStage;
    hide Run;
    hide IsRun;
    var n := |s.requests|;
    var stage', k', j', e;
    match stage {
      case Starting =>
        WorstStart(s, k, j);
        if j == n {
          es := WorstRunFrom(AllFlying, s, 0, 0, token);
          return;
        }
        stage', k', j', e := Starting, k, j + 1, Start(j);
      case AllFlying =>
        WorstLead(s, k, j);
        if k == n {
          es := [];
          NoRun(s);
          return;
        }
        stage', k', j', e := Queueing, k, k + 1, Respond(k, UNAUTHORIZED);
      case Queueing =>
        if j < n {
          WorstQueue(s, k, j);
          stage', k', j', e := Queueing, k, j + 1, Respond(j, UNAUTHORIZED);
        } else {
          WorstRefresh(s, k, j, token);
          stage', k', j', e := Retried, k, 0, RefreshOk(k, token);
        }
      case Retried =>
        WorstRetry(s, k, j);
        stage', k', j', e := AllFlying, k + 1, 0, Respond(k, UNAUTHORIZED);
    }
    var t := Step(true, s, e);
    var rest := WorstRunFrom(stage', t, k', j', token);
    es := [e] + rest;
    RunCons(s, e, rest);
  }

  /** The bound on sends is exact: for every n some run sends n + n(n+1)/2 times. */
  lemma SendBoundIsReached(n: nat) returns (es: seq<Event>)
    ensures IsRun(true, Initial(n), es)
    ensures Run(true, Initial(n), es).sends == n + n * (n + 1) / 2
  {
    InitialInv(n);
    es := WorstRunFrom(Starting, Initial(n), 0, 0, "");
    TriangleClosedForm(n);
  }
}
