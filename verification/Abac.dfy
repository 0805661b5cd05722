/** The attribute-based access engine: policies kept sorted by priority, a register and an
    unregister operation, and an evaluation loop in which DENY and BYPASS cut short. */
module Abac {
  import opened Common
  import opened Text

  // ---- Attributes ----

  datatype Subject = Subject(
    userId: int, role: string, organizationId: Option<int>, country: Option<string>,
    clearanceLevel: int, carrierId: Option<int>)

  datatype Resource = Resource(
    resourceType: string, resourceId: int, ownerOrgId: Option<int>, country: Option<string>,
    carrierId: Option<int>, documentType: Option<string>, assignedDriverUserId: Option<int>)

  datatype Environment = Environment(isWorkingHours: bool, requestMethod: string)

  // ---- Policies ----

  /** What calling a policy's condition does. */
  datatype Verdict = Matches | Mismatch | Raises

  type Condition = (Subject, Resource, Environment) -> Verdict

  datatype Policy = Policy(
    name: string, description: string, priority: int, condition: Condition,
    effect: string, obligations: set<string>)

  datatype Decision = Decision(
    allowed: bool, reason: string, matchedPolicy: Option<string>, obligations: set<string>)

  /** The policy's own decision, or None.  A raising condition counts as no match. */
  function EvaluatePolicy(p: Policy, s: Subject, r: Resource, e: Environment): Option<Decision> {
    if p.condition(s, r, e).Matches?
    then Some(Decision(p.effect == "ALLOW", p.description, Some(p.name), p.obligations))
    else None
  }

  /** A policy decides exactly when its condition holds, and gives its own effect, description,
      name and obligations. */
  lemma OwnDecision(p: Policy, s: Subject, r: Resource, e: Environment)
    ensures match EvaluatePolicy(p, s, r, e)
            case None => !p.condition(s, r, e).Matches?
            case Some(d) =>
              && p.condition(s, r, e).Matches? && (d.allowed <==> p.effect == "ALLOW")
              && d.reason == p.description && d.matchedPolicy == Some(p.name) && d.obligations == p.obligations
  {
  }

  /** A request, so that the laws below can speak of matching without three arguments. */
  datatype Request = Request(subject: Subject, resource: Resource, environment: Environment)

  predicate Matching(p: Policy, q: Request) {
    p.condition(q.subject, q.resource, q.environment).Matches?
  }

  /** Every effect but ALLOW denies. */
  predicate Denies(p: Policy, q: Request) {
    Matching(p, q) && p.effect != "ALLOW"
  }

  predicate Allows(p: Policy, q: Request) {
    Matching(p, q) && p.effect == "ALLOW"
  }

  predicate IsBypass(p: Policy) {
    p.effect == "ALLOW" && "BYPASS" in p.obligations
  }

  /** A matching policy that ends the evaluation. */
  predicate Decisive(p: Policy, q: Request) {
    Denies(p, q) || (Matching(p, q) && IsBypass(p))
  }

  // ---- Stable sorting by priority ----

  predicate Sorted(ps: seq<Policy>) {
    forall i, j :: 0 <= i < j < |ps| ==> ps[i].priority <= ps[j].priority
  }

  /** Where a stable sort puts one more element: behind all of no greater priority. */
  function Insert(ps: seq<Policy>, p: Policy): seq<Policy> {
    if ps == [] || ps[|ps| - 1].priority <= p.priority then ps + [p]
    else Insert(ps[..|ps| - 1], p) + [ps[|ps| - 1]]
  }

  function StableSort(ps: seq<Policy>): seq<Policy> {
    if ps == [] then [] else Insert(StableSort(ps[..|ps| - 1]), ps[|ps| - 1])
  }

  /** The policies of one priority, in order. */
  function OfPriority(ps: seq<Policy>, priority: int): seq<Policy> {
    if ps == [] then []
    else OfPriority(ps[..|ps| - 1], priority)
         + if ps[|ps| - 1].priority == priority then [ps[|ps| - 1]] else []
  }

  lemma {:induction false} InsertAddsOne(ps: seq<Policy>, p: Policy)
    ensures multiset(Insert(ps, p)) == multiset(ps) + multiset{p}
    ensures forall i :: 0 <= i < |Insert(ps, p)| ==> Insert(ps, p)[i] in ps || Insert(ps, p)[i] == p
  {
    if ps != [] && ps[|ps| - 1].priority > p.priority {
      var init, last := ps[..|ps| - 1], ps[|ps| - 1];
      InsertAddsOne(init, p);
      assert multiset(ps) == multiset(init) + multiset{last} by {
        assert ps == init + [last];
      }
    }
  }

  lemma {:induction false} InsertSorts(ps: seq<Policy>, p: Policy)
    requires Sorted(ps)
    ensures Sorted(Insert(ps, p))
    ensures multiset(Insert(ps, p)) == multiset(ps) + multiset{p}
  {
    InsertAddsOne(ps, p);
    if ps != [] && ps[|ps| - 1].priority > p.priority {
      var init, last := ps[..|ps| - 1], ps[|ps| - 1];
      InsertSorts(init, p);
      InsertAddsOne(init, p);
      var t := Insert(init, p);
      forall i | 0 <= i < |t| ensures t[i].priority <= last.priority {
        assert t[i] in init || t[i] == p;
      }
    }
  }

  lemma SwapTails(a: seq<Policy>, x: seq<Policy>, y: seq<Policy>)
    requires x == [] || y == []
    ensures (a + x) + y == (a + y) + x
  {
  }

  lemma Associate(a: seq<Policy>, b: seq<Policy>, c: seq<Policy>)
    ensures (a + b) + c == a + (b + c)
  {
  }

  lemma OfPrioritySnoc(ps: seq<Policy>, last: Policy, priority: int)
    ensures OfPriority(ps + [last], priority)
            == OfPriority(ps, priority) + if last.priority == priority then [last] else []
  {
    assert (ps + [last])[..|ps|] == ps;
  }

  /** Inserting keeps the order among equals, the new element last. */
  lemma {:induction false} InsertIsStable(ps: seq<Policy>, p: Policy, priority: int)
    requires Sorted(ps)
    ensures OfPriority(Insert(ps, p), priority) == OfPriority(ps + [p], priority)
  {
    if ps != [] && ps[|ps| - 1].priority > p.priority {
      var init, last := ps[..|ps| - 1], ps[|ps| - 1];
      InsertIsStable(init, p, priority);
      assert ps == init + [last] && Insert(ps, p) == Insert(init, p) + [last];
      OfPrioritySnoc(Insert(init, p), last, priority);
      OfPrioritySnoc(init, p, priority);
      OfPrioritySnoc(init, last, priority);
      OfPrioritySnoc(ps, p, priority);
      hide OfPriority;
      hide Insert;
      hide Sorted;
      SwapTails(OfPriority(init, priority), if p.priority == priority then [p] else [],
                if last.priority == priority then [last] else []);
    }
  }

  /** StableSort is what its name says: sorted, a permutation, equals in their old order. */
  lemma {:induction false} StableSortSorts(ps: seq<Policy>, priority: int)
    ensures Sorted(StableSort(ps))
    ensures multiset(StableSort(ps)) == multiset(ps)
    ensures OfPriority(StableSort(ps), priority) == OfPriority(ps, priority)
  {
    if ps != [] {
      var init, last := ps[..|ps| - 1], ps[|ps| - 1];
      assert ps == init + [last];
      StableSortSorts(init, priority);
      InsertSorts(StableSort(init), last);
      InsertIsStable(StableSort(init), last, priority);
      assert (StableSort(init) + [last])[..|StableSort(init)|] == StableSort(init);
    }
  }

  lemma InsertAtEnd(ps: seq<Policy>, p: Policy)
    requires ps == [] || ps[|ps| - 1].priority <= p.priority
    ensures Insert(ps, p) == ps + [p]
  {
  }

  lemma SortedPrefix(ps: seq<Policy>, n: nat)
    requires Sorted(ps) && n < |ps|
    ensures Sorted(ps[..n]) && (n > 0 ==> ps[..n][n - 1].priority <= ps[n].priority)
  {
  }

  /** A sorted list is its own stable sort, so appending and sorting is one insertion. */
  lemma {:induction false} SortedIsFixed(ps: seq<Policy>)
    requires Sorted(ps)
    ensures StableSort(ps) == ps
  {
    if ps != [] {
      var n := |ps| - 1;
      SortedPrefix(ps, n);
      hide Sorted;
      hide Insert;
      SortedIsFixed(ps[..n]);
      InsertAtEnd(ps[..n], ps[n]);
      assert ps == ps[..n] + [ps[n]];
    }
  }

  lemma AppendAndSort(ps: seq<Policy>, p: Policy)
    requires Sorted(ps)
    ensures StableSort(ps + [p]) == Insert(ps, p)
  {
    assert (ps + [p])[..|ps|] == ps;
    SortedIsFixed(ps);
  }

  function Without(ps: seq<Policy>, name: string): (r: seq<Policy>)
    ensures |r| <= |ps|
  {
    if ps == [] then []
    else Without(ps[..|ps| - 1], name) + if ps[|ps| - 1].name == name then [] else [ps[|ps| - 1]]
  }

  // ---- Evaluation ----

  /** The loop from policy k on, with the obligations and the last ALLOW seen so far. */
  function EvaluateFrom(
    ps: seq<Policy>, q: Request, k: nat, obligations: set<string>, matchedAllow: Option<string>): Decision
    requires k <= |ps|
    decreases |ps| - k
  {
    if k == |ps| then
      if matchedAllow.Some? then Decision(true, "Access granted", matchedAllow, obligations)
      else Decision(false, "No matching ALLOW policy", None, obligations)
    else
      var p := ps[k];
      if !Matching(p, q) then EvaluateFrom(ps, q, k + 1, obligations, matchedAllow)
      else if p.effect != "ALLOW" then Decision(false, p.description, Some(p.name), obligations + p.obligations)
      else if "BYPASS" in p.obligations then Decision(true, p.description, Some(p.name), obligations + p.obligations)
      else EvaluateFrom(ps, q, k + 1, obligations + p.obligations, Some(p.name))
  }

  function Evaluate(ps: seq<Policy>, q: Request): Decision {
    EvaluateFrom(ps, q, 0, {}, None)
  }

  class ABACPolicyEngine {
    var policies: seq<Policy>

    ghost predicate Valid()
      reads this
    {
      Sorted(policies)
    }

    constructor (initial: seq<Policy>)
      ensures Valid() && policies == StableSort(initial)
    {
      StableSortSorts(initial, 0);
      policies := StableSort(initial);
    }

    method Register(p: Policy)
      requires Valid()
      modifies this
      ensures Valid() && policies == Insert(old(policies), p)
    {
      AppendAndSort(policies, p);
      InsertSorts(policies, p);
      policies := policies + [p];
      policies := StableSort(policies);
    }

    method Unregister(name: string) returns (removed: bool)
      requires Valid()
      modifies this
      ensures Valid() && policies == Without(old(policies), name)
      ensures removed <==> exists p :: p in old(policies) && p.name == name
    {
      WithoutKeeps(policies, name);
      var before := |policies|;
      var kept: seq<Policy> := [];
      for k := 0 to |policies|
        invariant kept == Without(policies[..k], name)
      {
        assert policies[..k + 1][..k] == policies[..k];
        if policies[k].name != name {
          kept := kept + [policies[k]];
        }
      }
      assert policies[..|policies|] == policies;
      policies := kept;
      removed := |policies| < before;
    }

    method Decide(s: Subject, r: Resource, e: Environment) returns (d: Decision)
      ensures d == Evaluate(policies, Request(s, r, e))
    {
      var obligations: set<string> := {};
      var matchedAllow: Option<string> := None;
      for k := 0 to |policies|
        invariant EvaluateFrom(policies, Request(s, r, e), k, obligations, matchedAllow)
                  == Evaluate(policies, Request(s, r, e))
      {
        var decision := EvaluatePolicy(policies[k], s, r, e);
        if decision.Some? {
          obligations := obligations + decision.value.obligations;
          if !decision.value.allowed {
            return Decision(false, decision.value.reason, Some(policies[k].name), obligations);
          }
          if "BYPASS" in decision.value.obligations {
            return Decision(true, decision.value.reason, Some(policies[k].name), obligations);
          }
          matchedAllow := Some(policies[k].name);
        }
      }
      if matchedAllow.Some? {
        return Decision(true, "Access granted", matchedAllow, obligations);
      }
      return Decision(false, "No matching ALLOW policy", None, obligations);
    }
  }

  /** Removing by name keeps sortedness and shortens the list exactly when the name occurs. */
  lemma {:induction false} WithoutKeeps(ps: seq<Policy>, name: string)
    ensures Sorted(ps) ==> Sorted(Without(ps, name))
    ensures forall p :: p in Without(ps, name) <==> p in ps && p.name != name
    ensures |Without(ps, name)| < |ps| <==> exists p :: p in ps && p.name == name
  {
    if ps != [] {
      var init, last := ps[..|ps| - 1], ps[|ps| - 1];
      assert ps == init + [last];
      WithoutKeeps(init, name);
    }
  }

  // ---- What a decision means ----

  /** The verdict alone: seen says whether an ALLOW has already matched. */
  predicate Grants(ps: seq<Policy>, q: Request, seen: bool) {
    if ps == [] then seen
    else if Denies(ps[0], q) then false
    else if Matching(ps[0], q) && IsBypass(ps[0]) then true
    else Grants(ps[1..], q, seen || Allows(ps[0], q))
  }

  lemma {:induction false} EvaluateIsGrants(
    ps: seq<Policy>, q: Request, k: nat, obligations: set<string>, matchedAllow: Option<string>)
    requires k <= |ps|
    ensures EvaluateFrom(ps, q, k, obligations, matchedAllow).allowed == Grants(ps[k..], q, matchedAllow.Some?)
    decreases |ps| - k
  {
    if k < |ps| {
      var p := ps[k];
      assert ps[k..][0] == p && ps[k..][1..] == ps[k + 1..];
      if !Matching(p, q) {
        EvaluateIsGrants(ps, q, k + 1, obligations, matchedAllow);
      } else if p.effect == "ALLOW" && "BYPASS" !in p.obligations {
        EvaluateIsGrants(ps, q, k + 1, obligations + p.obligations, Some(p.name));
      }
    }
  }

  lemma AllowedIsGrants(ps: seq<Policy>, q: Request)
    ensures Evaluate(ps, q).allowed == Grants(ps, q, false)
  {
    EvaluateIsGrants(ps, q, 0, {}, None);
    assert ps[0..] == ps;
  }

  /** Policy k ends the evaluation. */
  predicate DecidedAt(ps: seq<Policy>, q: Request, k: nat) {
    k < |ps| && Decisive(ps[k], q) && forall i :: 0 <= i < k ==> !Decisive(ps[i], q)
  }

  lemma {:induction false} GrantsMeaning(ps: seq<Policy>, q: Request, seen: bool)
    ensures Grants(ps, q, seen) <==>
            || (exists k: nat :: DecidedAt(ps, q, k) && IsBypass(ps[k]))
            || ((forall p :: p in ps ==> !Decisive(p, q)) && (seen || exists p :: p in ps && Allows(p, q)))
  {
    if ps != [] {
      var first, rest := ps[0], ps[1..];
      assert ps == [first] + rest;
      if Decisive(first, q) {
        assert DecidedAt(ps, q, 0);
      } else {
        GrantsMeaning(rest, q, seen || Allows(first, q));
        assert forall k: nat :: DecidedAt(rest, q, k) ==> DecidedAt(ps, q, k + 1);
        assert forall k: nat :: DecidedAt(ps, q, k) ==> k > 0 && DecidedAt(rest, q, k - 1);
      }
    }
  }

  /** Access is granted exactly when the first deciding policy is a bypass, or none decides
      and some ALLOW matches. */
  lemma AllowedExactlyWhen(ps: seq<Policy>, q: Request)
    ensures Evaluate(ps, q).allowed <==>
            || (exists k: nat :: DecidedAt(ps, q, k) && IsBypass(ps[k]))
            || ((forall p :: p in ps ==> !Decisive(p, q)) && exists p :: p in ps && Allows(p, q))
  {
    AllowedIsGrants(ps, q);
    GrantsMeaning(ps, q, false);
  }

  /** Policy i was reached: nothing before it decided. */
  predicate Reached(ps: seq<Policy>, q: Request, k: nat, i: nat) {
    k <= i < |ps| && Matching(ps[i], q) && forall j :: k <= j < i ==> !Decisive(ps[j], q)
  }

  /** The obligations of a decision are those of the matching policies up to the deciding one. */
  lemma {:induction false} ObligationsMeaning(
    ps: seq<Policy>, q: Request, k: nat, obligations: set<string>, matchedAllow: Option<string>, o: string)
    requires k <= |ps|
    ensures o in EvaluateFrom(ps, q, k, obligations, matchedAllow).obligations <==>
            o in obligations || exists i: nat :: Reached(ps, q, k, i) && o in ps[i].obligations
    decreases |ps| - k
  {
    if k < |ps| {
      var p := ps[k];
      assert Reached(ps, q, k, k) <==> Matching(p, q);
      assert !Decisive(p, q) ==> forall i: nat :: i != k ==> (Reached(ps, q, k, i) <==> Reached(ps, q, k + 1, i));
      assert Decisive(p, q) ==> forall i: nat :: i != k ==> !Reached(ps, q, k, i);
      if !Matching(p, q) {
        ObligationsMeaning(ps, q, k + 1, obligations, matchedAllow, o);
      } else if p.effect == "ALLOW" && "BYPASS" !in p.obligations {
        ObligationsMeaning(ps, q, k + 1, obligations + p.obligations, Some(p.name), o);
      }
    }
  }

  /** A decision names a matching policy with that effect; it names none exactly when nothing
      that matched allows or denies. */
  lemma {:induction false} NamedPolicyMatches(
    ps: seq<Policy>, q: Request, k: nat, obligations: set<string>, matchedAllow: Option<string>)
    requires k <= |ps|
    requires matchedAllow.Some? ==> exists i :: 0 <= i < |ps| && Allows(ps[i], q) && ps[i].name == matchedAllow.value
    ensures var d := EvaluateFrom(ps, q, k, obligations, matchedAllow);
            && (d.matchedPolicy.Some? ==>
                  exists i :: 0 <= i < |ps| && Matching(ps[i], q) && ps[i].name == d.matchedPolicy.value
                              && (d.allowed <==> ps[i].effect == "ALLOW"))
            && (d.matchedPolicy.None? <==> matchedAllow.None? && forall i :: k <= i < |ps| ==> !Matching(ps[i], q))
            && (d.matchedPolicy.None? ==> !d.allowed)
    decreases |ps| - k
  {
    if k < |ps| {
      var p := ps[k];
      if !Matching(p, q) {
        NamedPolicyMatches(ps, q, k + 1, obligations, matchedAllow);
      } else if p.effect == "ALLOW" && "BYPASS" !in p.obligations {
        assert Allows(ps[k], q);
        NamedPolicyMatches(ps, q, k + 1, obligations + p.obligations, Some(p.name));
      }
    }
  }

  /** The last ALLOW from policy k on that matches, if any. */
  function LastAllow(ps: seq<Policy>, q: Request, k: nat): Option<string>
    requires k <= |ps|
  {
    if k == |ps| then None
    else if ps[|ps| - 1].condition(q.subject, q.resource, q.environment).Matches? && ps[|ps| - 1].effect == "ALLOW"
    then Some(ps[|ps| - 1].name)
    else LastAllow(ps[..|ps| - 1], q, k)
  }

  lemma {:induction false} LastAllowStep(ps: seq<Policy>, q: Request, k: nat)
    requires k < |ps|
    ensures LastAllow(ps, q, k) ==
            if LastAllow(ps, q, k + 1).Some? then LastAllow(ps, q, k + 1)
            else if Allows(ps[k], q) then Some(ps[k].name) else None
    decreases |ps|
  {
    if k + 1 < |ps| {
      LastAllowStep(ps[..|ps| - 1], q, k);
    }
  }

  /** The whole decision but its obligations.  A deciding policy gives its own name, effect and
      description; without one, the last ALLOW that matches is named, or the request is refused
      for want of one. */
  lemma {:induction false} DecisionMeaning(
    ps: seq<Policy>, q: Request, k: nat, obligations: set<string>, matchedAllow: Option<string>, n: nat)
    requires k <= |ps|
    requires k <= n <= |ps| && forall i :: k <= i < n ==> !Decisive(ps[i], q)
    ensures var d := EvaluateFrom(ps, q, k, obligations, matchedAllow);
            && (n < |ps| && Decisive(ps[n], q) ==>
                  && d.allowed == (ps[n].effect == "ALLOW") && d.reason == ps[n].description
                  && d.matchedPolicy == Some(ps[n].name))
            && (n == |ps| ==>
                  var named := if LastAllow(ps, q, k).Some? then LastAllow(ps, q, k) else matchedAllow;
                  && d.allowed == named.Some? && d.matchedPolicy == named
                  && d.reason == if named.Some? then "Access granted" else "No matching ALLOW policy")
    decreases |ps| - k
  {
    if k < |ps| {
      var p := ps[k];
      LastAllowStep(ps, q, k);
      if k < n {
        hide LastAllow;
        if Matching(p, q) {
          DecisionMeaning(ps, q, k + 1, obligations + p.obligations, Some(p.name), n);
        } else {
          DecisionMeaning(ps, q, k + 1, obligations, matchedAllow, n);
        }
      }
    }
  }

  lemma {:induction false} SameFrom(
    ps: seq<Policy>, k: nat, ps': seq<Policy>, k': nat, q: Request,
    obligations: set<string>, matchedAllow: Option<string>)
    requires k <= |ps| && k' <= |ps'| && ps[k..] == ps'[k'..]
    ensures EvaluateFrom(ps, q, k, obligations, matchedAllow) == EvaluateFrom(ps', q, k', obligations, matchedAllow)
    decreases |ps| - k
  {
    assert |ps[k..]| == |ps'[k'..]|;
    if k < |ps| {
      assert ps[k..][0] == ps'[k'..][0];
      assert ps[k..][1..] == ps[k + 1..] && ps'[k'..][1..] == ps'[k' + 1..];
      var x := ps[k];
      if !Matching(x, q) {
        SameFrom(ps, k + 1, ps', k' + 1, q, obligations, matchedAllow);
      } else if x.effect == "ALLOW" && "BYPASS" !in x.obligations {
        SameFrom(ps, k + 1, ps', k' + 1, q, obligations + x.obligations, Some(x.name));
      }
    }
  }

  /** A policy whose condition raises changes no decision. */
  lemma {:induction false} RaisingIsNoMatch(
    a: seq<Policy>, p: Policy, b: seq<Policy>, q: Request, k: nat,
    obligations: set<string>, matchedAllow: Option<string>)
    requires p.condition(q.subject, q.resource, q.environment).Raises? && k <= |a|
    ensures EvaluateFrom(a + [p] + b, q, k, obligations, matchedAllow)
            == EvaluateFrom(a + b, q, k, obligations, matchedAllow)
    decreases |a| - k
  {
    var ps, rest := a + [p] + b, a + b;
    if k == |a| {
      assert ps[k] == p && ps[k + 1..] == b == rest[k..];
      SameFrom(ps, k + 1, rest, k, q, obligations, matchedAllow);
    } else {
      var x := a[k];
      assert ps[k] == x && rest[k] == x;
      if !Matching(x, q) {
        RaisingIsNoMatch(a, p, b, q, k + 1, obligations, matchedAllow);
      } else if x.effect == "ALLOW" && "BYPASS" !in x.obligations {
        RaisingIsNoMatch(a, p, b, q, k + 1, obligations + x.obligations, Some(x.name));
      }
    }
  }

  ghost predicate NoBypass(ps: seq<Policy>) {
    forall p :: p in ps ==> !IsBypass(p)
  }

  /** Without BYPASS policies: granted exactly when some ALLOW matches and no DENY does. */
  lemma DenyOverrides(ps: seq<Policy>, q: Request)
    requires NoBypass(ps)
    ensures Evaluate(ps, q).allowed <==> (exists p :: p in ps && Allows(p, q)) && forall p :: p in ps ==> !Denies(p, q)
  {
    AllowedExactlyWhen(ps, q);
  }

  /** So neither priorities nor the order of registration matter: two engines holding the
      same policies decide alike. */
  lemma OrderIsIrrelevant(ps: seq<Policy>, ps': seq<Policy>, q: Request)
    requires multiset(ps) == multiset(ps') && NoBypass(ps)
    ensures Evaluate(ps, q).allowed == Evaluate(ps', q).allowed
  {
    assert forall p :: p in ps <==> p in multiset(ps);
    assert forall p :: p in ps' <==> p in multiset(ps');
    DenyOverrides(ps, q);
    DenyOverrides(ps', q);
  }

  // ---- Adding a policy ----

  /** Insertion puts p before exactly the policies of greater priority. */
  lemma {:induction false} InsertPosition(ps: seq<Policy>, p: Policy) returns (i: nat)
    ensures i <= |ps| && Insert(ps, p) == ps[..i] + [p] + ps[i..]
    ensures forall j :: i <= j < |ps| ==> ps[j].priority > p.priority
    ensures i > 0 ==> ps[i - 1].priority <= p.priority
  {
    if ps == [] || ps[|ps| - 1].priority <= p.priority {
      i := |ps|;
    } else {
      var n := |ps| - 1;
      i := InsertPosition(ps[..n], p);
      assert ps[..n][..i] == ps[..i];
      assert ps[..n][i..] + [ps[n]] == ps[i..];
      assert ps[..i] + [p] + ps[..n][i..] + [ps[n]] == ps[..i] + [p] + (ps[..n][i..] + [ps[n]]);
      forall j | i <= j < |ps| ensures ps[j].priority > p.priority {
        if j < n { assert ps[..n][j] == ps[j]; }
      }
    }
  }

  lemma {:induction false} SeenOnlyHelps(ps: seq<Policy>, q: Request)
    ensures Grants(ps, q, false) ==> Grants(ps, q, true)
  {
    if ps != [] {
      SeenOnlyHelps(ps[1..], q);
    }
  }

  lemma {:induction false} AnotherPolicy(a: seq<Policy>, p: Policy, b: seq<Policy>, q: Request, seen: bool)
    ensures p.effect != "ALLOW" && Grants(a + [p] + b, q, seen) ==> Grants(a + b, q, seen)
    ensures p.effect == "ALLOW" && Grants(a + b, q, seen) && !IsBypass(p) ==> Grants(a + [p] + b, q, seen)
  {
    if a == [] {
      assert a + [p] + b == [p] + b && a + b == b;
      assert ([p] + b)[1..] == b;
      SeenOnlyHelps(b, q);
    } else {
      assert (a + [p] + b)[1..] == a[1..] + [p] + b && (a + b)[1..] == a[1..] + b;
      AnotherPolicy(a[1..], p, b, q, seen || Allows(a[0], q));
    }
  }

  /** With arbitrary policies, BYPASS included: registering a DENY never turns a refusal into
      a grant, and registering an ALLOW without BYPASS never turns a grant into a refusal. */
  lemma RegisterIsMonotone(ps: seq<Policy>, p: Policy, q: Request)
    ensures p.effect != "ALLOW" && Evaluate(Insert(ps, p), q).allowed ==> Evaluate(ps, q).allowed
    ensures p.effect == "ALLOW" && !IsBypass(p) && Evaluate(ps, q).allowed ==> Evaluate(Insert(ps, p), q).allowed
  {
    var i := InsertPosition(ps, p);
    AllowedIsGrants(ps, q);
    AllowedIsGrants(Insert(ps, p), q);
    AnotherPolicy(ps[..i], p, ps[i..], q, false);
    assert ps == ps[..i] + ps[i..];
  }

  lemma WithoutSnoc(ps: seq<Policy>, last: Policy, name: string)
    ensures Without(ps + [last], name) == Without(ps, name) + if last.name == name then [] else [last]
  {
    assert (ps + [last])[..|ps|] == ps;
  }

  lemma {:induction false} WithoutConcat(a: seq<Policy>, b: seq<Policy>, name: string)
    ensures Without(a + b, name) == Without(a, name) + Without(b, name)
  {
    if b == [] {
      assert a + b == a;
    } else {
      var init, last := b[..|b| - 1], b[|b| - 1];
      WithoutConcat(a, init, name);
      WithoutSnoc(init, last, name);
      WithoutSnoc(a + init, last, name);
      hide Without;
      assert init + [last] == b;
      Associate(a, init, [last]);
      Associate(Without(a, name), Without(init, name), if last.name == name then [] else [last]);
    }
  }

  lemma {:induction false} WithoutAbsent(ps: seq<Policy>, name: string)
    requires forall p :: p in ps ==> p.name != name
    ensures Without(ps, name) == ps
  {
    if ps != [] {
      WithoutAbsent(ps[..|ps| - 1], name);
    }
  }

  /** Unregistering undoes registering, order included, when the name was new. */
  lemma UnregisterUndoesRegister(ps: seq<Policy>, p: Policy)
    requires forall x :: x in ps ==> x.name != p.name
    ensures Without(Insert(ps, p), p.name) == ps
  {
    var i := InsertPosition(ps, p);
    WithoutConcat(ps[..i] + [p], ps[i..], p.name);
    WithoutConcat(ps[..i], [p], p.name);
    WithoutAbsent(ps[..i], p.name);
    WithoutAbsent(ps[i..], p.name);
    assert [p][..0] == [];
    assert ps[..i] + [] + ps[i..] == ps;
  }

  // ---- The built-in policies ----

  predicate IsAdmin(s: Subject) {
    s.role == "ADMIN" || s.role == "LOGISTICS_MGR"
  }

  function When(b: bool): Verdict {
    if b then Matches else Mismatch
  }

  function AdminBypass(s: Subject, r: Resource, e: Environment): Verdict {
    When(IsAdmin(s))
  }

  function SelfAccess(s: Subject, r: Resource, e: Environment): Verdict {
    When(s.userId == r.resourceId && e.requestMethod == "GET")
  }

  function TenantIsolation(s: Subject, r: Resource, e: Environment): Verdict {
    if IsAdmin(s) then Mismatch
    else if r.ownerOrgId.None? then Mismatch
    else if s.organizationId.None? then Matches
    else When(s.organizationId != r.ownerOrgId)
  }

  function CustomsCountryLock(s: Subject, r: Resource, e: Environment): Verdict {
    if s.role != "CUSTOMS_BROKER" || r.resourceType != "customs_declaration" then Mismatch
    else if s.country.None? || r.country.None? then Mismatch
    else When(s.country != r.country)
  }

  function CarrierRateVisibility(s: Subject, r: Resource, e: Environment): Verdict {
    if s.role != "CARRIER" || r.resourceType != "rate_card" || s.carrierId.None? then Mismatch
    else When(s.carrierId != r.carrierId)
  }

  function DriverSelfAssignment(s: Subject, r: Resource, e: Environment): Verdict {
    if s.role != "DRIVER" || r.resourceType != "shipment" || r.assignedDriverUserId.None? then Mismatch
    else When(s.userId != r.assignedDriverUserId.value)
  }

  function SensitiveDocument(s: Subject, r: Resource, e: Environment): Verdict {
    if r.documentType.None? || Upper(r.documentType.value) !in {"TAX", "FINANCIAL", "CONTRACT", "CUSTOMS"} then Mismatch
    else When(s.clearanceLevel < 1)
  }

  function WorkingHours(s: Subject, r: Resource, e: Environment): Verdict {
    if IsAdmin(s) || e.isWorkingHours then Mismatch
    else When(e.requestMethod in {"POST", "PATCH", "PUT", "DELETE"})
  }

  const ADMIN_BYPASS := Policy("admin_bypass", "Administrators and logistics managers bypass all ABAC checks",
                               0, AdminBypass, "ALLOW", {"BYPASS"})
  const SELF_ACCESS := Policy("self_access", "Users can read their own resources", 10, SelfAccess, "ALLOW", {})
  const TENANT_ISOLATION := Policy("tenant_isolation",
                                   "Users can only access resources belonging to their organization",
                                   20, TenantIsolation, "DENY", {"AUDIT_LOG"})
  const CUSTOMS_COUNTRY := Policy("customs_country_lock",
                                  "Customs brokers can only access declarations in their licensed country",
                                  30, CustomsCountryLock, "DENY", {"AUDIT_LOG"})
  const CARRIER_VISIBILITY := Policy("carrier_rate_visibility", "Carriers can only access their own rate cards",
                                     40, CarrierRateVisibility, "DENY", {"AUDIT_LOG"})
  const DRIVER_ASSIGNMENT := Policy("driver_self_assignment", "Drivers can only access shipments assigned to them",
                                    50, DriverSelfAssignment, "DENY", {"AUDIT_LOG"})
  const SENSITIVE_DOCUMENT := Policy(
    "sensitive_document_protection",
    "Sensitive documents (TAX, FINANCIAL, CONTRACT, CUSTOMS) require clearance level >= 1",
    60, SensitiveDocument, "DENY", {"AUDIT_LOG", "NOTIFY_ADMIN"})
  const WORKING_HOURS := Policy("working_hours_restriction",
                                "Non-admin users cannot modify resources outside working hours",
                                70, WorkingHours, "DENY", {"AUDIT_LOG"})

  const DEFAULT_POLICIES := [
    ADMIN_BYPASS, SELF_ACCESS, TENANT_ISOLATION, CUSTOMS_COUNTRY,
    CARRIER_VISIBILITY, DRIVER_ASSIGNMENT, SENSITIVE_DOCUMENT, WORKING_HOURS]

  /** The default engine in closed form: administrators always, everybody else only reading
      the resource that carries their own user id, and only if no built-in rule objects. */
  lemma DefaultEngineGrants(q: Request)
    ensures var s, r, e := q.subject, q.resource, q.environment;
            Evaluate(StableSort(DEFAULT_POLICIES), q).allowed <==>
            || s.role == "ADMIN" || s.role == "LOGISTICS_MGR"
            || (&& s.userId == r.resourceId && e.requestMethod == "GET"
                && (r.ownerOrgId.Some? ==> s.organizationId == r.ownerOrgId)
                && (s.role == "CUSTOMS_BROKER" && r.resourceType == "customs_declaration"
                    ==> (s.country.Some? && r.country.Some? ==> s.country == r.country))
                && (s.role == "CARRIER" && r.resourceType == "rate_card" && s.carrierId.Some?
                    ==> s.carrierId == r.carrierId)
                && (s.role == "DRIVER" && r.resourceType == "shipment" && r.assignedDriverUserId.Some?
                    ==> r.assignedDriverUserId.value == s.userId)
                && (r.documentType.Some? && Upper(r.documentType.value) in {"TAX", "FINANCIAL", "CONTRACT", "CUSTOMS"}
                    ==> s.clearanceLevel >= 1))
  {
    DefaultIsSorted();
    AllowedIsGrants(DEFAULT_POLICIES, q);
    DefaultGrants(q);
    assert Matching(ADMIN_BYPASS, q) <==> IsAdmin(q.subject);
    assert Allows(SELF_ACCESS, q) <==>
           q.subject.userId == q.resource.resourceId && q.environment.requestMethod == "GET";
  }

  const DENIALS := [
    TENANT_ISOLATION, CUSTOMS_COUNTRY, CARRIER_VISIBILITY, DRIVER_ASSIGNMENT, SENSITIVE_DOCUMENT, WORKING_HOURS]

  lemma DefaultGrants(q: Request)
    ensures Grants(DEFAULT_POLICIES, q, false) <==>
              Matching(ADMIN_BYPASS, q)
              || (Allows(SELF_ACCESS, q)
                  && !Matching(TENANT_ISOLATION, q) && !Matching(CUSTOMS_COUNTRY, q) && !Matching(CARRIER_VISIBILITY, q)
                  && !Matching(DRIVER_ASSIGNMENT, q) && !Matching(SENSITIVE_DOCUMENT, q) && !Matching(WORKING_HOURS, q))
  {
    assert DEFAULT_POLICIES == [ADMIN_BYPASS] + ([SELF_ACCESS] + DENIALS);
    hide Matching;
    GrantsCons(ADMIN_BYPASS, [SELF_ACCESS] + DENIALS, q, false);
    GrantsCons(SELF_ACCESS, DENIALS, q, false);
    NoDenialMatches(q, Allows(SELF_ACCESS, q));
  }

  lemma NoDenialMatches(q: Request, seen: bool)
    ensures Grants(DENIALS, q, seen) <==>
            seen && !Matching(TENANT_ISOLATION, q) && !Matching(CUSTOMS_COUNTRY, q) && !Matching(CARRIER_VISIBILITY, q)
            && !Matching(DRIVER_ASSIGNMENT, q) && !Matching(SENSITIVE_DOCUMENT, q) && !Matching(WORKING_HOURS, q)
  {
    AllDenials(DENIALS, q, seen);
    hide Matching;
    hide Grants;
    assert (forall i :: 0 <= i < |DENIALS| ==> !Matching(DENIALS[i], q))
           <==> !Matching(DENIALS[0], q) && !Matching(DENIALS[1], q) && !Matching(DENIALS[2], q)
                && !Matching(DENIALS[3], q) && !Matching(DENIALS[4], q) && !Matching(DENIALS[5], q);
  }

  lemma GrantsCons(p: Policy, rest: seq<Policy>, q: Request, seen: bool)
    ensures Grants([p] + rest, q, seen) ==
            if Denies(p, q) then false
            else if Matching(p, q) && IsBypass(p) then true
            else Grants(rest, q, seen || Allows(p, q))
  {
    assert ([p] + rest)[1..] == rest;
  }

  /** A list of mere denials lets an earlier ALLOW through exactly when none of them matches. */
  lemma {:induction false} AllDenials(ps: seq<Policy>, q: Request, seen: bool)
    requires forall i :: 0 <= i < |ps| ==> ps[i].effect != "ALLOW"
    ensures Grants(ps, q, seen) <==> seen && forall i :: 0 <= i < |ps| ==> !Matching(ps[i], q)
  {
    if ps != [] {
      AllDenials(ps[1..], q, seen || Allows(ps[0], q));
      assert forall i :: 0 < i < |ps| ==> ps[i] == ps[1..][i - 1];
    }
  }

  // ---- Whole decisions of the default engine ----

  /** The first built-in rule that objects to a request by a non-administrator, as its position
      in the engine, or 8 when none does. */
  function Objection(q: Request): nat {
    var s, r, e := q.subject, q.resource, q.environment;
    if r.ownerOrgId.Some? && s.organizationId != r.ownerOrgId then 2
    else if s.role == "CUSTOMS_BROKER" && r.resourceType == "customs_declaration"
            && s.country.Some? && r.country.Some? && s.country.value != r.country.value then 3
    else if s.role == "CARRIER" && r.resourceType == "rate_card"
            && s.carrierId.Some? && s.carrierId != r.carrierId then 4
    else if s.role == "DRIVER" && r.resourceType == "shipment"
            && r.assignedDriverUserId.Some? && r.assignedDriverUserId != Some(s.userId) then 5
    else if r.documentType.Some? && Upper(r.documentType.value) in {"TAX", "FINANCIAL", "CONTRACT", "CUSTOMS"}
            && s.clearanceLevel < 1 then 6
    else if !e.isWorkingHours && e.requestMethod in {"POST", "PATCH", "PUT", "DELETE"} then 7
    else 8
  }

  const RULE_NAMES := [
    "admin_bypass", "self_access", "tenant_isolation", "customs_country_lock",
    "carrier_rate_visibility", "driver_self_assignment", "sensitive_document_protection", "working_hours_restriction"]

  predicate NotAdmin(q: Request) {
    q.subject.role != "ADMIN" && q.subject.role != "LOGISTICS_MGR"
  }

  lemma RuleMatches(q: Request)
    ensures Matching(ADMIN_BYPASS, q) <==> !NotAdmin(q)
    ensures Matching(SELF_ACCESS, q) <==>
              q.subject.userId == q.resource.resourceId && q.environment.requestMethod == "GET"
    ensures NotAdmin(q) ==>
              var n := Objection(q);
              && (n == 2 <==> Matching(TENANT_ISOLATION, q))
              && (n > 3 ==> !Matching(CUSTOMS_COUNTRY, q)) && (n == 3 ==> Matching(CUSTOMS_COUNTRY, q))
              && (n > 4 ==> !Matching(CARRIER_VISIBILITY, q)) && (n == 4 ==> Matching(CARRIER_VISIBILITY, q))
              && (n > 5 ==> !Matching(DRIVER_ASSIGNMENT, q)) && (n == 5 ==> Matching(DRIVER_ASSIGNMENT, q))
              && (n > 6 ==> !Matching(SENSITIVE_DOCUMENT, q)) && (n == 6 ==> Matching(SENSITIVE_DOCUMENT, q))
              && (n > 7 ==> !Matching(WORKING_HOURS, q)) && (n == 7 ==> Matching(WORKING_HOURS, q))
              && 2 <= n <= 8
  {
  }

  lemma RuleAt(i: nat)
    requires i < 8
    ensures DEFAULT_POLICIES[i] == if i == 0 then ADMIN_BYPASS else if i == 1 then SELF_ACCESS
                                   else if i == 2 then TENANT_ISOLATION else if i == 3 then CUSTOMS_COUNTRY
                                   else if i == 4 then CARRIER_VISIBILITY else if i == 5 then DRIVER_ASSIGNMENT
                                   else if i == 6 then SENSITIVE_DOCUMENT else WORKING_HOURS
    ensures DEFAULT_POLICIES[i].name == RULE_NAMES[i] && DEFAULT_POLICIES[0] == ADMIN_BYPASS
    ensures DEFAULT_POLICIES[1] == SELF_ACCESS && (i >= 2 ==> DEFAULT_POLICIES[i].effect == "DENY")
  {
  }

  /** For a non-administrator the deciding policies are the objecting rules. */
  lemma RulesDecide(q: Request, i: nat)
    requires i < 8
    ensures DEFAULT_POLICIES[i].name == RULE_NAMES[i]
    ensures Decisive(DEFAULT_POLICIES[i], q) <==> Matching(DEFAULT_POLICIES[i], q) && i != 1
    ensures Matching(DEFAULT_POLICIES[0], q) <==> !NotAdmin(q)
    ensures Matching(DEFAULT_POLICIES[1], q) <==>
              q.subject.userId == q.resource.resourceId && q.environment.requestMethod == "GET"
    ensures NotAdmin(q) && 2 <= i < Objection(q) ==> !Matching(DEFAULT_POLICIES[i], q)
    ensures NotAdmin(q) && i == Objection(q) ==>
              Matching(DEFAULT_POLICIES[i], q) && DEFAULT_POLICIES[i].effect == "DENY"
  {
    RuleMatches(q);
    RuleAt(i);
    hide Matching;
    hide Objection;
  }

  lemma DefaultObligations(q: Request, o: string)
    ensures NotAdmin(q) ==>
              (o in Evaluate(DEFAULT_POLICIES, q).obligations
               <==> Objection(q) < 8 && o in DEFAULT_POLICIES[Objection(q)].obligations)
    ensures !NotAdmin(q) ==> (o in Evaluate(DEFAULT_POLICIES, q).obligations <==> o == "BYPASS")
  {
    var n := if NotAdmin(q) then Objection(q) else 0;
    ObligationsMeaning(DEFAULT_POLICIES, q, 0, {}, None, o);
    forall i: nat | i < 8
      ensures Decisive(DEFAULT_POLICIES[i], q) <==> Matching(DEFAULT_POLICIES[i], q) && i != 1
      ensures i < n ==> !Decisive(DEFAULT_POLICIES[i], q)
      ensures i == n ==> Matching(DEFAULT_POLICIES[i], q) && i != 1
    {
      RulesDecide(q, i);
    }
    hide Decisive;
    hide Matching;
    hide Objection;
    assert DEFAULT_POLICIES[1].obligations == {} && DEFAULT_POLICIES[0].obligations == {"BYPASS"};
    if n < 8 {
      assert Reached(DEFAULT_POLICIES, q, 0, n);
    }
    forall i: nat | Reached(DEFAULT_POLICIES, q, 0, i) ensures i == n || i == 1 {
      assert i < 8;
    }
  }

  lemma {:induction false} LastAllowPrefix(ps: seq<Policy>, q: Request, m: nat)
    requires m <= |ps| && forall i :: m <= i < |ps| ==> !Allows(ps[i], q)
    ensures LastAllow(ps, q, 0) == LastAllow(ps[..m], q, 0)
    decreases |ps|
  {
    if m < |ps| {
      LastAllowPrefix(ps[..|ps| - 1], q, m);
      assert ps[..|ps| - 1][..m] == ps[..m];
    } else {
      assert ps[..m] == ps;
    }
  }

  lemma OnlySelfAccess(q: Request)
    requires NotAdmin(q)
    ensures LastAllow(DEFAULT_POLICIES, q, 0)
            == if q.subject.userId == q.resource.resourceId && q.environment.requestMethod == "GET"
               then Some("self_access") else None
  {
    forall i | 2 <= i < 8 ensures !Allows(DEFAULT_POLICIES[i], q) {
      ObligationsByRule(i);
    }
    LastAllowPrefix(DEFAULT_POLICIES, q, 2);
    RulesDecide(q, 1);
    assert DEFAULT_POLICIES[0] == ADMIN_BYPASS && DEFAULT_POLICIES[1] == SELF_ACCESS;
    var two := DEFAULT_POLICIES[..2];
    assert two == [ADMIN_BYPASS, SELF_ACCESS] && two[..1] == [ADMIN_BYPASS] && two[..1][..0] == [];
    assert LastAllow(two[..1][..0], q, 0) == None;
    assert !Allows(two[..1][0], q);
    assert LastAllow(two[..1], q, 0) == None;
    assert Allows(two[1], q) <==> q.subject.userId == q.resource.resourceId && q.environment.requestMethod == "GET";
  }

  /** Every decision of the default engine.  Administrators bypass it.  Anybody else is refused
      by the first rule that objects, which is named and asks for an audit entry, and for a
      notification when it protects a document; with no objection only reading what carries
      one's own user id is granted, and nothing is asked for. */
  lemma DefaultEngineDecides(q: Request)
    ensures var d, n := Evaluate(StableSort(DEFAULT_POLICIES), q), Objection(q);
            if q.subject.role == "ADMIN" || q.subject.role == "LOGISTICS_MGR" then
              && d.allowed && d.matchedPolicy == Some("admin_bypass") && d.obligations == {"BYPASS"}
              && d.reason == "Administrators and logistics managers bypass all ABAC checks"
            else if n < 8 then
              && !d.allowed && d.matchedPolicy == Some(RULE_NAMES[n])
              && d.obligations == if n == 6 then {"AUDIT_LOG", "NOTIFY_ADMIN"} else {"AUDIT_LOG"}
            else if q.subject.userId == q.resource.resourceId && q.environment.requestMethod == "GET" then
              d == Decision(true, "Access granted", Some("self_access"), {})
            else
              d == Decision(false, "No matching ALLOW policy", None, {})
  {
    DefaultIsSorted();
    var n := if NotAdmin(q) then Objection(q) else 0;
    forall i: nat | i < 8
      ensures DEFAULT_POLICIES[i].name == RULE_NAMES[i]
      ensures i < n ==> !Decisive(DEFAULT_POLICIES[i], q)
      ensures i == n ==> Decisive(DEFAULT_POLICIES[i], q)
      ensures i > 1 && n == 8 ==> !Matching(DEFAULT_POLICIES[i], q)
    {
      RulesDecide(q, i);
    }
    RulesDecide(q, n % 8);
    DecisionMeaning(DEFAULT_POLICIES, q, 0, {}, None, n);
    if n == 8 {
      OnlySelfAccess(q);
    }
    var d := Evaluate(DEFAULT_POLICIES, q);
    forall o ensures o in d.obligations <==>
                       if !NotAdmin(q) then o == "BYPASS" else n < 8 && o in DEFAULT_POLICIES[n].obligations
    {
      DefaultObligations(q, o);
    }
    hide Decisive;
    hide Matching;
    hide Objection;
    hide LastAllow;
    if n < 8 {
      ObligationsByRule(n);
    }
  }

  lemma ObligationsByRule(n: nat)
    requires n < 8
    ensures n == 0 ==> DEFAULT_POLICIES[n].obligations == {"BYPASS"} && DEFAULT_POLICIES[n].effect == "ALLOW"
    ensures n >= 2 ==>
              DEFAULT_POLICIES[n].obligations == if n == 6 then {"AUDIT_LOG", "NOTIFY_ADMIN"} else {"AUDIT_LOG"}
    ensures n >= 2 ==> DEFAULT_POLICIES[n].effect == "DENY"
  {
  }

  // ---- Tenant isolation over every reconfiguration ----

  datatype Operation = RegisterPolicy(policy: Policy) | UnregisterPolicy(name: string)

  function Apply(ps: seq<Policy>, op: Operation): seq<Policy> {
    match op
    case RegisterPolicy(p) => Insert(ps, p)
    case UnregisterPolicy(name) => Without(ps, name)
  }

  function ApplyAll(ps: seq<Policy>, ops: seq<Operation>): seq<Policy>
    decreases |ops|
  {
    if ops == [] then ps else ApplyAll(Apply(ps, ops[0]), ops[1..])
  }

  /** An operation that leaves tenant isolation in force. */
  ghost predicate Harmless(op: Operation) {
    match op
    case RegisterPolicy(p) => IsBypass(p) ==> p.priority >= 20
    case UnregisterPolicy(name) => name != "tenant_isolation"
  }

  /** Tenant isolation sits at i with no bypass but the administrators' before it. */
  ghost predicate Guarded(ps: seq<Policy>, i: nat) {
    && i < |ps| && ps[i] == TENANT_ISOLATION
    && forall j :: 0 <= j < i && IsBypass(ps[j]) ==> ps[j] == ADMIN_BYPASS
  }

  lemma RegisterKeepsGuard(ps: seq<Policy>, p: Policy, i: nat) returns (k: nat)
    requires Guarded(ps, i) && Harmless(RegisterPolicy(p))
    ensures Guarded(Insert(ps, p), k)
  {
    var at := InsertPosition(ps, p);
    k := if at <= i then i + 1 else i;
  }

  lemma WithoutAround(before: seq<Policy>, p: Policy, after: seq<Policy>, name: string)
    requires p.name != name
    ensures Without(before + [p] + after, name) == Without(before, name) + [p] + Without(after, name)
  {
    WithoutConcat(before + [p], after, name);
    WithoutConcat(before, [p], name);
    assert [p][..0] == [] && Without([p], name) == [] + [p];
  }

  lemma UnregisterKeepsGuard(ps: seq<Policy>, name: string, i: nat) returns (k: nat)
    requires Guarded(ps, i) && Harmless(UnregisterPolicy(name))
    ensures Guarded(Without(ps, name), k)
  {
    var before, after := ps[..i], ps[i + 1..];
    assert ps == before + [TENANT_ISOLATION] + after;
    WithoutAround(before, TENANT_ISOLATION, after, name);
    WithoutKeeps(before, name);
    hide Without;
    var kept := Without(before, name);
    k := |kept|;
    forall j | 0 <= j < k && IsBypass(Without(ps, name)[j]) ensures Without(ps, name)[j] == ADMIN_BYPASS {
      assert kept[j] in kept && kept[j] in before;
    }
  }

  lemma {:induction false} HarmlessKeepsGuard(ps: seq<Policy>, ops: seq<Operation>, i: nat) returns (k: nat)
    requires Guarded(ps, i)
    requires forall op :: op in ops ==> Harmless(op)
    ensures Guarded(ApplyAll(ps, ops), k)
    decreases |ops|
  {
    k := i;
    if ops != [] {
      match ops[0] {
        case RegisterPolicy(p) => k := RegisterKeepsGuard(ps, p, i);
        case UnregisterPolicy(name) => k := UnregisterKeepsGuard(ps, name, i);
      }
      k := HarmlessKeepsGuard(Apply(ps, ops[0]), ops[1..], k);
    }
  }

  /** A non-administrator reaching for another organisation's resource. */
  predicate CrossTenant(q: Request) {
    && q.subject.role != "ADMIN" && q.subject.role != "LOGISTICS_MGR"
    && q.resource.ownerOrgId.Some? && q.subject.organizationId != q.resource.ownerOrgId
  }

  lemma {:induction false} GuardRefuses(ps: seq<Policy>, q: Request, i: nat, seen: bool)
    requires Guarded(ps, i) && CrossTenant(q)
    ensures !Grants(ps, q, seen)
  {
    if i > 0 {
      assert Guarded(ps[1..], i - 1);
      GuardRefuses(ps[1..], q, i - 1, seen || Allows(ps[0], q));
    }
  }

  lemma DefaultIsSorted()
    ensures Sorted(DEFAULT_POLICIES) && StableSort(DEFAULT_POLICIES) == DEFAULT_POLICIES
    ensures Guarded(DEFAULT_POLICIES, 2)
  {
    SortedIsFixed(DEFAULT_POLICIES);
  }

  /** From the default engine, whatever is registered and unregistered afterwards, as long as
      no BYPASS of priority below 20 is added and tenant isolation itself is not removed,
      cross-tenant access by a non-administrator is refused. */
  lemma TenantIsolationHolds(ops: seq<Operation>, q: Request)
    requires forall op :: op in ops ==> Harmless(op)
    requires CrossTenant(q)
    ensures !Evaluate(ApplyAll(StableSort(DEFAULT_POLICIES), ops), q).allowed
  {
    DefaultIsSorted();
    var k := HarmlessKeepsGuard(DEFAULT_POLICIES, ops, 2);
    var ps := ApplyAll(DEFAULT_POLICIES, ops);
    AllowedIsGrants(ps, q);
    GuardRefuses(ps, q, k, false);
  }

  /** Neither policy before tenant isolation decides for a cross-tenant request. */
  lemma NothingDecidesEarlier(q: Request, j: nat)
    requires CrossTenant(q) && j < 2
    ensures !Decisive(DEFAULT_POLICIES[j], q)
  {
    assert DEFAULT_POLICIES[j] == if j == 0 then ADMIN_BYPASS else SELF_ACCESS;
  }

  lemma PlaceBelowTwenty(p: Policy, i: nat)
    requires p.priority < 20 && i <= |DEFAULT_POLICIES|
    requires i > 0 ==> DEFAULT_POLICIES[i - 1].priority <= p.priority
    ensures i <= 2
  {
    DefaultIsSorted();
    assert DEFAULT_POLICIES[2].priority == 20;
  }

  lemma FirstDecisiveGrants(a: seq<Policy>, p: Policy, b: seq<Policy>, q: Request)
    requires IsBypass(p) && Matching(p, q)
    requires forall j :: 0 <= j < |a| ==> !Decisive(a[j], q)
    ensures Evaluate(a + [p] + b, q).allowed
  {
    var ps := a + [p] + b;
    assert ps[|a|] == p;
    assert DecidedAt(ps, q, |a|);
    AllowedExactlyWhen(ps, q);
  }

  lemma EarlyBypassOpens(p: Policy, q: Request)
    requires CrossTenant(q) && IsBypass(p) && Matching(p, q) && p.priority < 20
    ensures Evaluate(Insert(DEFAULT_POLICIES, p), q).allowed
  {
    var i := InsertPosition(DEFAULT_POLICIES, p);
    PlaceBelowTwenty(p, i);
    forall j | 0 <= j < i ensures !Decisive(DEFAULT_POLICIES[..i][j], q) {
      NothingDecidesEarlier(q, j);
    }
    FirstDecisiveGrants(DEFAULT_POLICIES[..i], p, DEFAULT_POLICIES[i..], q);
  }

  /** The priority bound is exact: a matching BYPASS opens the default engine to cross-tenant
      access if and only if its priority is below 20, a tie going to the older policy. */
  lemma BypassOpensExactlyBelowTwenty(p: Policy, q: Request)
    requires CrossTenant(q) && IsBypass(p) && Matching(p, q)
    ensures Evaluate(Insert(DEFAULT_POLICIES, p), q).allowed <==> p.priority < 20
  {
    if p.priority < 20 {
      EarlyBypassOpens(p, q);
    } else {
      DefaultIsSorted();
      var k := RegisterKeepsGuard(DEFAULT_POLICIES, p, 2);
      AllowedIsGrants(Insert(DEFAULT_POLICIES, p), q);
      GuardRefuses(Insert(DEFAULT_POLICIES, p), q, k, false);
    }
  }

  // ---- The default engine with more policies ----

  function Registrations(extras: seq<Policy>): (ops: seq<Operation>)
    ensures |ops| == |extras|
  {
    seq(|extras|, i requires 0 <= i < |extras| => RegisterPolicy(extras[i]))
  }

  lemma {:induction false} RegisteredMembers(ps: seq<Policy>, extras: seq<Policy>)
    ensures forall p :: p in ApplyAll(ps, Registrations(extras)) <==> p in ps || p in extras
    decreases |extras|
  {
    if extras != [] {
      var first, rest := extras[0], extras[1..];
      InsertAddsOne(ps, first);
      assert forall p :: p in Insert(ps, first) <==> p in multiset(Insert(ps, first));
      assert forall p :: p in ps <==> p in multiset(ps);
      RegisteredMembers(Insert(ps, first), rest);
      assert Registrations(extras)[1..] == Registrations(rest);
      assert extras == [first] + rest;
    }
  }

  /** With any number of ALLOW policies without BYPASS registered, whatever their priorities, a
      non-administrator is let in exactly when no built-in rule objects and one of them, or self
      access, matches. */
  lemma RegisteredAllowsGrant(extras: seq<Policy>, q: Request)
    requires q.subject.role != "ADMIN" && q.subject.role != "LOGISTICS_MGR"
    requires forall p :: p in extras ==> p.effect == "ALLOW" && "BYPASS" !in p.obligations
    ensures Evaluate(ApplyAll(StableSort(DEFAULT_POLICIES), Registrations(extras)), q).allowed <==>
            && Objection(q) == 8
            && ((q.subject.userId == q.resource.resourceId && q.environment.requestMethod == "GET")
                || exists p :: p in extras && p.condition(q.subject, q.resource, q.environment).Matches?)
  {
    DefaultIsSorted();
    var ps := ApplyAll(DEFAULT_POLICIES, Registrations(extras));
    RegisteredMembers(DEFAULT_POLICIES, extras);
    AllowedExactlyWhen(ps, q);
    hide ApplyAll;
    hide Registrations;
    hide Evaluate;
    forall p | p in ps
      ensures !(Decisive(p, q) && IsBypass(p))
      ensures Objection(q) == 8 ==> !Decisive(p, q)
      ensures Allows(p, q) <==> Matching(p, q) && (p == SELF_ACCESS || p in extras)
    {
      if p !in extras {
        DefaultMember(p, q);
      }
    }
    var n := Objection(q);
    RulesDecide(q, if n < 8 then n else 1);
    RulesDecide(q, 1);
    RuleAt(1);
    hide Objection;
    hide Decisive;
    hide IsBypass;
    hide DecidedAt;
    hide Allows;
    assert SELF_ACCESS in DEFAULT_POLICIES && SELF_ACCESS in ps;
    if n < 8 {
      assert DEFAULT_POLICIES[n] in ps && Decisive(DEFAULT_POLICIES[n], q);
    }
    forall k: nat ensures !(DecidedAt(ps, q, k) && IsBypass(ps[k])) {
      NeverDecidedByBypass(ps, q, k);
    }
  }

  lemma NeverDecidedByBypass(ps: seq<Policy>, q: Request, k: nat)
    requires forall p :: p in ps ==> !(Decisive(p, q) && IsBypass(p))
    ensures !(DecidedAt(ps, q, k) && IsBypass(ps[k]))
  {
  }

  lemma DefaultMember(p: Policy, q: Request)
    requires NotAdmin(q) && p in DEFAULT_POLICIES
    ensures !(Decisive(p, q) && IsBypass(p))
    ensures Objection(q) == 8 ==> !Decisive(p, q)
    ensures Allows(p, q) <==> p == SELF_ACCESS && Matching(p, q)
  {
    var i :| 0 <= i < 8 && DEFAULT_POLICIES[i] == p;
    RulesDecide(q, i);
    ObligationsByRule(i);
    hide Objection;
    assert i == 1 <==> p == SELF_ACCESS by {
      assert DEFAULT_POLICIES[1] == SELF_ACCESS;
      assert p.name == RULE_NAMES[i];
    }
  }
}
