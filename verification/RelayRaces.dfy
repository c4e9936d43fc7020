/** Two relays on one row, from any reachable state: neither claim locks anything, so what one relay alone guarantees
    fails without any fault of the database. */
module RelayRaces {
  import opened Outbox
  import opened RelayBatch
  import opened Protocol
  import opened Refinement

  /** An action of a relay, and if it is a mark, one that works. */
  predicate MarkWorks(a: Action) {
    a.Relay? && (a.relay.MarkPublished? || a.relay.MarkError? ==> a.relay.applied && !a.relay.threw)
  }

  // ---------------------------------------------------------------- one relay's steps

  /** The oldest pending row is what a claim of one takes, and it stays that. */
  lemma {:induction false} OldestClaimed(policy: CountingPolicy, rows: seq<Row>, i: nat)
    requires i < |rows| && Pending(rows[i]) && Ahead(rows, 0, i) == 0
    ensures var (claimed, batch) := Outbox.Claim(policy, rows, 1);
      && |claimed| == |rows| && claimed[i] == ClaimedRow(policy, rows[i])
      && batch == [Record(i, claimed[i].attempts, rows[i].event)]
      && Ahead(claimed, 0, i) == 0
  {
    ClaimedIff(rows, 0, 1, i);
    assert PendingIds(rows, 0, 1) == [i];
    SameAhead(rows, Outbox.Claim(policy, rows, 1).0, 0, i);
  }

  lemma {:induction false} SameAhead(rows: seq<Row>, later: seq<Row>, from: nat, i: nat)
    requires from <= i <= |rows| == |later| && forall j :: 0 <= j < i ==> Pending(rows[j]) == Pending(later[j])
    ensures Ahead(later, from, i) == Ahead(rows, from, i)
    decreases i - from
  {
    if from < i {
      SameAhead(rows, later, from + 1, i);
    }
  }

  predicate Oldest(s: State, service: Service, i: nat) {
    var rows := Rows(s, service);
    i < |rows| && Pending(rows[i]) && Ahead(rows, 0, i) == 0
  }

  lemma {:induction false} Claims(s: State, r: nat, service: Service, i: nat) returns (x: Action, n: State)
    requires r !in s.relays && Oldest(s, service, i)
    ensures IsStep(s, x, n) && MarkWorks(x) && Oldest(n, service, i)
    ensures var rows := Rows(n, service); var row := Rows(s, service)[i];
      && rows[i] == ClaimedRow(Policy(service), row)
      && n.relays == s.relays[r := RelayPass(service, [Record(i, rows[i].attempts, row.event)], ToPublish)]
  {
    hide Outbox.Claim;
    OldestClaimed(Policy(service), Rows(s, service), i);
    x := Action.Relay(r, Claim(service, 1));
    n := Step(s, x);
  }

  /** Pass `r` works on that record alone. */
  predicate WorksOn(s: State, r: nat, service: Service, record: Record, stage: Stage) {
    r in s.relays && s.relays[r] == RelayPass(service, [record], stage) && record.id < |Rows(s, service)|
  }

  lemma {:induction false} Publishes(s: State, r: nat, service: Service, record: Record, outcome: PublishOutcome)
    returns (x: Action, n: State)
    requires WorksOn(s, r, service, record, ToPublish)
    ensures IsStep(s, x, n) && MarkWorks(x) && Rows(n, service) == Rows(s, service)
    ensures n.relays == s.relays[r :=
      RelayPass(service, [record], if outcome.Confirmed? then PublishConfirmed else Erred)]
  {
    hide Copies;
    x := Action.Relay(r, Publish(outcome, if outcome.Confirmed? then Bound(record.event) else {}));
    n := Step(s, x);
  }

  lemma {:induction false} MarksPublished(s: State, r: nat, service: Service, record: Record)
    returns (x: Action, n: State)
    requires WorksOn(s, r, service, record, PublishConfirmed)
    ensures IsStep(s, x, n) && MarkWorks(x)
    ensures Rows(n, service) ==
      Rows(s, service)[record.id := PublishedRow(Policy(service), Rows(s, service)[record.id], 0)]
    ensures n.relays == s.relays[r := RelayPass(service, [], ToPublish)]
  {
    x := Action.Relay(r, MarkPublished(0, true, false));
    n := Step(s, x);
    assert [record][1..] == [];
  }

  lemma {:induction false} MarksDead(s: State, r: nat, service: Service, record: Record, maxAttempts: int)
    returns (x: Action, n: State)
    requires WorksOn(s, r, service, record, Erred) && LastAttempt(maxAttempts, record)
    ensures IsStep(s, x, n) && MarkWorks(x)
    ensures Rows(n, service) ==
      Rows(s, service)[record.id := DeadRow(Policy(service), Rows(s, service)[record.id], "", 0)]
  {
    x := Action.Relay(r, MarkError(maxAttempts, "", 0, true, false));
    n := Step(s, x);
  }

  // ---------------------------------------------------------------- the race

  /** Both passes claim the row before either publishes it; the first publishes and marks it. */
  lemma {:induction false} FirstPublishes(s: State, service: Service, i: nat, r: nat, q: nat)
    returns (actions: seq<Action>, n: State, record: Record)
    requires Oldest(s, service, i) && r !in s.relays && q !in s.relays && r != q
    ensures Leads(s, actions, n) && forall k :: 0 <= k < |actions| ==> MarkWorks(actions[k])
    ensures i < |Rows(n, service)| && Rows(n, service)[i].publishedAt.Some?
    ensures record.id == i && record.attempts >= Rows(s, service)[i].attempts
    ensures WorksOn(n, q, service, record, ToPublish)
  {
    hide Step, Enabled, Leads, Rows, MarkWorks, PublishedRow, Ahead;
    var a0, s1 := Claims(s, r, service, i);
    var a1, s2 := Claims(s1, q, service, i);
    var mine := Record(i, Rows(s1, service)[i].attempts, Rows(s, service)[i].event);
    record := Record(i, Rows(s2, service)[i].attempts, Rows(s1, service)[i].event);
    var a2, s3 := Publishes(s2, r, service, mine, Confirmed);
    var a3, s4 := MarksPublished(s3, r, service, mine);
    n := s4;
    PublishedIsSome(Policy(service), Rows(s3, service)[i]);
    actions := Chain([a0, a1, a2, a3], [s, s1, s2, s3, s4]);
  }

  lemma {:induction false} PublishedIsSome(policy: CountingPolicy, row: Row)
    ensures PublishedRow(policy, row, 0).publishedAt.Some? && DeadRow(policy, row, "", 0).deadAt.Some?
    ensures DeadRow(policy, row, "", 0).publishedAt == row.publishedAt
  {
  }

  /** Steps one after the other. */
  lemma {:induction false} Chain(steps: seq<Action>, states: seq<State>) returns (actions: seq<Action>)
    requires |states| == |steps| + 1
    requires forall k :: 0 <= k < |steps| ==> IsStep(states[k], steps[k], states[k + 1])
    ensures actions == steps && Leads(states[0], actions, states[|steps|])
    decreases |steps|
  {
    hide Step, Enabled;
    actions := steps;
    if steps != [] {
      var rest := Chain(steps[1..], states[1..]);
    }
  }

  /** What one relay alone guarantees fails with two, although every mark works: a published row is published again
      by the pass that claimed it before it was marked, and if that publish fails and was the last
      attempt, the row is published and dead. */
  lemma {:induction false} PublishedTwiceOrDead(s: State, service: Service, i: nat, maxAttempts: int)
    returns (actions: seq<Action>, m: State, more: seq<Action>, n: State, q: nat)
    requires Reachable(s) && Oldest(s, service, i) && Rows(s, service)[i].attempts + 1 >= maxAttempts
    ensures Leads(s, actions, m) && Leads(m, more, n) && Reachable(m) && Reachable(n)
    ensures forall k :: 0 <= k < |actions + more| ==> MarkWorks((actions + more)[k])
    ensures i < |Rows(m, service)| && Rows(m, service)[i].publishedAt.Some?
    ensures Working(m, q, ToPublish) && m.relays[q].service == service && m.relays[q].batch[0].id == i
    ensures i < |Rows(n, service)| && Rows(n, service)[i].publishedAt.Some? && Rows(n, service)[i].deadAt.Some?
  {
    hide Step, Enabled, Leads, Rows, MarkWorks, DeadRow, Reachable, Oldest;
    var r := FreshId(s.relays.Keys);
    q := r + 1;
    var record;
    actions, m, record := FirstPublishes(s, service, i, r, q);
    var a0, s1 := Publishes(m, q, service, record, Rejected);
    var a1, s2 := MarksDead(s1, q, service, record, maxAttempts);
    n := s2;
    PublishedIsSome(Policy(service), Rows(s1, service)[i]);
    more := Chain([a0, a1], [m, s1, s2]);
    LeadsReachable(s, actions, m);
    LeadsReachable(m, more, n);
  }
}
