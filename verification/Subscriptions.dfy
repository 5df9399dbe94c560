/** Subscriptions under the partial unique index on (user, plan) of rows that are
    not cancelled (`svc-aerial-provision/internal/provision/provision.go`,
    `migrations/000003_subscription_uniqueness.up.sql`). */
module Subscriptions {
  import opened Common

  type Id = int

  datatype Status = Active | Suspended | Cancelled

  datatype Sub = Sub(id: Id, org: string, user: Id, plan: string, status: Status, cancelledAt: Option<int>)

  datatype Error = PlanNotFound | SubNotFound | SubExists | Internal

  datatype Table = Table(plans: set<string>, subs: map<Id, Sub>, supply: int, now: int)

  datatype Call =
    | CheckPlan(org: string, user: Id, plan: string)
    | InsertSub(org: string, user: Id, plan: string)
    | CancelSub(org: string, id: Id)

  datatype Next = Continue(call: Call) | Created(id: Id) | CancelledOk | Refused(error: Error)

  predicate LiveFor(s: Sub, user: Id, plan: string) {
    s.user == user && s.plan == plan && s.status != Cancelled
  }

  /** The partial unique index would be violated. */
  predicate Conflict(t: Table, user: Id, plan: string) {
    exists i :: i in t.subs && LiveFor(t.subs[i], user, plan)
  }

  predicate Matches(t: Table, org: string, id: Id) {
    id in t.subs && t.subs[id].org == org && t.subs[id].status != Cancelled
  }

  function Effect(t: Table, c: Call, o: Outcome): Table {
    if !o.Effective() then t else
    match c
    case CheckPlan(_, _, _) => t
    case InsertSub(org, user, plan) =>
      if Conflict(t, user, plan) then t
      else t.(subs := t.subs[t.supply := Sub(t.supply, org, user, plan, Active, None)], supply := t.supply + 1)
    case CancelSub(org, id) =>
      if Matches(t, org, id) then t.(subs := t.subs[id := t.subs[id].(status := Cancelled, cancelledAt := Some(t.now))]) else t
  }

  function Then(t: Table, c: Call, o: Outcome): Next {
    if o.Failed? then Refused(Internal) else
    match c
    case CheckPlan(org, user, plan) => if plan in t.plans then Continue(InsertSub(org, user, plan)) else Refused(PlanNotFound)
    case InsertSub(_, user, plan) => if Conflict(t, user, plan) then Refused(SubExists) else Created(t.supply)
    case CancelSub(org, id) => if Matches(t, org, id) then CancelledOk else Refused(SubNotFound)
  }

  // ------------------------------------------------------------ the machine

  datatype Sys = Sys(table: Table, calls: map<int, Call>)

  datatype Action = Begin(id: int, call: Call) | Go(id: int, delay: nat, outcome: Outcome)

  function Elapse(t: Table, delay: nat): Table {
    t.(now := t.now + delay)
  }

  function Apply(s: Sys, a: Action): Sys {
    match a
    case Begin(id, c) => if id in s.calls || c.InsertSub? then s else s.(calls := s.calls[id := c])
    case Go(id, delay, o) =>
      if id !in s.calls then s else
      var c, t := s.calls[id], Elapse(s.table, delay);
      var n := Then(t, c, o);
      Sys(Effect(t, c, o), if n.Continue? then s.calls[id := n.call] else s.calls - {id})
  }

  function Run(s: Sys, acts: seq<Action>): Sys
    decreases |acts|
  {
    if acts == [] then s else Run(Apply(s, acts[0]), acts[1..])
  }

  ghost predicate Initial(s: Sys) {
    s.table.subs == map[] && s.calls == map[]
  }

  // ------------------------------------------------------------- invariants

  ghost function Rows(t: Table, user: Id, plan: string): set<Id> {
    set i | i in t.subs && t.subs[i].user == user && t.subs[i].plan == plan
  }

  ghost function CancelledRows(t: Table, user: Id, plan: string): set<Id> {
    set i | i in t.subs && t.subs[i].user == user && t.subs[i].plan == plan && t.subs[i].status == Cancelled
  }

  ghost predicate OneLive(t: Table) {
    forall i, j :: i in t.subs && j in t.subs && LiveFor(t.subs[i], t.subs[j].user, t.subs[j].plan) && t.subs[j].status != Cancelled ==> i == j
  }

  ghost predicate TableOk(t: Table) {
    && (forall i :: i in t.subs ==>
          && i < t.supply && t.subs[i].id == i && t.subs[i].plan in t.plans
          && (t.subs[i].status == Cancelled <==> t.subs[i].cancelledAt.Some?))
    && OneLive(t)
  }

  ghost predicate Sound(s: Sys) {
    TableOk(s.table) && forall i :: i in s.calls && s.calls[i].InsertSub? ==> s.calls[i].plan in s.table.plans
  }

  /** Rows are never deleted; a cancelled row never changes again; only status
      and cancelled_at of a live row do. */
  ghost predicate Grows(t: Table, u: Table) {
    && t.plans == u.plans
    && forall i :: i in t.subs ==>
         && i in u.subs && u.subs[i] == t.subs[i].(status := u.subs[i].status, cancelledAt := u.subs[i].cancelledAt)
         && (t.subs[i].status == Cancelled ==> u.subs[i] == t.subs[i])
  }

  lemma EffectOk(t: Table, c: Call, o: Outcome)
    requires TableOk(t) && (c.InsertSub? ==> c.plan in t.plans)
    ensures TableOk(Effect(t, c, o)) && Grows(t, Effect(t, c, o))
  {
  }

  lemma {:induction false} RunSound(s: Sys, acts: seq<Action>)
    requires Sound(s)
    ensures Sound(Run(s, acts)) && Grows(s.table, Run(s, acts).table)
    decreases |acts|
  {
    if acts != [] {
      var a, t := acts[0], Apply(s, acts[0]);
      if a.Go? && a.id in s.calls {
        var b := Elapse(s.table, a.delay);
        assert TableOk(b);
        EffectOk(b, s.calls[a.id], a.outcome);
      }
      assert Grows(s.table, t.table);
      RunSound(t, acts[1..]);
    }
  }

  /** Rows of a (user, plan) are its cancelled ones and at most one more. */
  lemma LiveOrCancelled(t: Table, user: Id, plan: string)
    requires TableOk(t)
    ensures |Rows(t, user, plan)| == |CancelledRows(t, user, plan)| + (if Conflict(t, user, plan) then 1 else 0)
  {
    if Conflict(t, user, plan) {
      var i :| i in t.subs && LiveFor(t.subs[i], user, plan);
      forall j | j in Rows(t, user, plan) ensures j in CancelledRows(t, user, plan) + {i} {
        assert t.subs[j].status != Cancelled ==> LiveFor(t.subs[i], t.subs[j].user, t.subs[j].plan);
      }
      assert Rows(t, user, plan) == CancelledRows(t, user, plan) + {i};
    } else {
      forall j | j in Rows(t, user, plan) ensures j in CancelledRows(t, user, plan) {
        assert !LiveFor(t.subs[j], user, plan);
      }
      assert Rows(t, user, plan) == CancelledRows(t, user, plan);
    }
  }

  ghost predicate LiveRow(t: Table, i: Id, user: Id, plan: string) {
    i in t.subs && t.subs[i].user == user && t.subs[i].plan == plan && (t.subs[i].status == Active || t.subs[i].status == Suspended)
  }

  /** A (user, plan) has a row that is active or suspended. */
  ghost predicate Subscribed(t: Table, user: Id, plan: string) {
    exists i :: LiveRow(t, i, user, plan)
  }

  lemma ConflictIff(t: Table, user: Id, plan: string)
    ensures Conflict(t, user, plan) <==> Subscribed(t, user, plan)
  {
    if Conflict(t, user, plan) {
      var i :| i in t.subs && LiveFor(t.subs[i], user, plan);
      assert LiveRow(t, i, user, plan);
    }
    if Subscribed(t, user, plan) {
      var i :| LiveRow(t, i, user, plan);
      assert LiveFor(t.subs[i], user, plan);
    }
  }

  /** Under any interleaving and any failures: each (user, plan) has at most one
      row that is active or suspended; cancelled_at is set iff the row is cancelled; the
      rows ever created are the cancelled ones plus 0 or 1; and in every
      continuation a cancelled row stays as it is. */
  lemma OneLiveSubscription(s: Sys, acts: seq<Action>, more: seq<Action>, user: Id, plan: string)
    requires Initial(s)
    ensures var t := Run(s, acts).table;
            && (forall i, j :: LiveRow(t, i, user, plan) && LiveRow(t, j, user, plan) ==> i == j)
            && (forall i :: i in t.subs ==> (t.subs[i].status == Cancelled <==> t.subs[i].cancelledAt.Some?))
            && |Rows(t, user, plan)| == |CancelledRows(t, user, plan)| + (if Subscribed(t, user, plan) then 1 else 0)
            && Grows(t, Run(Run(s, acts), more).table)
  {
    RunSound(s, acts);
    RunSound(Run(s, acts), more);
    var t := Run(s, acts).table;
    LiveOrCancelled(t, user, plan);
    ConflictIff(t, user, plan);
    forall i, j | LiveRow(t, i, user, plan) && LiveRow(t, j, user, plan) ensures i == j {
      assert LiveFor(t.subs[i], t.subs[j].user, t.subs[j].plan);
    }
  }

  /** What CreateSubscription does, request by request: read is what happens to
      the plan lookup, write to the insert. */
  function Create(t: Table, org: string, user: Id, plan: string, read: Outcome, write: Outcome): (Table, Next) {
    var n := Then(t, CheckPlan(org, user, plan), read);
    if n.Continue? then (Effect(t, n.call, write), Then(t, n.call, write)) else (t, n)
  }

  /** Both requests are runs of the machine: one begin, then one step for each of
      their statements, whatever they meet. */
  lemma RequestsAreRuns(s: Sys, k: int, org: string, user: Id, plan: string, id: Id, d: nat, e: nat, read: Outcome, write: Outcome)
    requires k !in s.calls
    ensures var t := Run(s, [Begin(k, CheckPlan(org, user, plan)), Go(k, d, read), Go(k, e, write)]);
            t.table == Create(s.table, org, user, plan, read, write).0.(now := t.table.now) && t.calls == s.calls
    ensures var t := Run(s, [Begin(k, CancelSub(org, id)), Go(k, d, write)]);
            t.table == Effect(Elapse(s.table, d), CancelSub(org, id), write) && t.calls == s.calls
  {
    ThreeActions(s, Begin(k, CheckPlan(org, user, plan)), Go(k, d, read), Go(k, e, write));
    TwoActions(s, Begin(k, CancelSub(org, id)), Go(k, d, write));
    SameConflict(s.table, Elapse(s.table, d), user, plan);
    SameConflict(s.table, Elapse(Elapse(s.table, d), e), user, plan);
  }

  lemma TwoActions(s: Sys, a: Action, b: Action)
    ensures Run(s, [a, b]) == Apply(Apply(s, a), b)
  {
    assert [a, b][1..] == [b] && [b][1..] == [];
    assert Run(Apply(s, a), [b]) == Run(Apply(Apply(s, a), b), []);
  }

  lemma ThreeActions(s: Sys, a: Action, b: Action, c: Action)
    ensures Run(s, [a, b, c]) == Apply(Apply(Apply(s, a), b), c)
  {
    assert [a, b, c][1..] == [b, c];
    TwoActions(Apply(s, a), b, c);
  }

  lemma SameConflict(t: Table, u: Table, user: Id, plan: string)
    requires t.subs == u.subs
    ensures Conflict(t, user, plan) <==> Conflict(u, user, plan)
  {
  }

  /** A known plan without a live row for the user: the reply is a new id, and the
      table gains one row under it, with the caller's organisation, the user and
      the plan, active and not cancelled; no other row changes. */
  lemma CreateAddsRow(t: Table, org: string, user: Id, plan: string)
    requires TableOk(t) && plan in t.plans && !Subscribed(t, user, plan)
    ensures var (u, r) := Create(t, org, user, plan, Done, Done);
            && r.Created? && r.id !in t.subs && u.plans == t.plans
            && u.subs == t.subs[r.id := Sub(r.id, org, user, plan, Active, None)]
            && TableOk(u) && Subscribed(u, user, plan)
  {
    ConflictIff(t, user, plan);
    var (u, r) := Create(t, org, user, plan, Done, Done);
    EffectOk(t, InsertSub(org, user, plan), Done);
    assert LiveRow(u, r.id, user, plan);
  }

  /** The refusals: an unknown plan, a live row of the pair, a failed statement.
      None of them changes the table, except that an insert whose reply was lost
      may have been made. */
  lemma CreateRefused(t: Table, org: string, user: Id, plan: string, read: Outcome, write: Outcome)
    ensures var (u, r) := Create(t, org, user, plan, read, write);
            && (read.Failed? ==> r == Refused(Internal) && u == t)
            && (read.Done? && plan !in t.plans ==> r == Refused(PlanNotFound) && u == t)
            && (read.Done? && plan in t.plans && write.Failed? ==>
                  && r == Refused(Internal)
                  && (u == t || u == Create(t, org, user, plan, Done, Done).0)
                  && (!write.applied ==> u == t))
            && (read.Done? && plan in t.plans && Subscribed(t, user, plan) ==> u == t && (write.Done? ==> r == Refused(SubExists)))
  {
    ConflictIff(t, user, plan);
  }

  /** Cancel of the organisation's own live row: that row, and no other, becomes
      cancelled at the time of the statement. A row that is missing, another
      organisation's or cancelled already is not found; a failed statement is an
      error. */
  lemma CancelReplies(t: Table, org: string, id: Id, o: Outcome)
    ensures var (u, r) := (Effect(t, CancelSub(org, id), o), Then(t, CancelSub(org, id), o));
            var mine := id in t.subs && t.subs[id].org == org && (t.subs[id].status == Active || t.subs[id].status == Suspended);
            && (o == Done ==> r == if mine then CancelledOk else Refused(SubNotFound))
            && (o != Done ==> r == Refused(Internal))
            && (mine && (o == Done || o == Failed(true)) ==>
                  var s := t.subs[id];
                  u.subs == t.subs[id := Sub(s.id, s.org, s.user, s.plan, Cancelled, Some(t.now))])
            && (!mine || o == Failed(false) ==> u == t)
            && u.plans == t.plans
  {
  }

  /** The life of a subscription: created, it makes a second create for the pair a
      duplicate, whoever calls; its organisation can cancel it, once; and then the
      user can subscribe again under a new id. */
  lemma ResubscribeAfterCancel(t: Table, org: string, user: Id, plan: string, other: string)
    requires TableOk(t) && plan in t.plans && !Subscribed(t, user, plan)
    ensures var (a, r) := Create(t, org, user, plan, Done, Done);
            && r.Created?
            && Create(a, other, user, plan, Done, Done) == (a, Refused(SubExists))
            && Then(a, CancelSub(org, r.id), Done) == CancelledOk
            && var b := Effect(a, CancelSub(org, r.id), Done);
               && Then(b, CancelSub(org, r.id), Done) == Refused(SubNotFound)
               && var (c, again) := Create(b, other, user, plan, Done, Done);
                  again.Created? && again.id !in b.subs && again.id in c.subs && again.id != r.id
  {
    CreateAddsRow(t, org, user, plan);
    var (a, r) := Create(t, org, user, plan, Done, Done);
    CreateRefused(a, other, user, plan, Done, Done);
    CancelReplies(a, org, r.id, Done);
    EffectOk(a, CancelSub(org, r.id), Done);
    CreateAddsRow(Effect(a, CancelSub(org, r.id), Done), other, user, plan);
  }

  /** Cancel from another org changes nothing and does not say the row exists. */
  lemma CancelIsScoped(t: Table, org: string, id: Id, o: Outcome)
    requires id in t.subs && t.subs[id].org != org
    ensures Effect(t, CancelSub(org, id), o) == t && Then(t, CancelSub(org, id), o).Refused?
    ensures Then(t, CancelSub(org, id), Done) == Then(t.(subs := t.subs - {id}), CancelSub(org, id), Done)
  {
  }

  // --------------------------------------------------------------- the code

  class Service {
    const plans: set<string>
    var subs: map<Id, Sub>
    var supply: int
    var now: int

    constructor (plans: set<string>)
      ensures Snapshot() == Table(plans, map[], 0, 0)
    {
      this.plans := plans;
      subs, supply, now := map[], 0, 0;
    }

    function Snapshot(): Table
      reads this
    {
      Table(plans, subs, supply, now)
    }

    method CreateSubscription(org: string, user: Id, plan: string, read: Outcome, write: Outcome) returns (r: Next)
      modifies this
      ensures (Snapshot(), r) == Create(old(Snapshot()), org, user, plan, read, write)
      ensures r.Created? ==> subs == old(subs)[r.id := Sub(r.id, org, user, plan, Active, None)]
    {
      if read.Failed? { return Refused(Internal); }
      if plan !in plans { return Refused(PlanNotFound); }
      var duplicate := Conflict(Snapshot(), user, plan);
      var id := supply;
      if write.Effective() && !duplicate {
        subs, supply := subs[id := Sub(id, org, user, plan, Active, None)], supply + 1;
      }
      if write.Failed? { return Refused(Internal); }
      if duplicate { return Refused(SubExists); }
      return Created(id);
    }

    method Cancel(org: string, id: Id, o: Outcome) returns (r: Next)
      modifies this
      ensures r == Then(old(Snapshot()), CancelSub(org, id), o) && Snapshot() == Effect(old(Snapshot()), CancelSub(org, id), o)
      ensures r.CancelledOk? ==> id in old(subs) && subs == old(subs)[id := old(subs)[id].(status := Cancelled, cancelledAt := Some(now))]
    {
      var affected := id in subs && subs[id].org == org && subs[id].status != Cancelled;
      if o.Effective() && affected {
        subs := subs[id := subs[id].(status := Cancelled, cancelledAt := Some(now))];
      }
      if o.Failed? { return Refused(Internal); }
      if !affected { return Refused(SubNotFound); }
      return CancelledOk;
    }
  }
}
