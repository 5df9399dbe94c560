/** The eSIM service over runs of whole requests, one after another. */
module EsimRuns {
  import opened Common
  import opened Esim
  import opened EsimSteps

  /** Rows stay, keep what was bought, and their usage never goes down. */
  ghost predicate UsageGrows(w: World, v: World) {
    forall id :: id in w.rows ==> id in v.rows && Keeps(w.rows[id], v.rows[id])
  }

  predicate Keeps(r: Row, q: Row) {
    && q == r.(status := q.status, activatedAt := q.activatedAt, lastUsageMB := q.lastUsageMB)
    && r.lastUsageMB <= q.lastUsageMB
  }

  lemma GrowsOn(w: World, v: World, u: World)
    requires UsageGrows(w, v) && UsageGrows(v, u)
    ensures UsageGrows(w, u)
  {
    forall id | id in w.rows ensures id in u.rows && Keeps(w.rows[id], u.rows[id]) {
      assert Keeps(w.rows[id], v.rows[id]);
    }
  }

  /** A request served on its own is a run of the machine with one call in flight,
      so what holds of overlapping requests holds of it. */
  lemma ServeAgrees(w: World, r: Request, now: int, net: Net)
    requires Agrees(w)
    ensures Agrees(Serve(w, r, now, net).0) && UsageGrows(w, Serve(w, r, now, net).0)
  {
    var v := Serve(w, r, now, net).0;
    var acts := ServedRun(w, r, now, net);
    var s := Alone(w, r);
    AloneSound(w, r);
    RunSound(s, acts);
    forall id | id in w.rows ensures id in v.rows && Keeps(w.rows[id], v.rows[id]) {
      AloneSteady(s, acts, id);
      RunUsage(s, acts, id);
    }
  }

  datatype Job = Job(request: Request, now: int, net: Net)

  function Step(w: World, j: Job): World {
    Serve(w, j.request, j.now, j.net).0
  }

  function ServeAll(w: World, jobs: seq<Job>): World
    decreases |jobs|
  {
    if jobs == [] then w else ServeAll(Step(w, jobs[0]), jobs[1..])
  }

  lemma StepAgrees(w: World, j: Job)
    requires Agrees(w)
    ensures Agrees(Step(w, j)) && UsageGrows(w, Step(w, j))
  {
    ServeAgrees(w, j.request, j.now, j.net);
  }

  /** In every serial run, with any failures and process restarts, each row keeps
      the data and validity of its package and of its provider order, has
      0 <= last_usage_mb <= data_mb, and its last_usage_mb never decreases. */
  lemma {:induction false} UsageAgreesWithOrders(w: World, jobs: seq<Job>)
    requires Agrees(w)
    ensures Agrees(ServeAll(w, jobs)) && UsageGrows(w, ServeAll(w, jobs))
    decreases |jobs|
  {
    if jobs != [] {
      var v := Step(w, jobs[0]);
      StepAgrees(w, jobs[0]);
      UsageAgreesWithOrders(v, jobs[1..]);
      GrowsOn(w, v, ServeAll(v, jobs[1..]));
    }
  }

  /** How often this run polls the usage of row id for its org. */
  function PollsOf(jobs: seq<Job>, org: string, id: Id): nat
    decreases |jobs|
  {
    if jobs == [] then 0 else (if jobs[0].request == RefreshUsage(org, id) then 1 else 0) + PollsOf(jobs[1..], org, id)
  }

  /** The order outlives the request, and a poll of row id reaches the table. */
  predicate Calm(j: Job, org: string, id: Id) {
    && j.request != Restart && j.request != Cancel(org, id)
    && (j.request == RefreshUsage(org, id) ==> j.net(ReadRow).Done? && j.net(WriteUsage).Effective())
  }

  /** The row shows what the provider last reported. */
  ghost predicate InStep(w: World, org: string, id: Id) {
    && id in w.rows && w.rows[id].org == org && id in w.orders
    && w.rows[id].lastUsageMB == w.orders[id].usageMB
  }

  lemma {:induction false} PollsShift(o: MockOrder, k: nat)
    ensures Polls(Poll(o), k) == Poll(Polls(o, k))
  {
    if k > 0 {
      PollsShift(o, k - 1);
    }
  }

  lemma ServeInStep(w: World, j: Job, org: string, id: Id)
    requires Agrees(w) && InStep(w, org, id) && Calm(j, org, id)
    ensures var v := Step(w, j);
            && InStep(v, org, id)
            && v.orders[id] == if j.request == RefreshUsage(org, id) then Poll(w.orders[id]) else w.orders[id]
  {
    assert RowOk(w, id, w.rows[id]);
    if (j.request.RefreshUsage? || j.request.Cancel?) && j.request.id in w.rows {
      assert RowOk(w, j.request.id, w.rows[j.request.id]);
    }
  }

  lemma {:induction false} ServeAllInStep(w: World, jobs: seq<Job>, org: string, id: Id)
    requires Agrees(w) && InStep(w, org, id)
    requires forall i :: 0 <= i < |jobs| ==> Calm(jobs[i], org, id)
    ensures var v := ServeAll(w, jobs);
            InStep(v, org, id) && v.orders[id] == Polls(w.orders[id], PollsOf(jobs, org, id))
    decreases |jobs|
  {
    if jobs != [] {
      ServeInStep(w, jobs[0], org, id);
      StepAgrees(w, jobs[0]);
      ServeAllInStep(Step(w, jobs[0]), jobs[1..], org, id);
      PollsShift(w.orders[id], PollsOf(jobs[1..], org, id));
    }
  }

  lemma OrderInStep(w: World, org: string, package: string, now: int, net: Net)
    requires Agrees(w)
    requires Serve(w, Order(org, package), now, net).1.Issued?
    ensures var (v, reply) := Serve(w, Order(org, package), now, net);
            && Agrees(v) && InStep(v, org, w.supply) && reply.row == v.rows[w.supply]
            && v.orders[w.supply].usageMB == 0 && v.orders[w.supply].dataMB == w.packages[package].dataMB >= 0
  {
    assert PackageOk(package, w.packages[package]);
    ServeAgrees(w, Order(org, package), now, net);
  }

  /** After an order, in every serial run that does not cancel that eSIM or restart
      the process, and whatever happens to others, k usage refreshes leave
      min(k * (d / 10), d) MB in its row, d being the package's data; the row
      otherwise changes only in its status. */
  lemma UsageAfterOrder(w: World, org: string, package: string, now: int, net: Net, jobs: seq<Job>)
    requires Agrees(w)
    requires Serve(w, Order(org, package), now, net).1.Issued?
    requires forall i :: 0 <= i < |jobs| ==> Calm(jobs[i], org, w.supply)
    ensures var (v, reply) := Serve(w, Order(org, package), now, net);
            var (d, k, u) := (w.packages[package].dataMB, PollsOf(jobs, org, w.supply), ServeAll(v, jobs));
            && reply.row.id == w.supply && w.supply in u.rows
            && u.rows[w.supply].lastUsageMB == Min(k * (d / 10), d)
            && Keeps(reply.row, u.rows[w.supply])
  {
    var v := Serve(w, Order(org, package), now, net).0;
    OrderInStep(w, org, package, now, net);
    ServeAllInStep(v, jobs, org, w.supply);
    PollsReport(v.orders[w.supply], PollsOf(jobs, org, w.supply));
    UsageAgreesWithOrders(v, jobs);
  }

  /** The provider knows no order for the row, and never will again. */
  ghost predicate Stopped(w: World, id: Id) {
    id in w.rows && id !in w.orders
  }

  lemma ServeStopped(w: World, j: Job, id: Id)
    requires Agrees(w) && Stopped(w, id)
    ensures Stopped(Step(w, j), id) && Step(w, j).rows[id].lastUsageMB == w.rows[id].lastUsageMB
  {
    assert RowOk(w, id, w.rows[id]);
    if (j.request.RefreshUsage? || j.request.Cancel?) && j.request.id in w.rows {
      assert RowOk(w, j.request.id, w.rows[j.request.id]);
    }
  }

  lemma {:induction false} ServeAllStopped(w: World, jobs: seq<Job>, id: Id)
    requires Agrees(w) && Stopped(w, id)
    ensures Stopped(ServeAll(w, jobs), id) && ServeAll(w, jobs).rows[id].lastUsageMB == w.rows[id].lastUsageMB
    decreases |jobs|
  {
    if jobs != [] {
      ServeStopped(w, jobs[0], id);
      StepAgrees(w, jobs[0]);
      ServeAllStopped(Step(w, jobs[0]), jobs[1..], id);
    }
  }

  /** A Cancel that replies nil marks the row cancelled and drops the provider's
      order for good: in every serial continuation the row's usage stays as it
      was, and a usage refresh that reads the row is refused by the provider, even
      if the row is marked active again. */
  lemma CancelFreezesUsage(w: World, org: string, id: Id, now: int, net: Net, jobs: seq<Job>, later: Job)
    requires Agrees(w) && Serve(w, Cancel(org, id), now, net).1 == Saved
    requires later.request == RefreshUsage(org, id) && later.net(ReadRow).Done?
    ensures var v := Serve(w, Cancel(org, id), now, net).0;
            var u := ServeAll(v, jobs);
            && id in w.rows && id in v.rows && v.rows[id].status == Cancelled
            && id in u.rows && u.rows[id].lastUsageMB == w.rows[id].lastUsageMB
            && Serve(u, later.request, later.now, later.net) == (u, Refused(Provider))
  {
    var v := Serve(w, Cancel(org, id), now, net).0;
    assert RowOk(w, id, w.rows[id]);
    ServeAgrees(w, Cancel(org, id), now, net);
    ServeAllStopped(v, jobs, id);
    UsageAgreesWithOrders(v, jobs);
    var u := ServeAll(v, jobs);
    assert RowOk(u, id, u.rows[id]) && Keeps(v.rows[id], u.rows[id]);
  }
}
