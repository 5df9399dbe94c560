/** The eSIM service as a machine over its statements and provider calls: any
    request in flight may move next, any statement may fail, and the process may
    restart. */
module EsimSteps {
  import opened Common
  import opened Esim
  import Text

  datatype Goal = Usage | Activate | Drop

  /** Where a request stands: the constructor names what it does next. */
  datatype Call =
    | FetchCatalog(region: string)
    | StoreCatalog(list: seq<Package>)
    | FindPackage(org: string, package: string)
    | PlaceOrder(org: string, p: Package)
    | InsertEsim(row: Row)
    | FindRow(goal: Goal, org: string, id: Id)
    | PollUsage(id: Id, ref: Id)
    | SaveUsage(id: Id, mb: int)
    | ReloadUsage(id: Id)
    | CancelOrder(id: Id, ref: Id)
    | SaveStatus(id: Id, status: Status)

  datatype Next = Continue(call: Call) | Return(reply: Reply)

  function Fail(e: Error): Next {
    Return(Refused(e))
  }

  function Start(r: Request): Option<Call> {
    match r
    case RefreshCatalog(region) => Some(FetchCatalog(region))
    case Order(org, package) => if Text.TrimSpace(org) == "" then None else Some(FindPackage(org, package))
    case RefreshUsage(org, id) => Some(FindRow(Usage, org, id))
    case MarkActivated(org, id) => Some(FindRow(Activate, org, id))
    case Cancel(org, id) => Some(FindRow(Drop, org, id))
    case Restart => None
  }

  /** The world after a call's next step. The mock's own steps fail only by
      doing nothing. */
  function Effect(w: World, c: Call, now: int, o: Outcome): World {
    match c
    case StoreCatalog(list) => if o.Effective() then w.(packages := UpsertPackages(w.packages, list)) else w
    case PlaceOrder(org, p) => if o.Failed? then w else w.(orders := w.orders[w.supply := NewOrder(p.id, now)], supply := w.supply + 1)
    case InsertEsim(row) => if o.Effective() then w.(rows := w.rows[row.id := row]) else w
    case PollUsage(id, ref) => if ref in w.orders then PollOrder(w, ref) else w
    case SaveUsage(id, mb) => if o.Effective() then WriteUsageOf(w, id, mb) else w
    case CancelOrder(id, ref) => w.(orders := w.orders - {ref})
    case SaveStatus(id, status) =>
      if o.Effective() && id in w.rows then w.(rows := w.rows[id := SetStatus(w.rows[id], status, now)]) else w
    case _ => w
  }

  function Then(w: World, c: Call, now: int, o: Outcome): Next {
    match c
    case FetchCatalog(region) => if o.Failed? then Fail(Provider) else Continue(StoreCatalog(AsPackages(Catalog(region))))
    case StoreCatalog(list) => if o.Failed? then Fail(Internal) else Return(Packages(list))
    case FindPackage(org, package) =>
      if o.Failed? then Fail(Internal)
      else if package !in w.packages then Fail(PackageNotFound)
      else Continue(PlaceOrder(org, w.packages[package]))
    case PlaceOrder(org, p) => if o.Failed? then Fail(Provider) else Continue(InsertEsim(IssuedRow(w, org, p, now)))
    case InsertEsim(row) => if o.Failed? then Fail(Internal) else Return(Issued(row))
    case FindRow(goal, org, id) =>
      if o.Failed? then Fail(Internal)
      else if id !in w.rows || w.rows[id].org != org then Fail(ESIMNotFound)
      else (match goal
            case Usage => Continue(PollUsage(id, w.rows[id].ref))
            case Activate => Continue(SaveStatus(id, Active))
            case Drop => Continue(CancelOrder(id, w.rows[id].ref)))
    case PollUsage(id, ref) => if ref !in w.orders then Fail(Provider) else Continue(SaveUsage(id, Poll(w.orders[ref]).usageMB))
    case SaveUsage(id, _) => if o.Failed? then Fail(Internal) else if id !in w.rows then Fail(ESIMNotFound) else Continue(ReloadUsage(id))
    case ReloadUsage(id) => if o.Failed? then Fail(Internal) else if id !in w.rows then Fail(ESIMNotFound) else Return(Refreshed(w.rows[id]))
    case CancelOrder(id, _) => Continue(SaveStatus(id, Cancelled))
    case SaveStatus(id, _) => if o.Failed? then Fail(Internal) else if id !in w.rows then Fail(ESIMNotFound) else Return(Saved)
  }

  // ---------------------------------------------------------------- the machine

  datatype Sys = Sys(world: World, calls: map<int, Call>)

  datatype Action = Begin(id: int, request: Request) | Go(id: int, now: int, outcome: Outcome) | Reboot

  function Apply(s: Sys, a: Action): Sys {
    match a
    case Begin(k, r) => if k in s.calls || Start(r).None? then s else s.(calls := s.calls[k := Start(r).value])
    case Reboot => s.(world := s.world.(orders := map[]))
    case Go(k, now, o) =>
      if k !in s.calls then s else
      var n := Then(s.world, s.calls[k], now, o);
      Sys(Effect(s.world, s.calls[k], now, o), if n.Continue? then s.calls[k := n.call] else s.calls - {k})
  }

  function Run(s: Sys, acts: seq<Action>): Sys
    decreases |acts|
  {
    if acts == [] then s else Run(Apply(s, acts[0]), acts[1..])
  }

  // --------------------------------------------------- invariants of every run

  /** What a row keeps: all but its status and usage. */
  predicate Bought(r: Row, q: Row) {
    q == r.(status := q.status, activatedAt := q.activatedAt, lastUsageMB := q.lastUsageMB)
  }

  predicate SameOrder(o: MockOrder, p: MockOrder) {
    p == o.(usageMB := p.usageMB) && o.usageMB <= p.usageMB
  }

  /** Rows stay and keep what was bought; orders that are left are the same ones,
      with no less usage. */
  ghost predicate Later(w: World, v: World) {
    && w.supply <= v.supply
    && (forall id :: id in w.rows ==> id in v.rows && Bought(w.rows[id], v.rows[id]))
    && (forall ref :: ref in v.orders && ref < w.supply ==> ref in w.orders && SameOrder(w.orders[ref], v.orders[ref]))
  }

  ghost predicate CallOk(w: World, c: Call) {
    match c
    case StoreCatalog(list) => forall i :: 0 <= i < |list| ==> PackageOk(list[i].id, list[i])
    case PlaceOrder(_, p) => PackageOk(p.id, p)
    case InsertEsim(row) => row.id !in w.rows && RowOk(w, row.id, row)
    case PollUsage(id, ref) => id in w.rows && ref == id
    case SaveUsage(id, mb) => id in w.rows && 0 <= mb <= w.rows[id].dataMB && (id in w.orders ==> mb <= w.orders[id].usageMB)
    case ReloadUsage(id) => id in w.rows
    case CancelOrder(id, ref) => id in w.rows && ref == id
    case SaveStatus(id, _) => id in w.rows
    case _ => true
  }

  ghost predicate Sound(s: Sys) {
    && Agrees(s.world)
    && (forall k :: k in s.calls ==> CallOk(s.world, s.calls[k]))
    && (forall j, k :: j in s.calls && k in s.calls && j != k && s.calls[j].InsertEsim? && s.calls[k].InsertEsim? ==>
          s.calls[j].row.id != s.calls[k].row.id)
  }

  lemma RowLater(w: World, v: World, id: Id, r: Row)
    requires RowOk(w, id, r) && Later(w, v)
    ensures RowOk(v, id, r)
  {
  }

  lemma CallLater(w: World, v: World, c: Call)
    requires Agrees(w) && CallOk(w, c) && Later(w, v) && (c.InsertEsim? ==> c.row.id !in v.rows)
    ensures CallOk(v, c)
  {
    if c.InsertEsim? {
      RowLater(w, v, c.row.id, c.row);
    } else if c.SaveUsage? {
      assert RowOk(w, c.id, w.rows[c.id]);
    }
  }

  /** Only orders change. */
  lemma OrdersStep(w: World, v: World)
    requires Agrees(w) && Later(w, v) && v.rows == w.rows && v.packages == w.packages
    requires forall ref :: ref in v.orders ==> OrderOk(v, ref, v.orders[ref])
    ensures Agrees(v)
  {
    forall id | id in v.rows ensures RowOk(v, id, v.rows[id]) { RowLater(w, v, id, w.rows[id]); }
  }

  /** Only one row changes. */
  lemma RowStep(w: World, id: Id, r: Row)
    requires Agrees(w) && RowOk(w, id, r) && (id in w.rows ==> Bought(w.rows[id], r))
    ensures var v := w.(rows := w.rows[id := r]); Agrees(v) && Later(w, v)
  {
    var v := w.(rows := w.rows[id := r]);
    forall k | k in v.rows ensures RowOk(v, k, v.rows[k]) {
      if k != id { assert RowOk(w, k, w.rows[k]); }
      RowLater(w, w, k, v.rows[k]);
    }
    forall ref | ref in v.orders ensures OrderOk(v, ref, v.orders[ref]) { assert OrderOk(w, ref, w.orders[ref]); }
  }

  lemma CatalogStep(w: World, list: seq<Package>)
    requires Agrees(w) && forall i :: 0 <= i < |list| ==> PackageOk(list[i].id, list[i])
    ensures var v := w.(packages := UpsertPackages(w.packages, list)); Agrees(v) && Later(w, v)
  {
    var v := w.(packages := UpsertPackages(w.packages, list));
    UpsertCatalog(w.packages, list);
    forall id | id in v.rows ensures RowOk(v, id, v.rows[id]) { RowLater(w, v, id, w.rows[id]); }
    forall ref | ref in v.orders ensures OrderOk(v, ref, v.orders[ref]) { assert OrderOk(w, ref, w.orders[ref]); }
  }

  lemma PlaceStep(w: World, p: Package, now: int)
    requires Agrees(w)
    ensures var v := w.(orders := w.orders[w.supply := NewOrder(p.id, now)], supply := w.supply + 1); Agrees(v) && Later(w, v)
  {
    var v := w.(orders := w.orders[w.supply := NewOrder(p.id, now)], supply := w.supply + 1);
    forall ref | ref in v.orders ensures OrderOk(v, ref, v.orders[ref]) {
      if ref != w.supply { assert OrderOk(w, ref, w.orders[ref]); }
    }
    OrdersStep(w, v);
  }

  lemma PollStep(w: World, ref: Id)
    requires Agrees(w) && ref in w.orders
    ensures Agrees(PollOrder(w, ref)) && Later(w, PollOrder(w, ref))
  {
    var v := PollOrder(w, ref);
    forall r | r in v.orders ensures OrderOk(v, r, v.orders[r]) { assert OrderOk(w, r, w.orders[r]); }
    OrdersStep(w, v);
  }

  lemma DropStep(w: World, orders: map<Id, MockOrder>)
    requires Agrees(w) && forall ref :: ref in orders ==> ref in w.orders && orders[ref] == w.orders[ref]
    ensures var v := w.(orders := orders); Agrees(v) && Later(w, v)
  {
    var v := w.(orders := orders);
    forall r | r in v.orders ensures OrderOk(v, r, v.orders[r]) { assert OrderOk(w, r, w.orders[r]); }
    OrdersStep(w, v);
  }

  lemma EffectOk(w: World, c: Call, now: int, o: Outcome)
    requires Agrees(w) && CallOk(w, c)
    ensures Agrees(Effect(w, c, now, o)) && Later(w, Effect(w, c, now, o))
  {
    match c
    case StoreCatalog(list) => CatalogStep(w, list);
    case PlaceOrder(_, p) => PlaceStep(w, p, now);
    case InsertEsim(row) => RowStep(w, row.id, row);
    case PollUsage(_, ref) => if ref in w.orders { PollStep(w, ref); }
    case SaveUsage(id, mb) =>
      assert RowOk(w, id, w.rows[id]);
      RowStep(w, id, w.rows[id].(lastUsageMB := mb));
    case CancelOrder(_, ref) => DropStep(w, w.orders - {ref});
    case SaveStatus(id, status) =>
      assert RowOk(w, id, w.rows[id]);
      RowStep(w, id, SetStatus(w.rows[id], status, now));
    case _ =>
  }

  lemma NextOk(w: World, c: Call, now: int, o: Outcome)
    requires Agrees(w) && CallOk(w, c)
    ensures var n := Then(w, c, now, o);
            n.Continue? ==> CallOk(Effect(w, c, now, o), n.call) && (n.call.InsertEsim? ==> n.call.row.id == w.supply)
  {
    match c
    case FetchCatalog(region) =>
      forall i | 0 <= i < 4 ensures PackageOk(AsPackages(Catalog(region))[i].id, AsPackages(Catalog(region))[i]) {
        CatalogMatchesOrders(region, i);
      }
    case FindPackage(_, package) =>
      assert package in w.packages ==> PackageOk(package, w.packages[package]);
    case PlaceOrder(org, p) =>
      assert w.supply in w.rows ==> RowOk(w, w.supply, w.rows[w.supply]);
    case FindRow(_, _, id) =>
      assert id in w.rows ==> RowOk(w, id, w.rows[id]);
    case PollUsage(id, ref) =>
      assert RowOk(w, id, w.rows[id]);
      assert ref in w.orders ==> OrderOk(w, ref, w.orders[ref]);
    case _ =>
  }

  /** Rows are only added by the INSERT of an order. */
  lemma RowsAdded(w: World, c: Call, now: int, o: Outcome)
    requires CallOk(w, c)
    ensures Effect(w, c, now, o).rows.Keys == w.rows.Keys + if c.InsertEsim? && o.Effective() then {c.row.id} else {}
  {
  }

  lemma GoSound(s: Sys, a: Action)
    requires Sound(s) && a.Go? && a.id in s.calls
    ensures Sound(Apply(s, a)) && Later(s.world, Apply(s, a).world)
  {
    var c, t := s.calls[a.id], Apply(s, a);
    EffectOk(s.world, c, a.now, a.outcome);
    NextOk(s.world, c, a.now, a.outcome);
    RowsAdded(s.world, c, a.now, a.outcome);
    forall k | k in t.calls ensures CallOk(t.world, t.calls[k]) {
      if k != a.id { CallLater(s.world, t.world, s.calls[k]); }
    }
    forall k | k in s.calls && s.calls[k].InsertEsim? ensures s.calls[k].row.id < s.world.supply {
      assert CallOk(s.world, s.calls[k]);
    }
  }

  lemma ApplySound(s: Sys, a: Action)
    requires Sound(s)
    ensures Sound(Apply(s, a)) && Later(s.world, Apply(s, a).world)
  {
    var t := Apply(s, a);
    if a.Go? && a.id in s.calls {
      GoSound(s, a);
    } else if a.Reboot? {
      DropStep(s.world, map[]);
      forall k | k in t.calls ensures CallOk(t.world, t.calls[k]) { CallLater(s.world, t.world, s.calls[k]); }
    } else {
      StartOk(s, a);
    }
  }

  lemma StartOk(s: Sys, a: Action)
    requires Sound(s) && !a.Reboot? && !(a.Go? && a.id in s.calls)
    ensures Sound(Apply(s, a)) && Apply(s, a).world == s.world
  {
  }

  lemma LaterOn(w: World, v: World, u: World)
    requires Later(w, v) && Later(v, u)
    ensures Later(w, u)
  {
  }

  lemma {:induction false} RunSound(s: Sys, acts: seq<Action>)
    requires Sound(s)
    ensures Sound(Run(s, acts)) && Later(s.world, Run(s, acts).world)
    decreases |acts|
  {
    if acts != [] {
      ApplySound(s, acts[0]);
      RunSound(Apply(s, acts[0]), acts[1..]);
      LaterOn(s.world, Apply(s, acts[0]).world, Run(Apply(s, acts[0]), acts[1..]).world);
    }
  }

  /** No request in flight; any tables and orders that agree. */
  ghost predicate Initial(s: Sys) {
    Agrees(s.world) && s.calls == map[]
  }

  /** However requests overlap, whatever fails and whenever the process restarts:
      each row keeps the data and validity of its package and of its provider
      order, and has 0 <= last_usage_mb <= data_mb, no more than its order. */
  lemma AlwaysAgrees(s: Sys, acts: seq<Action>, more: seq<Action>)
    requires Initial(s)
    ensures Agrees(Run(s, acts).world) && Later(Run(s, acts).world, Run(Run(s, acts), more).world)
  {
    RunSound(s, acts);
    RunSound(Run(s, acts), more);
  }

  // ------------------------------------------------------- usage never goes down

  /** The polls of row id that have reported and not yet been written all report
      the same. */
  ghost predicate Steady(s: Sys, id: Id) {
    forall j, k :: j in s.calls && k in s.calls && s.calls[j].SaveUsage? && s.calls[k].SaveUsage? && s.calls[j].id == id && s.calls[k].id == id ==>
      s.calls[j].mb == s.calls[k].mb
  }

  /** No step starts with two unwritten polls of the row that report differently. */
  ghost predicate SteadyRun(s: Sys, acts: seq<Action>, id: Id)
    decreases |acts|
  {
    acts == [] || (Steady(s, id) && SteadyRun(Apply(s, acts[0]), acts[1..], id))
  }

  /** Unwritten polls report no less than the row. */
  ghost predicate Ahead(s: Sys, id: Id) {
    forall k :: k in s.calls && s.calls[k].SaveUsage? && s.calls[k].id == id && id in s.world.rows ==>
      s.world.rows[id].lastUsageMB <= s.calls[k].mb
  }

  ghost predicate NotLower(w: World, v: World, id: Id) {
    id in w.rows ==> id in v.rows && w.rows[id].lastUsageMB <= v.rows[id].lastUsageMB
  }

  /** A step that does not write the usage of row id leaves it. */
  lemma UsageLeft(w: World, c: Call, now: int, o: Outcome, id: Id)
    requires CallOk(w, c) && id in w.rows && !(c.SaveUsage? && c.id == id)
    ensures var v := Effect(w, c, now, o); id in v.rows && v.rows[id].lastUsageMB == w.rows[id].lastUsageMB
  {
  }

  /** A poll reports no less than the row. */
  lemma PollAhead(w: World, c: Call, now: int, o: Outcome, id: Id)
    requires Agrees(w) && CallOk(w, c) && id in w.rows
    ensures var n := Then(w, c, now, o);
            n.Continue? && n.call.SaveUsage? && n.call.id == id ==> c.PollUsage? && c.id == id && w.rows[id].lastUsageMB <= n.call.mb
  {
    if c.PollUsage? && c.id == id && id in w.orders {
      assert RowOk(w, id, w.rows[id]) && OrderOk(w, id, w.orders[id]);
    }
  }

  lemma GoUsage(s: Sys, a: Action, id: Id)
    requires Sound(s) && Steady(s, id) && Ahead(s, id) && a.Go? && a.id in s.calls && id in s.world.rows
    ensures Ahead(Apply(s, a), id) && NotLower(s.world, Apply(s, a).world, id)
  {
    var c, t := s.calls[a.id], Apply(s, a);
    assert CallOk(s.world, c);
    PollAhead(s.world, c, a.now, a.outcome, id);
    if !(c.SaveUsage? && c.id == id) {
      UsageLeft(s.world, c, a.now, a.outcome, id);
    }
  }

  lemma ApplyUsage(s: Sys, a: Action, id: Id)
    requires Sound(s) && Steady(s, id) && Ahead(s, id)
    ensures Ahead(Apply(s, a), id) && NotLower(s.world, Apply(s, a).world, id)
  {
    if id in s.world.rows {
      if a.Go? && a.id in s.calls {
        GoUsage(s, a, id);
      }
    } else {
      NoRowYet(s, a, id);
    }
  }

  /** A row not there yet has no polls. */
  lemma NoRowYet(s: Sys, a: Action, id: Id)
    requires Sound(s) && id !in s.world.rows
    ensures Ahead(Apply(s, a), id)
  {
    forall k | k in s.calls ensures !(s.calls[k].SaveUsage? && s.calls[k].id == id) { assert CallOk(s.world, s.calls[k]); }
    if a.Go? && a.id in s.calls {
      assert CallOk(s.world, s.calls[a.id]);
    }
  }

  lemma {:induction false} RunUsage(s: Sys, acts: seq<Action>, id: Id)
    requires Sound(s) && Ahead(s, id) && SteadyRun(s, acts, id)
    ensures Ahead(Run(s, acts), id) && NotLower(s.world, Run(s, acts).world, id)
    decreases |acts|
  {
    if acts != [] {
      ApplySound(s, acts[0]);
      ApplyUsage(s, acts[0], id);
      RunUsage(Apply(s, acts[0]), acts[1..], id);
    }
  }

  /** Requests may overlap in any way, on the same eSIM or others: as long as no
      step starts with two unwritten polls of one row that report differently, that
      row's last_usage_mb never decreases. */
  lemma UsageNeverLower(s: Sys, acts: seq<Action>, more: seq<Action>, id: Id)
    requires Initial(s) && SteadyRun(s, acts, id) && SteadyRun(Run(s, acts), more, id)
    ensures NotLower(Run(s, acts).world, Run(Run(s, acts), more).world, id)
  {
    RunSound(s, acts);
    RunUsage(s, acts, id);
    RunUsage(Run(s, acts), more, id);
  }

  // -------------------------------------------------------- the exact condition

  /** Only polls that have reported move. */
  ghost predicate WritesOnly(s: Sys, acts: seq<Action>) {
    forall a :: a in acts ==> a.Go? && (a.id in s.calls ==> s.calls[a.id].SaveUsage? || s.calls[a.id].ReloadUsage?)
  }

  /** However those writes are ordered, they never lower the row's usage. */
  ghost predicate NeverLower(s: Sys, id: Id) {
    forall acts, more :: WritesOnly(s, acts) && WritesOnly(Run(s, acts), more) ==>
      NotLower(Run(s, acts).world, Run(Run(s, acts), more).world, id)
  }

  lemma {:induction false} WritesStaySteady(s: Sys, acts: seq<Action>, id: Id)
    requires Steady(s, id) && WritesOnly(s, acts)
    ensures SteadyRun(s, acts, id) && Steady(Run(s, acts), id)
    decreases |acts|
  {
    if acts != [] {
      assert acts[0] in acts && forall b :: b in acts[1..] ==> b in acts;
      WritesStaySteady(Apply(s, acts[0]), acts[1..], id);
    }
  }

  lemma WriteNow(s: Sys, k: int)
    requires k in s.calls && s.calls[k].SaveUsage? && s.calls[k].id in s.world.rows
    ensures var t := Run(s, [Go(k, 0, Done)]);
            && s.calls[k].id in t.world.rows && t.world.rows[s.calls[k].id].lastUsageMB == s.calls[k].mb
            && t.calls == s.calls[k := ReloadUsage(s.calls[k].id)]
  {
    var a := Go(k, 0, Done);
    assert [a][1..] == [] && Run(s, [a]) == Run(Apply(s, a), []);
  }

  lemma DifferingLower(s: Sys, j: int, k: int, id: Id)
    requires Sound(s) && j in s.calls && k in s.calls && s.calls[j].SaveUsage? && s.calls[k].SaveUsage?
    requires s.calls[j].id == id && s.calls[k].id == id && s.calls[j].mb < s.calls[k].mb
    ensures !NeverLower(s, id)
  {
    assert CallOk(s.world, s.calls[k]);
    WriteNow(s, k);
    var t := Run(s, [Go(k, 0, Done)]);
    WriteNow(t, j);
    assert WritesOnly(s, [Go(k, 0, Done)]) && WritesOnly(t, [Go(j, 0, Done)]);
    assert !NotLower(t.world, Run(t, [Go(j, 0, Done)]).world, id);
  }

  /** The condition is exact. As long as no step has started with two differing
      unwritten polls of the row, that the polls then waiting to be written cannot
      lower its usage, in whatever order they are written, is the same as that no
      two of them differ. */
  lemma UsageExact(start: Sys, before: seq<Action>, id: Id)
    requires Initial(start) && SteadyRun(start, before, id)
    ensures var s := Run(start, before); NeverLower(s, id) <==> Steady(s, id)
  {
    RunSound(start, before);
    RunUsage(start, before, id);
    var s := Run(start, before);
    if Steady(s, id) {
      forall acts, more | WritesOnly(s, acts) && WritesOnly(Run(s, acts), more)
        ensures NotLower(Run(s, acts).world, Run(Run(s, acts), more).world, id)
      {
        WritesStaySteady(s, acts, id);
        WritesStaySteady(Run(s, acts), more, id);
        RunSound(s, acts);
        RunUsage(s, acts, id);
        RunUsage(Run(s, acts), more, id);
      }
    } else {
      var j, k :| j in s.calls && k in s.calls && s.calls[j].SaveUsage? && s.calls[k].SaveUsage? && s.calls[j].id == id
                  && s.calls[k].id == id && s.calls[j].mb < s.calls[k].mb;
      DifferingLower(s, j, k, id);
    }
  }

  /** Two refreshes of a row can come to differ: writing the later poll first and
      the earlier one last lowers the usage exactly when the first poll had not
      reached the cap yet (and a poll adds anything). */
  lemma OverlapLowersUsage(w: World, id: Id)
    requires Agrees(w) && id in w.rows && id in w.orders
    ensures var w1 := PollOrder(w, id);
            var w2 := PollOrder(w1, id);
            var (first, second) := (w1.orders[id].usageMB, w2.orders[id].usageMB);
            var w3 := WriteUsageOf(w2, id, second);
            var w4 := WriteUsageOf(w3, id, first);
            w4.rows[id].lastUsageMB < w3.rows[id].lastUsageMB <==> first < w.orders[id].dataMB && w.orders[id].dataMB >= 10
  {
    assert OrderOk(w, id, w.orders[id]);
  }

  // ------------------------------------------------------ one request on its own

  function StageOf(c: Call): Stage {
    match c
    case FetchCatalog(_) => CallProvider
    case StoreCatalog(_) => WritePackages
    case FindPackage(_, _) => ReadPackage
    case PlaceOrder(_, _) => CallProvider
    case InsertEsim(_) => InsertRow
    case FindRow(_, _, _) => ReadRow
    case PollUsage(_, _) => CallProvider
    case SaveUsage(_, _) => WriteUsage
    case ReloadUsage(_) => Reload
    case CancelOrder(_, _) => CallProvider
    case SaveStatus(_, _) => WriteStatus
  }

  function Remaining(c: Call): nat {
    match c
    case FetchCatalog(_) => 2
    case StoreCatalog(_) => 1
    case FindPackage(_, _) => 3
    case PlaceOrder(_, _) => 2
    case InsertEsim(_) => 1
    case FindRow(_, _, _) => 4
    case PollUsage(_, _) => 3
    case SaveUsage(_, _) => 2
    case ReloadUsage(_) => 1
    case CancelOrder(_, _) => 2
    case SaveStatus(_, _) => 1
  }

  /** A call run to its reply with nothing in between. */
  function RunCall(w: World, c: Call, now: int, net: Net): (World, Reply)
    decreases Remaining(c)
  {
    var o := net(StageOf(c));
    match Then(w, c, now, o)
    case Return(r) => (Effect(w, c, now, o), r)
    case Continue(d) => RunCall(Effect(w, c, now, o), d, now, net)
  }

  lemma {:induction false} UninterruptedRun(s: Sys, k: int, now: int, net: Net) returns (acts: seq<Action>)
    requires k in s.calls
    ensures forall a :: a in acts ==> a.Go? && a.id == k
    ensures var t := Run(s, acts); t.world == RunCall(s.world, s.calls[k], now, net).0 && t.calls == s.calls - {k}
    decreases Remaining(s.calls[k])
  {
    var a := Go(k, now, net(StageOf(s.calls[k])));
    var t := Apply(s, a);
    if k in t.calls {
      var rest := UninterruptedRun(t, k, now, net);
      acts := [a] + rest;
      assert acts[1..] == rest && t.calls - {k} == s.calls - {k};
    } else {
      acts := [a];
      assert Run(t, []) == t;
    }
  }

  lemma ServeOrderSteps(w: World, org: string, package: string, now: int, net: Net)
    requires Text.TrimSpace(org) != ""
    ensures Serve(w, Request.Order(org, package), now, net) == RunCall(w, FindPackage(org, package), now, net)
  {
    if net(ReadPackage).Done? && package in w.packages {
      var p := w.packages[package];
      assert RunCall(w, FindPackage(org, package), now, net) == RunCall(w, PlaceOrder(org, p), now, net);
      if net(CallProvider).Done? {
        var v := Effect(w, PlaceOrder(org, p), now, Done);
        assert RunCall(w, PlaceOrder(org, p), now, net) == RunCall(v, InsertEsim(IssuedRow(w, org, p, now)), now, net);
      }
    }
  }

  lemma ServeUsageSteps(w: World, org: string, id: Id, now: int, net: Net)
    ensures Serve(w, Request.RefreshUsage(org, id), now, net) == RunCall(w, FindRow(Usage, org, id), now, net)
  {
    if net(ReadRow).Done? && id in w.rows && w.rows[id].org == org {
      var ref := w.rows[id].ref;
      assert RunCall(w, FindRow(Usage, org, id), now, net) == RunCall(w, PollUsage(id, ref), now, net);
      if ref in w.orders {
        var v := PollOrder(w, ref);
        var mb := v.orders[ref].usageMB;
        assert RunCall(w, PollUsage(id, ref), now, net) == RunCall(v, SaveUsage(id, mb), now, net);
        if net(WriteUsage).Done? {
          assert RunCall(v, SaveUsage(id, mb), now, net) == RunCall(WriteUsageOf(v, id, mb), ReloadUsage(id), now, net);
        }
      }
    }
  }

  lemma ServeCancelSteps(w: World, org: string, id: Id, now: int, net: Net)
    ensures Serve(w, Request.Cancel(org, id), now, net) == RunCall(w, FindRow(Drop, org, id), now, net)
  {
    if net(ReadRow).Done? && id in w.rows && w.rows[id].org == org {
      var ref := w.rows[id].ref;
      var v := w.(orders := w.orders - {ref});
      assert RunCall(w, FindRow(Drop, org, id), now, net) == RunCall(w, CancelOrder(id, ref), now, net);
      assert RunCall(w, CancelOrder(id, ref), now, net) == RunCall(v, SaveStatus(id, Cancelled), now, net);
    }
  }

  lemma ServeMarkSteps(w: World, org: string, id: Id, now: int, net: Net)
    ensures Serve(w, Request.MarkActivated(org, id), now, net) == RunCall(w, FindRow(Activate, org, id), now, net)
  {
    if net(ReadRow).Done? && id in w.rows && w.rows[id].org == org {
      assert RunCall(w, FindRow(Activate, org, id), now, net) == RunCall(w, SaveStatus(id, Active), now, net);
    }
  }

  /** A request served on its own does what its steps do one after another. */
  lemma ServeIsSteps(w: World, r: Request, now: int, net: Net)
    requires Start(r).Some?
    ensures Serve(w, r, now, net) == RunCall(w, Start(r).value, now, net)
  {
    match r
    case RefreshCatalog(region) =>
      if net(CallProvider).Done? {
        assert RunCall(w, FetchCatalog(region), now, net) == RunCall(w, StoreCatalog(AsPackages(Catalog(region))), now, net);
      }
    case Order(org, package) => ServeOrderSteps(w, org, package, now, net);
    case RefreshUsage(org, id) => ServeUsageSteps(w, org, id, now, net);
    case MarkActivated(org, id) => ServeMarkSteps(w, org, id, now, net);
    case Cancel(org, id) => ServeCancelSteps(w, org, id, now, net);
  }

  /** The machine with one request just begun, or none if it is over at once. */
  function Alone(w: World, r: Request): Sys {
    Sys(w, if Start(r).Some? then map[0 := Start(r).value] else map[])
  }

  lemma AloneSound(w: World, r: Request)
    requires Agrees(w)
    ensures Sound(Alone(w, r)) && forall id :: Ahead(Alone(w, r), id)
  {
  }

  lemma ServedRun(w: World, r: Request, now: int, net: Net) returns (acts: seq<Action>)
    ensures Run(Alone(w, r), acts).world == Serve(w, r, now, net).0
    ensures forall a :: a in acts ==> a.Reboot? || (a.Go? && a.id == 0)
  {
    var s := Alone(w, r);
    if Start(r).Some? {
      acts := UninterruptedRun(s, 0, now, net);
      ServeIsSteps(w, r, now, net);
    } else if r.Restart? {
      acts := [Reboot];
      assert acts[1..] == [] && Run(s, acts) == Run(Apply(s, Reboot), []);
    } else {
      acts := [];
    }
  }

  /** One call alone has no other poll to differ from. */
  lemma {:induction false} AloneSteady(s: Sys, acts: seq<Action>, id: Id)
    requires s.calls.Keys <= {0} && forall a :: a in acts ==> a.Reboot? || (a.Go? && a.id == 0)
    ensures SteadyRun(s, acts, id)
    decreases |acts|
  {
    if acts != [] {
      assert acts[0] in acts && forall b :: b in acts[1..] ==> b in acts;
      assert Steady(s, id);
      AloneSteady(Apply(s, acts[0]), acts[1..], id);
    }
  }
}
