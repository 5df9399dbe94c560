/** The mock eSIM provider (`internal/provider/mock.go`) and the service that
    ties its orders to rows (`internal/service/esim.go`,
    `internal/repository/postgres.go`). */
module Esim {
  import opened Common
  import Text

  type Id = int

  datatype Offering = Offering(id: string, region: string, dataMB: int, validityDays: int, cents: int)

  const DAY := 24 * 3600

  function Catalog(region: string): seq<Offering> {
    var r := if region == "" then "GLOBAL" else region;
    [Offering("mock-" + r + "-1g-7d", r, 1024, 7, 450),
     Offering("mock-" + r + "-3g-30d", r, 3072, 30, 1100),
     Offering("mock-" + r + "-5g-30d", r, 5120, 30, 1900),
     Offering("mock-" + r + "-20g-30d", r, 20480, 30, 4900)]
  }

  predicate EndsWith(s: string, suffix: string) {
    |s| >= |suffix| && s[|s| - |suffix|..] == suffix
  }

  /** The (days, MB) an order gets from its package id. */
  function Plan(id: string): (int, int) {
    if EndsWith(id, "-1g-7d") then (7, 1024)
    else if EndsWith(id, "-3g-30d") then (30, 3072)
    else if EndsWith(id, "-20g-30d") then (30, 20480)
    else (30, 5120)
  }

  lemma EndsSame(a: string, suffix: string)
    ensures EndsWith(a + suffix, suffix)
  {
    assert (a + suffix)[|a + suffix| - |suffix|..] == suffix;
  }

  /** A string whose tail differs from a suffix in the k-th character from the
      end does not end with it, whatever comes before the tail. */
  lemma EndsApart(a: string, tail: string, suffix: string, k: nat)
    requires k < |tail| && k < |suffix| && tail[|tail| - 1 - k] != suffix[|suffix| - 1 - k]
    ensures !EndsWith(a + tail, suffix)
  {
    var s := a + tail;
    if |s| >= |suffix| {
      assert s[|s| - |suffix|..][|suffix| - 1 - k] == s[|s| - 1 - k] == tail[|tail| - 1 - k];
    }
  }

  lemma PlanByTail(a: string)
    ensures Plan(a + "-1g-7d") == (7, 1024)
    ensures Plan(a + "-3g-30d") == (30, 3072)
  {
    EndsSame(a, "-1g-7d");
    EndsApart(a, "-3g-30d", "-1g-7d", 1);
    EndsSame(a, "-3g-30d");
  }

  lemma PlanByLongTail(a: string)
    ensures Plan(a + "-5g-30d") == (30, 5120)
    ensures Plan(a + "-20g-30d") == (30, 20480)
  {
    EndsApart(a, "-5g-30d", "-1g-7d", 1);
    EndsApart(a, "-5g-30d", "-3g-30d", 5);
    EndsApart(a, "-5g-30d", "-20g-30d", 5);
    EndsApart(a, "-20g-30d", "-1g-7d", 1);
    EndsApart(a, "-20g-30d", "-3g-30d", 5);
    EndsSame(a, "-20g-30d");
  }

  /** For every region string, even one that itself contains a suffix, ordering a
      package of the catalog provisions that package's data and validity. */
  lemma CatalogMatchesOrders(region: string, i: nat)
    requires i < 4
    ensures Plan(Catalog(region)[i].id) == (Catalog(region)[i].validityDays, Catalog(region)[i].dataMB)
  {
    var a := "mock-" + (if region == "" then "GLOBAL" else region);
    PlanByTail(a);
    PlanByLongTail(a);
  }

  // ------------------------------------------------------------ provider state

  datatype MockOrder = MockOrder(package: string, createdAt: int, expiresAt: int, dataMB: int, usageMB: int)

  function NewOrder(package: string, now: int): MockOrder {
    MockOrder(package, now, now + Plan(package).0 * DAY, Plan(package).1, 0)
  }

  function Min(a: int, b: int): int {
    if a < b then a else b
  }

  /** One usage poll. */
  function Poll(o: MockOrder): MockOrder {
    o.(usageMB := Min(o.usageMB + o.dataMB / 10, o.dataMB))
  }

  function Polls(o: MockOrder, k: nat): MockOrder {
    if k == 0 then o else Poll(Polls(o, k - 1))
  }

  lemma OneMorePoll(k: nat, q: int, d: int)
    requires k > 0 && q >= 0 && d >= 0
    ensures Min(Min((k - 1) * q, d) + q, d) == Min(k * q, d)
  {
    assert k * q == (k - 1) * q + q;
  }

  /** k polls of a fresh order report min(k * (d / 10), d); the order is otherwise
      unchanged. */
  lemma {:induction false} PollsReport(o: MockOrder, k: nat)
    requires o.usageMB == 0 && o.dataMB >= 0
    ensures Polls(o, k) == o.(usageMB := Min(k * (o.dataMB / 10), o.dataMB))
  {
    if k > 0 {
      PollsReport(o, k - 1);
      OneMorePoll(k, o.dataMB / 10, o.dataMB);
    }
  }

  // ---------------------------------------------------------------- the world

  datatype Package = Package(id: string, region: string, dataMB: int, validityDays: int, cents: int)

  datatype Status = Ordered | Active | Cancelled

  datatype Row = Row(id: Id, org: string, ref: Id, package: string, dataMB: int, validityDays: int,
                     status: Status, activatedAt: Option<int>, expiresAt: int, lastUsageMB: int)

  /** orders is the provider's memory; packages and rows are tables. */
  datatype World = World(orders: map<Id, MockOrder>, packages: map<string, Package>, rows: map<Id, Row>, supply: int)

  datatype Stage = ReadPackage | CallProvider | WritePackages | InsertRow | ReadRow | WriteUsage | WriteStatus | Reload

  type Net = Stage -> Outcome

  datatype Error = BadInput | PackageNotFound | ESIMNotFound | Provider | Internal

  datatype Reply = Packages(list: seq<Package>) | Issued(row: Row) | Refreshed(row: Row) | Saved | Refused(error: Error)

  datatype Request =
    | RefreshCatalog(region: string)
    | Order(org: string, package: string)
    | RefreshUsage(org: string, id: Id)
    | MarkActivated(org: string, id: Id)
    | Cancel(org: string, id: Id)
    | Restart

  function AsPackage(o: Offering): Package {
    Package(o.id, o.region, o.dataMB, o.validityDays, o.cents)
  }

  function AsPackages(os: seq<Offering>): (ps: seq<Package>)
    ensures |ps| == |os| && forall i :: 0 <= i < |os| ==> ps[i] == AsPackage(os[i])
  {
    seq(|os|, i requires 0 <= i < |os| => AsPackage(os[i]))
  }

  /** The batch of upserts, one transaction. */
  function UpsertPackages(t: map<string, Package>, ps: seq<Package>): map<string, Package>
    decreases |ps|
  {
    if ps == [] then t else UpsertPackages(t, ps[..|ps|-1])[ps[|ps|-1].id := ps[|ps|-1]]
  }

  /** The batch leaves other ids alone ... */
  lemma {:induction false} UpsertKeepsOthers(t: map<string, Package>, ps: seq<Package>, id: string)
    requires forall i :: 0 <= i < |ps| ==> ps[i].id != id
    ensures var u := UpsertPackages(t, ps); (id in u <==> id in t) && (id in t ==> u[id] == t[id])
    decreases |ps|
  {
    if ps != [] {
      UpsertKeepsOthers(t, ps[..|ps|-1], id);
    }
  }

  /** ... and of several packages with one id it stores the last. */
  lemma {:induction false} UpsertStoresLast(t: map<string, Package>, ps: seq<Package>, i: nat)
    requires i < |ps| && forall k :: i < k < |ps| ==> ps[k].id != ps[i].id
    ensures var u := UpsertPackages(t, ps); ps[i].id in u && u[ps[i].id] == ps[i]
    decreases |ps|
  {
    var n := |ps| - 1;
    if i < n {
      assert ps[..n][i] == ps[i] && ps[n].id != ps[i].id;
      UpsertStoresLast(t, ps[..n], i);
    }
  }

  function IssuedRow(w: World, org: string, p: Package, now: int): Row {
    Row(w.supply, org, w.supply, p.id, p.dataMB, p.validityDays, Ordered, None, now + Plan(p.id).0 * DAY, 0)
  }

  function SetStatus(r: Row, s: Status, now: int): Row {
    r.(status := s, activatedAt := if s == Active && r.activatedAt.None? then Some(now) else r.activatedAt)
  }

  /** The two steps of a usage refresh that others can come between. */
  function PollOrder(w: World, ref: Id): World
    requires ref in w.orders
  {
    w.(orders := w.orders[ref := Poll(w.orders[ref])])
  }

  function WriteUsageOf(w: World, id: Id, mb: int): World {
    if id in w.rows then w.(rows := w.rows[id := w.rows[id].(lastUsageMB := mb)]) else w
  }

  /** One request, run to its reply at time now with nothing in between. */
  function Serve(w: World, r: Request, now: int, net: Net): (World, Reply) {
    match r
    case RefreshCatalog(region) =>
      if net(CallProvider).Failed? then (w, Refused(Provider)) else
      var ps := AsPackages(Catalog(region));
      (if net(WritePackages).Effective() then w.(packages := UpsertPackages(w.packages, ps)) else w,
       if net(WritePackages).Done? then Packages(ps) else Refused(Internal))
    case Order(org, package) =>
      if Text.TrimSpace(org) == "" then (w, Refused(BadInput))
      else if net(ReadPackage).Failed? then (w, Refused(Internal))
      else if package !in w.packages then (w, Refused(PackageNotFound))
      else if net(CallProvider).Failed? then (w, Refused(Provider))
      else
        var p := w.packages[package];
        var row := IssuedRow(w, org, p, now);
        var v := w.(orders := w.orders[row.ref := NewOrder(p.id, now)], supply := w.supply + 1);
        (if net(InsertRow).Effective() then v.(rows := v.rows[row.id := row]) else v,
         if net(InsertRow).Done? then Issued(row) else Refused(Internal))
    case RefreshUsage(org, id) =>
      if net(ReadRow).Failed? then (w, Refused(Internal))
      else if id !in w.rows || w.rows[id].org != org then (w, Refused(ESIMNotFound))
      else
        var ref := w.rows[id].ref;
        if ref !in w.orders then (w, Refused(Provider))
        else
          var v := PollOrder(w, ref);
          var u := if net(WriteUsage).Effective() then WriteUsageOf(v, id, v.orders[ref].usageMB) else v;
          (u, if net(WriteUsage).Done? && net(Reload).Done? then Refreshed(u.rows[id]) else Refused(Internal))
    case MarkActivated(org, id) =>
      if net(ReadRow).Failed? then (w, Refused(Internal))
      else if id !in w.rows || w.rows[id].org != org then (w, Refused(ESIMNotFound))
      else
        (if net(WriteStatus).Effective() then w.(rows := w.rows[id := SetStatus(w.rows[id], Active, now)]) else w,
         if net(WriteStatus).Done? then Saved else Refused(Internal))
    case Cancel(org, id) =>
      if net(ReadRow).Failed? then (w, Refused(Internal))
      else if id !in w.rows || w.rows[id].org != org then (w, Refused(ESIMNotFound))
      else
        var v := w.(orders := w.orders - {w.rows[id].ref});
        (if net(WriteStatus).Effective() then v.(rows := v.rows[id := SetStatus(v.rows[id], Cancelled, now)]) else v,
         if net(WriteStatus).Done? then Saved else Refused(Internal))
    case Restart => (w.(orders := map[]), Saved)
  }

  // --------------------------------------------------- usage agrees with orders

  predicate PackageOk(key: string, p: Package) {
    p.id == key && Plan(key) == (p.validityDays, p.dataMB)
  }

  predicate RowOk(w: World, id: Id, r: Row) {
    && r.id == id && id < w.supply && r.ref == id
    && Plan(r.package) == (r.validityDays, r.dataMB)
    && 0 <= r.lastUsageMB <= r.dataMB
    && (r.ref in w.orders ==>
          w.orders[r.ref].package == r.package && w.orders[r.ref].expiresAt == r.expiresAt && r.lastUsageMB <= w.orders[r.ref].usageMB)
  }

  predicate OrderOk(w: World, ref: Id, o: MockOrder) {
    ref < w.supply && o.dataMB == Plan(o.package).1 && 0 <= o.usageMB <= o.dataMB
    && o.expiresAt == o.createdAt + Plan(o.package).0 * DAY
  }

  ghost predicate Agrees(w: World) {
    && (forall p :: p in w.packages ==> PackageOk(p, w.packages[p]))
    && (forall ref :: ref in w.orders ==> OrderOk(w, ref, w.orders[ref]))
    && (forall id :: id in w.rows ==> RowOk(w, id, w.rows[id]))
  }

  lemma {:induction false} UpsertCatalog(t: map<string, Package>, ps: seq<Package>)
    requires forall p :: p in t ==> PackageOk(p, t[p])
    requires forall i :: 0 <= i < |ps| ==> PackageOk(ps[i].id, ps[i])
    ensures forall p :: p in UpsertPackages(t, ps) ==> PackageOk(p, UpsertPackages(t, ps)[p])
    decreases |ps|
  {
    if ps != [] {
      UpsertCatalog(t, ps[..|ps|-1]);
    }
  }

  /** An order of one org adds a row and an order, and changes no other. */
  lemma OrderUntouched(w: World, r: Request, now: int, net: Net, id: Id)
    requires Agrees(w) && id in w.rows && r.Order?
    ensures var v := Serve(w, r, now, net).0;
            && id in v.rows && v.rows[id] == w.rows[id]
            && (id in v.orders <==> id in w.orders) && (id in w.orders ==> v.orders[id] == w.orders[id])
  {
    assert RowOk(w, id, w.rows[id]);
  }

  /** A call of one org leaves the rows and provider orders of all others as they
      were. */
  lemma OtherOrgsUntouched(w: World, r: Request, now: int, net: Net, id: Id)
    requires Agrees(w) && id in w.rows
    requires !r.RefreshCatalog? && !r.Restart? && r.org != w.rows[id].org
    ensures var v := Serve(w, r, now, net).0;
            && id in v.rows && v.rows[id] == w.rows[id]
            && (id in v.orders <==> id in w.orders) && (id in w.orders ==> v.orders[id] == w.orders[id])
  {
    if r.Order? {
      OrderUntouched(w, r, now, net, id);
    } else if r.id in w.rows {
      assert RowOk(w, r.id, w.rows[r.id]);
      assert w.rows[r.id].ref == r.id;
    }
  }
}
