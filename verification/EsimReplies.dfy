/** What each eSIM request replies and leaves behind, field by field, for every
    failure of its statements (`internal/service/esim.go`, `internal/provider/mock.go`). */
module EsimReplies {
  import opened Common
  import opened Esim
  import Text

  /** The provider lists four packages per region, GLOBAL for an empty one, and
      all four are stored and returned; other packages, orders and rows stay. */
  lemma CatalogReplies(w: World, region: string, now: int, net: Net)
    ensures var (v, reply) := Serve(w, RefreshCatalog(region), now, net);
            var r := if region == "" then "GLOBAL" else region;
            var (a, b) := (Package("mock-" + r + "-1g-7d", r, 1024, 7, 450), Package("mock-" + r + "-3g-30d", r, 3072, 30, 1100));
            var (c, d) := (Package("mock-" + r + "-5g-30d", r, 5120, 30, 1900), Package("mock-" + r + "-20g-30d", r, 20480, 30, 4900));
            var stored := w.packages[a.id := a][b.id := b][c.id := c][d.id := d];
            && (net(CallProvider) != Done ==> v == w && reply == Refused(Provider))
            && (net(CallProvider) == Done ==>
                  && v == World(w.orders, if net(WritePackages) == Failed(false) then w.packages else stored, w.rows, w.supply)
                  && reply == if net(WritePackages) == Done then Packages([a, b, c, d]) else Refused(Internal))
  {
    var ps := AsPackages(Catalog(region));
    var p0, p1, p2, p3 := ps[0], ps[1], ps[2], ps[3];
    assert ps == [p0, p1, p2, p3];
    FourUpserts(w.packages, p0, p1, p2, p3);
  }

  lemma FourUpserts(t: map<string, Package>, a: Package, b: Package, c: Package, d: Package)
    ensures UpsertPackages(t, [a, b, c, d]) == t[a.id := a][b.id := b][c.id := c][d.id := d]
  {
    assert [a, b, c, d][..3] == [a, b, c] && [a, b, c][..2] == [a, b] && [a, b][..1] == [a] && [a][..0] == [];
    assert UpsertPackages(t, [a]) == t[a.id := a];
    assert UpsertPackages(t, [a, b, c]) == t[a.id := a][b.id := b][c.id := c];
  }

  /** An organisation of nothing but white space is refused before anything else,
      then an unreadable or an unknown package, then a provider error; none of
      these changes anything. */
  lemma OrderRefused(w: World, org: string, package: string, now: int, net: Net)
    ensures var (v, reply) := Serve(w, Order(org, package), now, net);
            && ((forall c :: c in org ==> Text.IsSpace(c)) ==> v == w && reply == Refused(BadInput))
            && ((exists c :: c in org && !Text.IsSpace(c)) ==>
                  && (net(ReadPackage) != Done ==> v == w && reply == Refused(Internal))
                  && (net(ReadPackage) == Done && package !in w.packages ==> v == w && reply == Refused(PackageNotFound))
                  && (net(ReadPackage) == Done && package in w.packages && net(CallProvider) != Done ==> v == w && reply == Refused(Provider)))
  {
    BlankIff(org);
  }

  lemma BlankIff(s: string)
    ensures Text.TrimSpace(s) == "" <==> forall c :: c in s ==> Text.IsSpace(c)
  {
    if Text.TrimSpace(s) == "" {
      var a, b := Text.TrimSplits(s);
      assert s == a + b;
    }
    if forall c :: c in s ==> Text.IsSpace(c) {
      assert Text.Blank(s);
      Text.TrimBlank(s);
    }
  }

  lemma Ending(s: string, suffix: string)
    ensures EndsWith(s, suffix) ==> exists a: string :: s == a + suffix
  {
    if EndsWith(s, suffix) {
      assert s == s[..|s| - |suffix|] + suffix;
    }
  }

  /** What a package id orders, by its ending: three endings have their own days
      and data, and every other id gets 30 days and 5120 MB. */
  lemma PlanTable(a: string, id: string)
    ensures Plan(a + "-1g-7d") == (7, 1024) && Plan(a + "-3g-30d") == (30, 3072) && Plan(a + "-20g-30d") == (30, 20480)
    ensures (forall b: string :: id != b + "-1g-7d" && id != b + "-3g-30d" && id != b + "-20g-30d") ==> Plan(id) == (30, 5120)
  {
    PlanByTail(a);
    PlanByLongTail(a);
    if forall b: string :: id != b + "-1g-7d" && id != b + "-3g-30d" && id != b + "-20g-30d" {
      Ending(id, "-1g-7d");
      Ending(id, "-3g-30d");
      Ending(id, "-20g-30d");
    }
  }

  /** An order that goes through: the provider has an order with the package's
      data, unused, that expires after its days of 86400 seconds; the table has
      one new row, under a new id, for the caller's organisation, ordered, not
      activated, with no usage and the same data, days and expiry; and the reply
      is that row. If only the insert fails the provider's order is there without
      a row. */
  lemma OrderReplies(w: World, org: string, package: string, now: int, net: Net)
    requires Agrees(w) && package in w.packages && (exists c :: c in org && !Text.IsSpace(c))
    requires net(ReadPackage) == Done && net(CallProvider) == Done
    ensures var (v, reply) := Serve(w, Order(org, package), now, net);
            var (id, p) := (w.supply, w.packages[package]);
            var end := now + p.validityDays * 86_400;
            var row := Row(id, org, id, package, p.dataMB, p.validityDays, Status.Ordered, None, end, 0);
            && id !in w.rows && id !in w.orders
            && v == World(w.orders[id := MockOrder(package, now, end, p.dataMB, 0)], w.packages,
                          if net(InsertRow) == Failed(false) then w.rows else w.rows[id := row], id + 1)
            && reply == if net(InsertRow) == Done then Issued(row) else Refused(Internal)
  {
    BlankIff(org);
    assert PackageOk(package, w.packages[package]);
    forall i | i in w.rows ensures i != w.supply { assert RowOk(w, i, w.rows[i]); }
    forall i | i in w.orders ensures i != w.supply { assert OrderOk(w, i, w.orders[i]); }
  }

  /** Any request on a row that is missing or another organisation's is not found,
      and one whose row cannot be read is an error; neither changes anything. */
  lemma ForeignRow(w: World, r: Request, now: int, net: Net)
    requires r.RefreshUsage? || r.MarkActivated? || r.Cancel?
    ensures var (v, reply) := Serve(w, r, now, net);
            && (net(ReadRow) != Done ==> v == w && reply == Refused(Internal))
            && (net(ReadRow) == Done && (r.id !in w.rows || w.rows[r.id].org != r.org) ==> v == w && reply == Refused(ESIMNotFound))
  {
  }

  /** A refresh of the organisation's own row takes a tenth more of the data from
      the provider, never above all of it, and stores and returns that usage; an
      order the provider has lost is a provider error. */
  lemma UsageReplies(w: World, org: string, id: Id, now: int, net: Net)
    requires net(ReadRow) == Done && id in w.rows && w.rows[id].org == org
    ensures var (v, reply) := Serve(w, RefreshUsage(org, id), now, net);
            var row := w.rows[id];
            && (row.ref !in w.orders ==> v == w && reply == Refused(Provider))
            && (row.ref in w.orders ==>
                  var o := w.orders[row.ref];
                  var sum := o.usageMB + o.dataMB / 10;
                  var usage := if sum > o.dataMB then o.dataMB else sum;
                  var polled := Row(row.id, row.org, row.ref, row.package, row.dataMB, row.validityDays, row.status, row.activatedAt, row.expiresAt, usage);
                  && v == World(w.orders[row.ref := MockOrder(o.package, o.createdAt, o.expiresAt, o.dataMB, usage)], w.packages,
                                if net(WriteUsage) == Failed(false) then w.rows else w.rows[id := polled], w.supply)
                  && reply == if net(WriteUsage) == Done && net(Reload) == Done then Refreshed(polled) else Refused(Internal))
  {
  }

  /** Activation makes the organisation's own row active, and the first one is its
      time of activation; nothing else changes. */
  lemma ActivationReplies(w: World, org: string, id: Id, now: int, net: Net)
    requires net(ReadRow) == Done && id in w.rows && w.rows[id].org == org
    ensures var (v, reply) := Serve(w, MarkActivated(org, id), now, net);
            var row := w.rows[id];
            var active := Row(row.id, row.org, row.ref, row.package, row.dataMB, row.validityDays, Status.Active,
                              if row.activatedAt == None then Some(now) else row.activatedAt, row.expiresAt, row.lastUsageMB);
            && v == World(w.orders, w.packages, if net(WriteStatus) == Failed(false) then w.rows else w.rows[id := active], w.supply)
            && reply == if net(WriteStatus) == Done then Saved else Refused(Internal)
  {
  }

  /** Cancellation drops the provider's order first, whatever becomes of the
      status write, which makes the organisation's own row cancelled. */
  lemma CancelReplies(w: World, org: string, id: Id, now: int, net: Net)
    requires net(ReadRow) == Done && id in w.rows && w.rows[id].org == org
    ensures var (v, reply) := Serve(w, Cancel(org, id), now, net);
            var row := w.rows[id];
            var cancelled := Row(row.id, row.org, row.ref, row.package, row.dataMB, row.validityDays, Status.Cancelled,
                                 row.activatedAt, row.expiresAt, row.lastUsageMB);
            && v == World(w.orders - {row.ref}, w.packages, if net(WriteStatus) == Failed(false) then w.rows else w.rows[id := cancelled], w.supply)
            && reply == if net(WriteStatus) == Done then Saved else Refused(Internal)
  {
  }

  /** A restart forgets every order and keeps the tables; from then on a usage
      refresh of any of these rows is a provider error. */
  lemma RestartForgets(w: World, org: string, id: Id, now: int, later: int, net: Net, again: Net)
    requires again(ReadRow) == Done && id in w.rows && w.rows[id].org == org
    ensures var (v, reply) := Serve(w, Restart, now, net);
            && v == World(map[], w.packages, w.rows, w.supply) && reply == Saved
            && Serve(v, RefreshUsage(org, id), later, again) == (v, Refused(Provider))
  {
  }
}
