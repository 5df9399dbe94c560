/** The mock provider, the repository and the eSIM service as the code has them. */
module EsimService {
  import opened Common
  import opened Esim
  import Text

  /** Orders live in process memory; a restart starts from an empty map. */
  class Mock {
    var state: map<Id, MockOrder>

    constructor ()
      ensures state == map[]
    {
      state := map[];
    }

    method Order(package: string, ref: Id, now: int) returns (expiresAt: int)
      modifies this
      ensures state == old(state)[ref := NewOrder(package, now)] && expiresAt == state[ref].expiresAt
    {
      var days, mb := 30, 5120;
      if EndsWith(package, "-1g-7d") {
        days, mb := 7, 1024;
      } else if EndsWith(package, "-3g-30d") {
        days, mb := 30, 3072;
      } else if EndsWith(package, "-20g-30d") {
        days, mb := 30, 20480;
      }
      expiresAt := now + days * DAY;
      state := state[ref := MockOrder(package, now, expiresAt, mb, 0)];
    }

    method UsageMB(ref: Id) returns (usage: Option<int>)
      modifies this
      ensures ref !in old(state) ==> usage == None && state == old(state)
      ensures ref in old(state) ==> state == old(state)[ref := Poll(old(state)[ref])] && usage == Some(state[ref].usageMB)
    {
      if ref !in state { return None; }
      var o := state[ref];
      o := o.(usageMB := o.usageMB + o.dataMB / 10);
      if o.usageMB > o.dataMB { o := o.(usageMB := o.dataMB); }
      state := state[ref := o];
      return Some(o.usageMB);
    }

    method Cancel(ref: Id)
      modifies this
      ensures state == old(state) - {ref}
    {
      state := state - {ref};
    }
  }

  class Postgres {
    var packages: map<string, Package>
    var esims: map<Id, Row>

    constructor ()
      ensures packages == map[] && esims == map[]
    {
      packages, esims := map[], map[];
    }

    /** One batch, hence one transaction: all rows or none. */
    method UpsertPackages(list: seq<Package>, o: Outcome) returns (ok: bool)
      modifies this`packages
      ensures packages == if o.Effective() then Esim.UpsertPackages(old(packages), list) else old(packages)
      ensures ok <==> o.Done? || list == []
    {
      if list == [] { return true; }
      var t := packages;
      for i := 0 to |list|
        invariant t == Esim.UpsertPackages(packages, list[..i])
      {
        assert list[..i + 1][..i] == list[..i];
        t := t[list[i].id := list[i]];
      }
      assert list[..|list|] == list;
      if o.Effective() { packages := t; }
      return o.Done?;
    }

    method GetESIM(id: Id, o: Outcome) returns (r: Result<Row, Error>)
      ensures r == if o.Failed? then Err(Internal) else if id in esims then Ok(esims[id]) else Err(ESIMNotFound)
    {
      if o.Failed? { return Err(Internal); }
      return if id in esims then Ok(esims[id]) else Err(ESIMNotFound);
    }

    method UpdateUsage(id: Id, usage: int, o: Outcome) returns (r: Reply)
      modifies this`esims
      ensures esims == if o.Effective() && id in old(esims) then old(esims)[id := old(esims)[id].(lastUsageMB := usage)] else old(esims)
      ensures r == if o.Failed? then Refused(Internal) else if id in old(esims) then Saved else Refused(ESIMNotFound)
    {
      var affected := id in esims;
      if o.Effective() && affected { esims := esims[id := esims[id].(lastUsageMB := usage)]; }
      if o.Failed? { return Refused(Internal); }
      return if affected then Saved else Refused(ESIMNotFound);
    }

    method SetStatus(id: Id, status: Status, now: int, o: Outcome) returns (r: Reply)
      modifies this`esims
      ensures esims == if o.Effective() && id in old(esims) then old(esims)[id := Esim.SetStatus(old(esims)[id], status, now)] else old(esims)
      ensures r == if o.Failed? then Refused(Internal) else if id in old(esims) then Saved else Refused(ESIMNotFound)
    {
      var affected := id in esims;
      if o.Effective() && affected {
        var e := esims[id];
        if status == Active && e.activatedAt.None? { e := e.(activatedAt := Some(now)); }
        esims := esims[id := e.(status := status)];
      }
      if o.Failed? { return Refused(Internal); }
      return if affected then Saved else Refused(ESIMNotFound);
    }
  }

  class ESIM {
    const repo: Postgres
    const prov: Mock
    /** The next fresh identifier; it names an order and the row made for it. */
    var supply: int

    constructor (repo: Postgres, prov: Mock)
      ensures this.repo == repo && this.prov == prov && supply == 0
    {
      this.repo, this.prov, supply := repo, prov, 0;
    }

    function Snapshot(): World
      reads this, repo, prov
    {
      World(prov.state, repo.packages, repo.esims, supply)
    }

    method RefreshCatalog(region: string, now: int, net: Net) returns (r: Reply)
      modifies repo
      ensures (Snapshot(), r) == Serve(old(Snapshot()), Request.RefreshCatalog(region), now, net)
    {
      if net(CallProvider).Failed? { return Refused(Provider); }
      var offers := Catalog(region);
      var list: seq<Package> := [];
      for i := 0 to |offers|
        invariant |list| == i && forall k :: 0 <= k < i ==> list[k] == AsPackage(offers[k])
      {
        var o := offers[i];
        list := list + [Package(o.id, o.region, o.dataMB, o.validityDays, o.cents)];
      }
      assert list == AsPackages(offers);
      var ok := repo.UpsertPackages(list, net(WritePackages));
      return if ok then Packages(list) else Refused(Internal);
    }

    method Order(org: string, package: string, now: int, net: Net) returns (r: Reply)
      modifies this, repo, prov
      ensures (Snapshot(), r) == Serve(old(Snapshot()), Request.Order(org, package), now, net)
    {
      if Text.TrimSpace(org) == "" { return Refused(BadInput); }
      if net(ReadPackage).Failed? { return Refused(Internal); }
      if package !in repo.packages { return Refused(PackageNotFound); }
      var p := repo.packages[package];
      if net(CallProvider).Failed? { return Refused(Provider); }
      var id := supply;
      supply := supply + 1;
      var expiresAt := prov.Order(p.id, id, now);
      var e := Row(id, org, id, p.id, p.dataMB, p.validityDays, Ordered, None, expiresAt, 0);
      if net(InsertRow).Effective() { repo.esims := repo.esims[id := e]; }
      return if net(InsertRow).Done? then Issued(e) else Refused(Internal);
    }

    method OwnedByOrg(org: string, id: Id, o: Outcome) returns (r: Result<Row, Error>)
      ensures r == if o.Failed? then Err(Internal)
                   else if id in repo.esims && repo.esims[id].org == org then Ok(repo.esims[id]) else Err(ESIMNotFound)
    {
      r := repo.GetESIM(id, o);
      if r.Ok? && r.value.org != org { return Err(ESIMNotFound); }
    }

    method RefreshUsage(org: string, id: Id, now: int, net: Net) returns (r: Reply)
      modifies repo, prov
      ensures (Snapshot(), r) == Serve(old(Snapshot()), Request.RefreshUsage(org, id), now, net)
    {
      var e := OwnedByOrg(org, id, net(ReadRow));
      if e.Err? { return Refused(e.error); }
      var usage := prov.UsageMB(e.value.ref);
      if usage.None? { return Refused(Provider); }
      r := repo.UpdateUsage(id, usage.value, net(WriteUsage));
      if r.Refused? { return; }
      var row := repo.GetESIM(id, net(Reload));
      return if row.Ok? then Refreshed(row.value) else Refused(row.error);
    }

    method MarkActivated(org: string, id: Id, now: int, net: Net) returns (r: Reply)
      modifies repo
      ensures (Snapshot(), r) == Serve(old(Snapshot()), Request.MarkActivated(org, id), now, net)
    {
      var e := OwnedByOrg(org, id, net(ReadRow));
      if e.Err? { return Refused(e.error); }
      r := repo.SetStatus(id, Active, now, net(WriteStatus));
    }

    method Cancel(org: string, id: Id, now: int, net: Net) returns (r: Reply)
      modifies repo, prov
      ensures (Snapshot(), r) == Serve(old(Snapshot()), Request.Cancel(org, id), now, net)
    {
      var e := OwnedByOrg(org, id, net(ReadRow));
      if e.Err? { return Refused(e.error); }
      prov.Cancel(e.value.ref);
      r := repo.SetStatus(id, Cancelled, now, net(WriteStatus));
    }
  }
}
