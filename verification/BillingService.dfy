/** The billing service over its tables: Ingest, MyMonth and OrgMonth. */
module BillingService {
  import opened Common
  import opened Billing

  /** A row of OrgMonth. */
  datatype Rollup = Rollup(user: Uuid, totals: Amounts)

  function RowKey(org: Uuid, month: Month, r: Rollup): Key {
    Key(org, r.user, month)
  }

  predicate InMonth(k: Key, org: Uuid, month: Month) {
    k.org == org && k.month == month
  }

  /** What the OrgMonth query promises: the org's rows of the month, each once,
      in descending order of cents (ties in any order). */
  ghost predicate IsOrgMonth(rollups: map<Key, Amounts>, org: Uuid, month: Month, rows: seq<Rollup>) {
    && (forall i, j :: 0 <= i < j < |rows| ==> rows[i].totals.cents >= rows[j].totals.cents && rows[i].user != rows[j].user)
    && (forall i :: 0 <= i < |rows| ==> RowKey(org, month, rows[i]) in rollups && rollups[RowKey(org, month, rows[i])] == rows[i].totals)
    && (forall k :: k in rollups && InMonth(k, org, month) ==> Listed(k, org, month, rows))
  }

  ghost predicate Listed(k: Key, org: Uuid, month: Month, rows: seq<Rollup>) {
    exists i :: 0 <= i < |rows| && RowKey(org, month, rows[i]) == k
  }

  // -------------------------------------------------------- org totals conserve

  function SumRows(rows: seq<Rollup>): Amounts {
    if rows == [] then NOTHING else SumRows(rows[..|rows|-1]).Plus(rows[|rows|-1].totals)
  }

  /** The org's committed events rolled up under the month. */
  function OrgSum(log: seq<Event>, org: Uuid, month: Month): Amounts {
    if log == [] then NOTHING
    else
      var rest := OrgSum(log[..|log|-1], org, month);
      var e := log[|log|-1];
      if e.org == org && e.at.month == month then rest.Plus(e.amounts) else rest
  }

  /** The sums of some keys, over a log. */
  function SumKeys(log: seq<Event>, ks: seq<Key>): Amounts {
    if ks == [] then NOTHING else SumKeys(log, ks[..|ks|-1]).Plus(Usage(log, ks[|ks|-1]))
  }

  /** One more event adds to the one key it has, if that is among distinct keys. */
  lemma {:induction false} SumKeysAppend(log: seq<Event>, e: Event, ks: seq<Key>)
    requires forall i, j :: 0 <= i < j < |ks| ==> ks[i] != ks[j]
    ensures SumKeys(log + [e], ks) ==
            if KeyOf(e) in ks then SumKeys(log, ks).Plus(e.amounts) else SumKeys(log, ks)
  {
    if ks != [] {
      var init, k := ks[..|ks|-1], ks[|ks|-1];
      SumKeysAppend(log, e, init);
      assert (log + [e])[..|log|] == log;
      assert ks == init + [k];
      assert KeyOf(e) in ks <==> KeyOf(e) in init || KeyOf(e) == k;
      assert k !in init;
    }
  }

  lemma {:induction false} SumKeysEmpty(ks: seq<Key>)
    ensures SumKeys([], ks) == NOTHING
  {
    if ks != [] { SumKeysEmpty(ks[..|ks|-1]); }
  }

  /** Distinct keys that are all in the month, and include the key of each event
      of the org in the month, sum to the org's events. */
  lemma {:induction false} KeysConserve(log: seq<Event>, org: Uuid, month: Month, ks: seq<Key>)
    requires forall i, j :: 0 <= i < j < |ks| ==> ks[i] != ks[j]
    requires forall k :: k in ks ==> InMonth(k, org, month)
    requires forall e :: e in log && InMonth(KeyOf(e), org, month) ==> KeyOf(e) in ks
    ensures SumKeys(log, ks) == OrgSum(log, org, month)
  {
    if log == [] {
      SumKeysEmpty(ks);
    } else {
      var init, e := log[..|log|-1], log[|log|-1];
      assert log == init + [e] && e in log;
      KeysConserve(init, org, month, ks);
      SumKeysAppend(init, e, ks);
    }
  }

  lemma {:induction false} RowsAreSums(log: seq<Event>, ks: seq<Key>, rows: seq<Rollup>)
    requires |ks| == |rows| && forall i :: 0 <= i < |rows| ==> rows[i].totals == Usage(log, ks[i])
    ensures SumRows(rows) == SumKeys(log, ks)
  {
    if rows != [] {
      RowsAreSums(log, ks[..|ks|-1], rows[..|rows|-1]);
      assert rows[|rows|-1].totals == Usage(log, ks[|ks|-1]);
    }
  }

  lemma RowsSumToOrg(l: Ledger, org: Uuid, month: Month, rows: seq<Rollup>)
    requires Agrees(l) && IsOrgMonth(l.rollups, org, month, rows)
    ensures SumRows(rows) == OrgSum(l.log, org, month)
  {
    forall i | 0 <= i < |rows| ensures rows[i].totals == Usage(l.log, RowKey(org, month, rows[i])) {
      assert l.Total(RowKey(org, month, rows[i])) == Usage(l.log, RowKey(org, month, rows[i]));
    }
    var ks := seq(|rows|, i requires 0 <= i < |rows| => RowKey(org, month, rows[i]));
    RowsAreSums(l.log, ks, rows);
    forall e | e in l.log && InMonth(KeyOf(e), org, month) ensures KeyOf(e) in ks { EventListed(l, org, month, rows, e, ks); }
    KeysConserve(l.log, org, month, ks);
  }

  lemma EventListed(l: Ledger, org: Uuid, month: Month, rows: seq<Rollup>, e: Event, ks: seq<Key>)
    requires Agrees(l) && IsOrgMonth(l.rollups, org, month, rows) && e in l.log && InMonth(KeyOf(e), org, month)
    requires |ks| == |rows| && forall i :: 0 <= i < |rows| ==> ks[i] == RowKey(org, month, rows[i])
    ensures KeyOf(e) in ks
  {
    var i :| 0 <= i < |l.log| && l.log[i] == e;
    assert Recorded(l.log, KeyOf(e)) && Listed(KeyOf(e), org, month, rows);
  }

  /** For any event history the rows of OrgMonth sum to the org's events under
      that month, and for every user MyMonth is the sum of that user's events: the
      user's row of OrgMonth if there is one, and zero usage if there is none. */
  lemma OrgTotalsConserve(l: Ledger, org: Uuid, month: Month, rows: seq<Rollup>, user: Uuid)
    requires Agrees(l) && IsOrgMonth(l.rollups, org, month, rows)
    ensures SumRows(rows) == OrgSum(l.log, org, month)
    ensures l.Total(Key(org, user, month)) == Usage(l.log, Key(org, user, month))
    ensures forall i :: 0 <= i < |rows| && rows[i].user == user ==> l.Total(Key(org, user, month)) == rows[i].totals
    ensures Listed(Key(org, user, month), org, month, rows) <==> Recorded(l.log, Key(org, user, month))
    ensures !Listed(Key(org, user, month), org, month, rows) ==> l.Total(Key(org, user, month)) == NOTHING
  {
    RowsSumToOrg(l, org, month, rows);
    assert l.Total(Key(org, user, month)) == Usage(l.log, Key(org, user, month));
    if Listed(Key(org, user, month), org, month, rows) {
      var i :| 0 <= i < |rows| && RowKey(org, month, rows[i]) == Key(org, user, month);
    }
  }

  /** Part of the answer is in rows, the rest, with no more cents, is left. */
  ghost predicate Picked(rollups: map<Key, Amounts>, org: Uuid, month: Month, rows: seq<Rollup>, left: map<Key, Amounts>) {
    && (forall k :: k in left ==> k in rollups && InMonth(k, org, month) && left[k] == rollups[k])
    && (forall k :: k in rollups && InMonth(k, org, month) ==> k in left || Listed(k, org, month, rows))
    && (forall i, k :: 0 <= i < |rows| && k in left ==> rows[i].totals.cents >= left[k].cents && rows[i].user != k.user)
    && (forall i, j :: 0 <= i < j < |rows| ==> rows[i].totals.cents >= rows[j].totals.cents && rows[i].user != rows[j].user)
    && (forall i :: 0 <= i < |rows| ==> RowKey(org, month, rows[i]) in rollups && rollups[RowKey(org, month, rows[i])] == rows[i].totals)
  }

  lemma PickNext(rollups: map<Key, Amounts>, org: Uuid, month: Month, rows: seq<Rollup>, left: map<Key, Amounts>, k: Key)
    requires Picked(rollups, org, month, rows, left) && k in left && forall q :: q in left ==> left[q].cents <= left[k].cents
    ensures Picked(rollups, org, month, rows + [Rollup(k.user, left[k])], left - {k})
  {
    var next := rows + [Rollup(k.user, left[k])];
    assert RowKey(org, month, next[|rows|]) == k;
    forall q | q in rollups && InMonth(q, org, month) && q !in left - {k} ensures Listed(q, org, month, next) {
      if q != k {
        var i :| 0 <= i < |rows| && RowKey(org, month, rows[i]) == q;
        assert next[i] == rows[i];
      }
    }
  }

  // --------------------------------------------------------------- the code

  class Service {
    var events: seq<Stored>
    var rollups: map<Key, Amounts>
    /** The committed events, with the offsets the table does not keep. */
    ghost var log: seq<Event>

    ghost predicate Valid()
      reads this
    {
      && |events| == |log| && (forall i :: 0 <= i < |log| ==> events[i] == RowOf(log[i]))
      && Agrees(Ledger(log, rollups))
    }

    constructor ()
      ensures Valid() && Ledger(log, rollups) == EMPTY
    {
      events, rollups, log := [], map[], [];
    }

    /** The event insert and the rollup upsert in one transaction; an integer out
        of range or a failed statement rolls both back. */
    method Ingest(event: Event, now: Time, net: Stage -> Outcome) returns (ok: bool)
      requires Valid()
      modifies this
      ensures Valid()
      ensures (Ledger(log, rollups), ok) == IngestSpec(old(Ledger(log, rollups)), event, now, net)
    {
      var e := event;
      if e.at.instant == ZERO_INSTANT { e := e.(at := now); }
      if net(Begin).Failed? { return false; }
      if net(InsertEvent).Failed? || !e.amounts.Fits() { return false; }
      var inserted := events + [RowOf(e)];
      var user := if e.user.User? then e.user.id else ZERO_UUID;
      var k := Key(e.org, user, e.at.month);
      var total := e.amounts;
      if k in rollups {
        var r := rollups[k];
        total := Amounts(r.data + total.data, r.minutes + total.minutes, r.sms + total.sms, r.cents + total.cents);
      }
      ghost var l := Ledger(log, rollups);
      assert k == KeyOf(e) && total == l.Total(k).Plus(e.amounts);
      if net(UpsertRollup).Failed? || !total.Fits() { return false; }
      var upserted := rollups[k := total];
      assert Accepts(l, e) && Add(l, e) == Ledger(log + [e], upserted);
      if net(Commit).Effective() {
        AddAgrees(l, e);
        events, rollups, log := inserted, upserted, log + [e];
      }
      return net(Commit).Done?;
    }

    method MyMonth(org: Uuid, user: Uuid, month: Month, o: Outcome) returns (r: Result<Rollup, ()>)
      requires Valid()
      ensures r == if o.Failed? then Err(()) else Ok(Rollup(user, Usage(log, Key(org, user, month))))
    {
      if o.Failed? { return Err(()); }
      var k := Key(org, user, month);
      assert Ledger(log, rollups).Total(k) == Usage(log, k);
      if k !in rollups { return Ok(Rollup(user, NOTHING)); }
      return Ok(Rollup(user, rollups[k]));
    }

    /** SELECT ... ORDER BY cents DESC. */
    method SelectOrgMonth(org: Uuid, month: Month) returns (rows: seq<Rollup>)
      ensures IsOrgMonth(rollups, org, month, rows)
    {
      rows := [];
      var left := map k | k in rollups && InMonth(k, org, month) :: rollups[k];
      while left != map[]
        invariant Picked(rollups, org, month, rows, left)
        decreases |left|
      {
        var k := MaxCents(left);
        PickNext(rollups, org, month, rows, left, k);
        rows, left := rows + [Rollup(k.user, left[k])], left - {k};
      }
    }

    /** Scans the result rows into a slice. */
    method OrgMonth(org: Uuid, month: Month, o: Outcome) returns (r: Result<seq<Rollup>, ()>)
      ensures if o.Failed? then r == Err(()) else r.Ok? && IsOrgMonth(rollups, org, month, r.value)
    {
      if o.Failed? { return Err(()); }
      var rows := SelectOrgMonth(org, month);
      var out := [];
      for i := 0 to |rows|
        invariant out == rows[..i]
      {
        out := out + [rows[i]];
      }
      return Ok(out);
    }
  }

  /** A key with the most cents. */
  method MaxCents(m: map<Key, Amounts>) returns (best: Key)
    requires m != map[]
    ensures best in m && forall k :: k in m ==> m[k].cents <= m[best].cents
  {
    best :| best in m;
    var todo := m.Keys - {best};
    while todo != {}
      invariant best in m && todo <= m.Keys
      invariant forall k :: k in m && k !in todo ==> m[k].cents <= m[best].cents
      decreases todo
    {
      var k :| k in todo;
      if m[k].cents > m[best].cents { best := k; }
      todo := todo - {k};
    }
  }
}
