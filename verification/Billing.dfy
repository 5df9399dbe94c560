/** Usage events and their monthly rollups
    (`svc-aerial-billing/internal/billing/billing.go`). */
module Billing {
  import opened Common
  import Sequences

  datatype Month = Month(year: int, month: int)

  /** A Go time: an instant, a UTC offset, and the calendar month at that offset. */
  datatype Time = Time(instant: int, offset: int, month: Month)

  /** time.Time's zero value, as Unix seconds. */
  const ZERO_INSTANT := -62135596800

  datatype Amounts = Amounts(data: int, minutes: int, sms: int, cents: int) {
    function Plus(b: Amounts): Amounts {
      Amounts(data + b.data, minutes + b.minutes, sms + b.sms, cents + b.cents)
    }
    /** Every field fits a Postgres INTEGER. */
    predicate Fits() {
      FitsInt(data) && FitsInt(minutes) && FitsInt(sms) && FitsInt(cents)
    }
    predicate NonNegative() {
      data >= 0 && minutes >= 0 && sms >= 0 && cents >= 0
    }
    function Get(f: Field): int {
      match f
      case Data => data
      case Minutes => minutes
      case Sms => sms
      case Cents => cents
    }
  }

  datatype Field = Data | Minutes | Sms | Cents

  /** The positive (up) or the negative part of a number. */
  function Clip(n: int, up: bool): int {
    if up == (n > 0) then n else 0
  }

  const NOTHING := Amounts(0, 0, 0, 0)

  predicate FitsInt(n: int) {
    -0x8000_0000 <= n < 0x8000_0000
  }

  /** UUIDs as numbers; 0 is the all-zero UUID. */
  type Uuid = int

  const ZERO_UUID: Uuid := 0

  /** An optional id in a request: absent, an empty string, or a UUID. */
  datatype UserRef = Absent | Empty | User(id: Uuid)

  datatype Event = Event(org: Uuid, user: UserRef, source: string, resource: Option<string>, amounts: Amounts, at: Time)

  datatype Key = Key(org: Uuid, user: Uuid, month: Month)

  /** The account of an event: its organisation, its own user or, when it names
      none, the all-zero UUID, and the month at its own offset. */
  predicate Charged(e: Event, k: Key) {
    && e.org == k.org && e.at.month == k.month
    && match e.user
       case Absent => k.user == 0
       case Empty => k.user == 0
       case User(id) => k.user == id
  }

  /** The rollup row of an event. */
  function KeyOf(e: Event): (k: Key)
    ensures forall q: Key :: Charged(e, q) <==> q == k
  {
    Key(e.org, if e.user.User? then e.user.id else ZERO_UUID, e.at.month)
  }

  /** What the two tables say: the committed events in order, and the rollups. */
  datatype Ledger = Ledger(log: seq<Event>, rollups: map<Key, Amounts>) {
    function Total(k: Key): Amounts {
      if k in rollups then rollups[k] else NOTHING
    }
  }

  const EMPTY := Ledger([], map[])

  /** What the events of a log charge to an account, all together. */
  function Usage(log: seq<Event>, k: Key): Amounts {
    if log == [] then Amounts(0, 0, 0, 0)
    else
      var rest, e := Usage(log[..|log|-1], k), log[|log|-1];
      if Charged(e, k) then rest.Plus(e.amounts) else rest
  }

  predicate Accepts(l: Ledger, e: Event) {
    e.amounts.Fits() && l.Total(KeyOf(e)).Plus(e.amounts).Fits()
  }

  function Add(l: Ledger, e: Event): Ledger {
    Ledger(l.log + [e], l.rollups[KeyOf(e) := l.Total(KeyOf(e)).Plus(e.amounts)])
  }

  datatype Stage = Begin | InsertEvent | UpsertRollup | Commit

  /** An event without a time takes the server's. */
  function Stamped(e: Event, now: Time): Event {
    if e.at.instant == ZERO_INSTANT then e.(at := now) else e
  }

  /** Ingest as a transaction: the ledger after it, and whether it replied nil.
      Only the outcome of the commit can be in doubt. */
  function IngestSpec(l: Ledger, e: Event, now: Time, net: Stage -> Outcome): (Ledger, bool) {
    var s := Stamped(e, now);
    if net(Begin).Failed? || net(InsertEvent).Failed? || net(UpsertRollup).Failed? || !Accepts(l, s) then (l, false)
    else (if net(Commit).Effective() then Add(l, s) else l, net(Commit).Done?)
  }

  // -------------------------------------------------------- rollup equals log

  ghost predicate Recorded(log: seq<Event>, k: Key) {
    exists i :: 0 <= i < |log| && Charged(log[i], k)
  }

  ghost predicate Agrees(l: Ledger) {
    forall k: Key ::
      && (k in l.rollups <==> Recorded(l.log, k))
      && l.Total(k) == Usage(l.log, k) && l.Total(k).Fits()
  }

  lemma AddAgrees(l: Ledger, e: Event)
    requires Agrees(l) && Accepts(l, e)
    ensures Agrees(Add(l, e))
  {
    var t := Add(l, e);
    assert t.log[..|t.log|-1] == l.log;
    forall k: Key
      ensures (k in t.rollups <==> Recorded(t.log, k)) && t.Total(k) == Usage(t.log, k) && t.Total(k).Fits()
    {
      if Recorded(l.log, k) {
        var i :| 0 <= i < |l.log| && Charged(l.log[i], k);
        assert t.log[i] == l.log[i];
      }
      if k == KeyOf(e) { assert t.log[|l.log|] == e; }
      assert l.Total(k) == Usage(l.log, k) && l.Total(k).Fits();
    }
  }

  datatype Request = Request(event: Event, now: Time, net: Stage -> Outcome)

  function IngestAll(l: Ledger, rs: seq<Request>): Ledger
    decreases |rs|
  {
    if rs == [] then l else IngestAll(IngestSpec(l, rs[0].event, rs[0].now, rs[0].net).0, rs[1..])
  }

  /** In every state reached by any Ingest calls, failing at any statement, a
      rollup row exists exactly for the keys of committed events, and holds
      exactly the sums of those events, which fit INTEGER columns. */
  lemma {:induction false} RollupEqualsLog(l: Ledger, rs: seq<Request>)
    requires Agrees(l)
    ensures Agrees(Ledger([], map[])) && Agrees(IngestAll(l, rs))
    decreases |rs|
  {
    if rs != [] {
      var e := Stamped(rs[0].event, rs[0].now);
      if Accepts(l, e) { AddAgrees(l, e); }
      RollupEqualsLog(IngestSpec(l, rs[0].event, rs[0].now, rs[0].net).0, rs[1..]);
    }
  }

  /** The range of a Postgres INTEGER. */
  predicate InInteger(n: int) {
    -2_147_483_648 <= n <= 2_147_483_647
  }

  /** What one Ingest does. The event keeps its own time unless that is the first
      instant of the year 1, which is 719162 days before 1970; only then it takes
      the server's. With an amount or a new total out of range neither table
      changes and the reply is an error. Otherwise, if every statement is done the
      reply is nil; and whenever anything changes, the event is in the log and its
      amounts are on the row of its organisation, its own user or the all-zero
      one, and its month. */
  lemma IngestExact(l: Ledger, e: Event, now: Time, net: Stage -> Outcome)
    requires Agrees(l)
    ensures var (t, ok) := IngestSpec(l, e, now, net);
            var at := if e.at.instant == -719_162 * 86_400 then now else e.at;
            var k := Key(e.org, match e.user case User(id) => id case _ => 0, at.month);
            var (u, d) := (Usage(l.log, k), e.amounts);
            var total := Amounts(u.data + d.data, u.minutes + d.minutes, u.sms + d.sms, u.cents + d.cents);
            var fits := && InInteger(d.data) && InInteger(d.minutes) && InInteger(d.sms) && InInteger(d.cents)
                        && InInteger(total.data) && InInteger(total.minutes) && InInteger(total.sms) && InInteger(total.cents);
            && (!fits ==> t == l && !ok)
            && (t == l || t == Ledger(l.log + [Event(e.org, e.user, e.source, e.resource, d, at)], l.rollups[k := total]))
            && (ok ==> t != l)
            && (fits && net(Begin).Done? && net(InsertEvent).Done? && net(UpsertRollup).Done? && net(Commit).Done? ==> ok)
            && (net(Begin).Failed? || net(InsertEvent).Failed? || net(UpsertRollup).Failed? || net(Commit) == Failed(false) ==> t == l && !ok)
  {
    var k := KeyOf(Stamped(e, now));
    assert l.Total(k) == Usage(l.log, k);
  }

  /** The stored event row keeps the instant of its time and not the offset. */
  datatype Stored = Stored(org: Uuid, user: Option<Uuid>, source: string, resource: Option<string>, amounts: Amounts, instant: int)

  function RowOf(e: Event): Stored {
    Stored(e.org, if e.user.User? then Some(e.user.id) else None, e.source, if e.resource == Some("") then None else e.resource,
           e.amounts, e.at.instant)
  }

  /** The table tells two events apart exactly when they differ in more than an
      empty id for a missing one and the offset of their times. */
  lemma SameRowIff(e: Event, f: Event)
    ensures RowOf(e) == RowOf(f) <==>
            && e.org == f.org && e.source == f.source && e.amounts == f.amounts && e.at.instant == f.at.instant
            && (e.user == f.user || (e.user in {Absent, Empty} && f.user in {Absent, Empty}))
            && (e.resource == f.resource || (e.resource in {None, Some("")} && f.resource in {None, Some("")}))
  {
  }

  /** So the rollups are not a function of the events table. Of two events that
      are stored as the same row, each added to the same ledger, the rollups agree
      exactly when the months do, or when the amounts are zero and both months
      have a rollup row already. */
  lemma RowsLoseTheMonth(l: Ledger, e: Event, f: Event)
    requires RowOf(e) == RowOf(f)
    ensures Accepts(EMPTY, e) <==> Accepts(EMPTY, f)
    ensures Add(l, e).rollups == Add(l, f).rollups <==>
            e.at.month == f.at.month || (e.amounts == NOTHING && KeyOf(e) in l.rollups && KeyOf(f) in l.rollups)
  {
    TwoUpdates(l, KeyOf(e), KeyOf(f), e.amounts);
  }

  lemma TwoUpdates(l: Ledger, k: Key, q: Key, d: Amounts)
    ensures l.rollups[k := l.Total(k).Plus(d)] == l.rollups[q := l.Total(q).Plus(d)] <==>
            k == q || (d == NOTHING && k in l.rollups && q in l.rollups)
  {
    if k != q {
      var a, b := l.rollups[k := l.Total(k).Plus(d)], l.rollups[q := l.Total(q).Plus(d)];
      if k in l.rollups && q in l.rollups {
        assert a[k] == l.rollups[k].Plus(d) && b[k] == l.rollups[k];
        if d == NOTHING { assert a == l.rollups && b == l.rollups; }
      } else {
        assert k in a && q in b;
        assert k in l.rollups <==> k in b;
        assert q in l.rollups <==> q in a;
      }
    }
  }

  // ------------------------------------------------------ order independence

  predicate AllAccepted(l: Ledger, es: seq<Event>)
    decreases |es|
  {
    es == [] || (Accepts(l, es[0]) && AllAccepted(Add(l, es[0]), es[1..]))
  }

  function AddAll(l: Ledger, es: seq<Event>): Ledger
    decreases |es|
  {
    if es == [] then l else AddAll(Add(l, es[0]), es[1..])
  }

  /** What an event adds to the total of k. */
  function AmountsUnder(e: Event, k: Key): Amounts {
    if Charged(e, k) then e.amounts else NOTHING
  }

  lemma SumOne(e: Event, b: seq<Event>, k: Key)
    ensures Usage([e] + b, k) == Usage(b, k).Plus(AmountsUnder(e, k))
  {
    SumConcat([e], b, k);
    assert [e][..0] == [];
    assert Usage([e], k) == AmountsUnder(e, k);
  }

  lemma SumFirst(es: seq<Event>, k: Key)
    requires es != []
    ensures Usage(es, k) == Usage(es[1..], k).Plus(AmountsUnder(es[0], k))
  {
    assert es == [es[0]] + es[1..];
    SumOne(es[0], es[1..], k);
  }

  lemma {:induction false} SumConcat(a: seq<Event>, b: seq<Event>, k: Key)
    ensures Usage(a + b, k) == Usage(a, k).Plus(Usage(b, k))
    decreases |b|
  {
    if b == [] {
      assert a + b == a;
    } else {
      assert (a + b)[..|a + b|-1] == a + b[..|b|-1];
      SumConcat(a, b[..|b|-1], k);
    }
  }

  lemma AddTotal(l: Ledger, e: Event, k: Key)
    ensures Add(l, e).Total(k) == l.Total(k).Plus(AmountsUnder(e, k))
    ensures k in Add(l, e).rollups <==> k in l.rollups || KeyOf(e) == k
  {
  }

  lemma {:induction false} AddAllTotals(l: Ledger, es: seq<Event>, k: Key)
    ensures AddAll(l, es).Total(k) == l.Total(k).Plus(Usage(es, k))
    decreases |es|
  {
    if es != [] {
      AddTotal(l, es[0], k);
      AddAllTotals(Add(l, es[0]), es[1..], k);
      SumFirst(es, k);
    }
  }

  lemma {:induction false} AddAllKeys(l: Ledger, es: seq<Event>, k: Key)
    ensures k in AddAll(l, es).rollups <==> k in l.rollups || exists e :: e in es && KeyOf(e) == k
    decreases |es|
  {
    if es != [] {
      AddTotal(l, es[0], k);
      AddAllKeys(Add(l, es[0]), es[1..], k);
      assert forall e :: e in es <==> e == es[0] || e in es[1..];
    }
  }

  /** Every rollup row fits its INTEGER columns. */
  ghost predicate Bounded(l: Ledger) {
    forall k :: k in l.rollups ==> l.rollups[k].Fits()
  }

  lemma {:induction false} AcceptedFits(l: Ledger, es: seq<Event>)
    requires Bounded(l) && AllAccepted(l, es)
    ensures Bounded(AddAll(l, es)) && forall e :: e in es ==> e.amounts.Fits()
    decreases |es|
  {
    if es != [] {
      AcceptedFits(Add(l, es[0]), es[1..]);
      assert forall e :: e in es <==> e == es[0] || e in es[1..];
    }
  }

  lemma {:induction false} AcceptedStart(l: Ledger, a: seq<Event>, b: seq<Event>)
    requires AllAccepted(l, a + b)
    ensures AllAccepted(l, a)
    decreases |a|
  {
    if a != [] {
      assert (a + b)[0] == a[0] && (a + b)[1..] == a[1..] + b;
      AcceptedStart(Add(l, a[0]), a[1..], b);
    }
  }

  /** After the accepted start a of a history each total fits. */
  lemma StartFits(l: Ledger, a: seq<Event>, b: seq<Event>, k: Key)
    requires Bounded(l) && AllAccepted(l, a + b)
    ensures l.Total(k).Plus(Usage(a, k)).Fits()
  {
    AcceptedStart(l, a, b);
    AcceptedFits(l, a);
    AddAllTotals(l, a, k);
    assert AddAll(l, a).Total(k).Fits();
  }

  /** Each event fits, and so does each total after each event. */
  ghost predicate RunningFits(l: Ledger, es: seq<Event>) {
    && (forall e :: e in es ==> e.amounts.Fits())
    && (forall n: nat, k: Key :: n <= |es| ==> l.Total(k).Plus(Usage(es[..n], k)).Fits())
  }

  /** The total after n + 1 events is that of the last n on top of the first. */
  lemma RunningTotal(l: Ledger, es: seq<Event>, n: nat, k: Key)
    requires n < |es|
    ensures Add(l, es[0]).Total(k).Plus(Usage(es[1..][..n], k)) == l.Total(k).Plus(Usage(es[..n+1], k))
  {
    assert es[..n+1] == [es[0]] + es[1..][..n];
    SumOne(es[0], es[1..][..n], k);
    AddTotal(l, es[0], k);
    PlusSwap(l.Total(k), AmountsUnder(es[0], k), Usage(es[1..][..n], k));
  }

  lemma PlusSwap(a: Amounts, b: Amounts, c: Amounts)
    ensures a.Plus(b).Plus(c) == a.Plus(c.Plus(b))
  {
  }

  lemma FirstAccepted(l: Ledger, es: seq<Event>)
    requires es != [] && es[0].amounts.Fits() && l.Total(KeyOf(es[0])).Plus(Usage(es[..1], KeyOf(es[0]))).Fits()
    ensures Accepts(l, es[0])
  {
    assert es[..1] == [es[0]] + [];
    SumOne(es[0], [], KeyOf(es[0]));
  }

  lemma RunningFitsStep(l: Ledger, es: seq<Event>)
    requires es != [] && RunningFits(l, es)
    ensures Accepts(l, es[0]) && RunningFits(Add(l, es[0]), es[1..])
  {
    assert es[0] in es && forall e :: e in es[1..] ==> e in es;
    FirstAccepted(l, es);
    forall n: nat, k: Key | n <= |es[1..]| ensures Add(l, es[0]).Total(k).Plus(Usage(es[1..][..n], k)).Fits() {
      RunningTotal(l, es, n, k);
    }
  }

  lemma {:induction false} RunningAccepted(l: Ledger, es: seq<Event>)
    requires RunningFits(l, es)
    ensures AllAccepted(l, es)
    decreases |es|
  {
    if es != [] {
      RunningFitsStep(l, es);
      RunningAccepted(Add(l, es[0]), es[1..]);
    }
  }

  /** A history, whatever the signs in it, is accepted in full iff each event and
      each running total fits. */
  lemma AcceptedIff(l: Ledger, es: seq<Event>)
    requires Bounded(l)
    ensures AllAccepted(l, es) <==> RunningFits(l, es)
  {
    if AllAccepted(l, es) {
      AcceptedFits(l, es);
      forall n: nat, k: Key | n <= |es| ensures l.Total(k).Plus(Usage(es[..n], k)).Fits() {
        assert es == es[..n] + es[n..];
        StartFits(l, es[..n], es[n..], k);
      }
    } else if RunningFits(l, es) {
      RunningAccepted(l, es);
    }
  }

  // ------------------------------------------------------ acceptance in any order

  lemma PlusMiddle(a: Amounts, b: Amounts, c: Amounts)
    ensures a.Plus(b.Plus(c)) == a.Plus(b).Plus(c)
  {
  }

  lemma SumRemove(es: seq<Event>, i: nat, k: Key)
    requires i < |es|
    ensures Usage(es, k) == Usage(es[..i] + es[i+1..], k).Plus(AmountsUnder(es[i], k))
  {
    var a, e, b := es[..i], es[i], es[i+1..];
    Sequences.SplitAt(es, i);
    Sequences.Assoc(a, [e], b);
    SumConcat(a, [e] + b, k);
    SumOne(e, b, k);
    SumConcat(a, b, k);
    PlusMiddle(Usage(a, k), Usage(b, k), AmountsUnder(e, k));
  }

  lemma {:induction false} SumPermutation(es: seq<Event>, fs: seq<Event>, k: Key)
    requires multiset(es) == multiset(fs)
    ensures Usage(es, k) == Usage(fs, k)
    decreases |es|
  {
    if es == [] {
      assert |multiset(fs)| == 0;
    } else {
      var i := Sequences.PermutationStep(es, fs);
      SumPermutation(es[1..], fs[..i] + fs[i+1..], k);
      SumFirst(es, k);
      SumRemove(fs, i, k);
    }
  }

  /** What an event adds to field f of the total of k, as far as it moves it up
      (or down). */
  function Share(e: Event, k: Key, f: Field, up: bool): int {
    if Charged(e, k) then Clip(e.amounts.Get(f), up) else 0
  }

  function PartSum(es: seq<Event>, k: Key, f: Field, up: bool): int {
    if es == [] then 0 else PartSum(es[..|es|-1], k, f, up) + Share(es[|es|-1], k, f, up)
  }

  lemma {:induction false} PartConcat(a: seq<Event>, b: seq<Event>, k: Key, f: Field, up: bool)
    ensures PartSum(a + b, k, f, up) == PartSum(a, k, f, up) + PartSum(b, k, f, up)
    decreases |b|
  {
    if b == [] {
      assert a + b == a;
    } else {
      assert (a + b)[..|a + b|-1] == a + b[..|b|-1];
      PartConcat(a, b[..|b|-1], k, f, up);
    }
  }

  lemma PartOne(e: Event, b: seq<Event>, k: Key, f: Field, up: bool)
    ensures PartSum([e] + b, k, f, up) == Share(e, k, f, up) + PartSum(b, k, f, up)
  {
    PartConcat([e], b, k, f, up);
    assert [e][..0] == [];
    assert PartSum([e], k, f, up) == PartSum([], k, f, up) + Share(e, k, f, up);
  }

  lemma PartFirst(es: seq<Event>, k: Key, f: Field, up: bool)
    requires es != []
    ensures PartSum(es, k, f, up) == Share(es[0], k, f, up) + PartSum(es[1..], k, f, up)
  {
    assert es == [es[0]] + es[1..];
    PartOne(es[0], es[1..], k, f, up);
  }

  lemma PartRemove(es: seq<Event>, i: nat, k: Key, f: Field, up: bool)
    requires i < |es|
    ensures PartSum(es, k, f, up) == PartSum(es[..i] + es[i+1..], k, f, up) + Share(es[i], k, f, up)
  {
    var a, e, b := es[..i], es[i], es[i+1..];
    Sequences.SplitAt(es, i);
    Sequences.Assoc(a, [e], b);
    PartConcat(a, [e] + b, k, f, up);
    PartOne(e, b, k, f, up);
    PartConcat(a, b, k, f, up);
  }

  lemma {:induction false} PartPermutation(es: seq<Event>, fs: seq<Event>, k: Key, f: Field, up: bool)
    requires multiset(es) == multiset(fs)
    ensures PartSum(es, k, f, up) == PartSum(fs, k, f, up)
    decreases |es|
  {
    if es == [] {
      assert |multiset(fs)| == 0;
    } else {
      var i := Sequences.PermutationStep(es, fs);
      PartPermutation(es[1..], fs[..i] + fs[i+1..], k, f, up);
      PartFirst(es, k, f, up);
      PartRemove(fs, i, k, f, up);
    }
  }

  /** Positive parts add up to no less than nothing, negative parts to no more. */
  lemma {:induction false} PartSigned(es: seq<Event>, k: Key, f: Field)
    ensures PartSum(es, k, f, false) <= 0 <= PartSum(es, k, f, true)
  {
    if es != [] {
      PartSigned(es[..|es|-1], k, f);
    }
  }

  /** Each event fits, and so does each field of each total with all the positive
      amounts and none of the negative ones, and with all the negative and none of
      the positive ones. */
  ghost predicate InRange(l: Ledger, es: seq<Event>) {
    && (forall e :: e in es ==> e.amounts.Fits())
    && (forall k: Key, f: Field, up: bool :: FitsInt(l.Total(k).Get(f) + PartSum(es, k, f, up)))
  }

  /** Where a total can be once the first amount v is in. */
  lemma Between(t: int, v: int, high: int, low: int)
    requires low <= 0 <= high && FitsInt(t + Clip(v, true) + high) && FitsInt(t + Clip(v, false) + low)
    ensures FitsInt(t + v) && FitsInt(t + v + high) && FitsInt(t + v + low)
  {
  }

  lemma GetPlus(a: Amounts, b: Amounts, f: Field)
    ensures a.Plus(b).Get(f) == a.Get(f) + b.Get(f)
  {
  }

  lemma AddGet(l: Ledger, e: Event, k: Key, f: Field)
    ensures Add(l, e).Total(k).Get(f) == l.Total(k).Get(f) + AmountsUnder(e, k).Get(f)
  {
    AddTotal(l, e, k);
    GetPlus(l.Total(k), AmountsUnder(e, k), f);
  }

  lemma FirstShare(es: seq<Event>, k: Key, f: Field, up: bool)
    requires es != []
    ensures PartSum(es, k, f, up) == Clip(AmountsUnder(es[0], k).Get(f), up) + PartSum(es[1..], k, f, up)
  {
    PartFirst(es, k, f, up);
  }

  lemma InRangeField(l: Ledger, es: seq<Event>, k: Key, f: Field)
    requires es != []
    requires FitsInt(l.Total(k).Get(f) + PartSum(es, k, f, true)) && FitsInt(l.Total(k).Get(f) + PartSum(es, k, f, false))
    ensures FitsInt(l.Total(k).Get(f) + AmountsUnder(es[0], k).Get(f))
    ensures FitsInt(Add(l, es[0]).Total(k).Get(f) + PartSum(es[1..], k, f, true))
    ensures FitsInt(Add(l, es[0]).Total(k).Get(f) + PartSum(es[1..], k, f, false))
  {
    FirstShare(es, k, f, true);
    FirstShare(es, k, f, false);
    PartSigned(es[1..], k, f);
    AddGet(l, es[0], k, f);
    Between(l.Total(k).Get(f), AmountsUnder(es[0], k).Get(f), PartSum(es[1..], k, f, true), PartSum(es[1..], k, f, false));
  }

  lemma InRangeStep(l: Ledger, es: seq<Event>)
    requires es != [] && InRange(l, es)
    ensures Accepts(l, es[0]) && InRange(Add(l, es[0]), es[1..])
  {
    var e, rest := es[0], es[1..];
    assert e in es;
    forall k: Key, f: Field
      ensures FitsInt(l.Total(k).Get(f) + AmountsUnder(e, k).Get(f))
      ensures forall up :: FitsInt(Add(l, e).Total(k).Get(f) + PartSum(rest, k, f, up))
    {
      assert FitsInt(l.Total(k).Get(f) + PartSum(es, k, f, true)) && FitsInt(l.Total(k).Get(f) + PartSum(es, k, f, false));
      InRangeField(l, es, k, f);
      forall up: bool ensures FitsInt(Add(l, e).Total(k).Get(f) + PartSum(rest, k, f, up)) {
        if up {} else {}
      }
    }
    forall f: Field ensures FitsInt(l.Total(KeyOf(e)).Plus(e.amounts).Get(f)) {
      GetPlus(l.Total(KeyOf(e)), e.amounts, f);
      assert FitsInt(l.Total(KeyOf(e)).Get(f) + AmountsUnder(e, KeyOf(e)).Get(f));
    }
    FitsGet(l.Total(KeyOf(e)).Plus(e.amounts));
    forall x | x in rest ensures x.amounts.Fits() { assert x in es; }
  }

  lemma {:induction false} InRangeAccepted(l: Ledger, es: seq<Event>)
    requires InRange(l, es)
    ensures AllAccepted(l, es)
    decreases |es|
  {
    if es != [] {
      InRangeStep(l, es);
      InRangeAccepted(Add(l, es[0]), es[1..]);
    }
  }

  predicate Chosen(e: Event, k: Key, f: Field, up: bool) {
    Charged(e, k) && Clip(e.amounts.Get(f), up) != 0
  }

  /** The events that move field f of k up (down), and the others. */
  function Movers(es: seq<Event>, k: Key, f: Field, up: bool, moves: bool): seq<Event> {
    if es == [] then []
    else
      var e, rest := es[|es|-1], Movers(es[..|es|-1], k, f, up, moves);
      if Chosen(e, k, f, up) == moves then rest + [e] else rest
  }

  lemma {:induction false} MoversSplit(es: seq<Event>, k: Key, f: Field, up: bool)
    ensures multiset(Movers(es, k, f, up, true) + Movers(es, k, f, up, false)) == multiset(es)
  {
    if es != [] {
      MoversSplit(es[..|es|-1], k, f, up);
      assert es == es[..|es|-1] + [es[|es|-1]];
    }
  }

  lemma {:induction false} MoversSum(es: seq<Event>, k: Key, f: Field, up: bool)
    ensures Usage(Movers(es, k, f, up, true), k).Get(f) == PartSum(es, k, f, up)
  {
    if es != [] {
      var e, init := es[|es|-1], es[..|es|-1];
      MoversSum(init, k, f, up);
      SumLast(Movers(init, k, f, up, true), e, k, f);
    }
  }

  lemma SumLast(es: seq<Event>, e: Event, k: Key, f: Field)
    ensures Usage(es + [e], k).Get(f) == Usage(es, k).Get(f) + if Charged(e, k) then e.amounts.Get(f) else 0
  {
    assert (es + [e])[..|es|] == es;
    GetPlus(Usage(es, k), e.amounts, f);
  }

  ghost predicate AllOrders(l: Ledger, es: seq<Event>) {
    forall fs :: multiset(fs) == multiset(es) ==> AllAccepted(l, fs)
  }

  lemma AllOrdersAt(l: Ledger, es: seq<Event>, fs: seq<Event>)
    requires AllOrders(l, es) && multiset(fs) == multiset(es)
    ensures AllAccepted(l, fs)
  {
  }

  lemma StartField(l: Ledger, a: seq<Event>, b: seq<Event>, k: Key, f: Field)
    requires Bounded(l) && AllAccepted(l, a + b)
    ensures FitsInt(l.Total(k).Get(f) + Usage(a, k).Get(f))
  {
    StartFits(l, a, b, k);
    GetFits(l.Total(k).Plus(Usage(a, k)), f);
    GetPlus(l.Total(k), Usage(a, k), f);
  }

  /** If every order is accepted, the one with the movers first is. */
  lemma MoversFit(l: Ledger, es: seq<Event>, k: Key, f: Field, up: bool)
    requires Bounded(l) && AllOrders(l, es)
    ensures FitsInt(l.Total(k).Get(f) + PartSum(es, k, f, up))
  {
    var a, b := Movers(es, k, f, up, true), Movers(es, k, f, up, false);
    MoversSplit(es, k, f, up);
    AllOrdersAt(l, es, a + b);
    StartField(l, a, b, k, f);
    MoversSum(es, k, f, up);
  }

  lemma AllOrdersInRange(l: Ledger, es: seq<Event>)
    requires Bounded(l) && AllOrders(l, es)
    ensures InRange(l, es)
  {
    AcceptedFits(l, es);
    forall k: Key, f: Field, up: bool ensures FitsInt(l.Total(k).Get(f) + PartSum(es, k, f, up)) { MoversFit(l, es, k, f, up); }
  }

  lemma GetFits(a: Amounts, f: Field)
    requires a.Fits()
    ensures FitsInt(a.Get(f))
  {
  }

  lemma FitsGet(a: Amounts)
    requires forall f: Field :: FitsInt(a.Get(f))
    ensures a.Fits()
  {
    assert FitsInt(a.Get(Data)) && FitsInt(a.Get(Minutes)) && FitsInt(a.Get(Sms)) && FitsInt(a.Get(Cents));
  }

  /** Exactly when order cannot matter: events, whatever their signs, are accepted
      in full in every order iff each fits and no total leaves the range even with
      all the positive amounts before the negative ones or all the negative ones
      before the positive. */
  lemma OrderExact(l: Ledger, es: seq<Event>)
    requires Bounded(l)
    ensures AllOrders(l, es) <==> InRange(l, es)
  {
    if InRange(l, es) {
      forall fs | multiset(fs) == multiset(es) ensures AllAccepted(l, fs) {
        InRangeOrder(l, es, fs);
        InRangeAccepted(l, fs);
      }
    }
    if AllOrders(l, es) {
      AllOrdersInRange(l, es);
    }
  }

  lemma InRangeOrder(l: Ledger, es: seq<Event>, fs: seq<Event>)
    requires InRange(l, es) && multiset(fs) == multiset(es)
    ensures InRange(l, fs)
  {
    forall e | e in fs ensures e.amounts.Fits() { assert e in multiset(fs); assert e in es; }
    forall k: Key, f: Field, up: bool ensures FitsInt(l.Total(k).Get(f) + PartSum(fs, k, f, up)) {
      PartPermutation(es, fs, k, f, up);
      assert FitsInt(l.Total(k).Get(f) + PartSum(es, k, f, up));
    }
  }

  /** Two orders of the same events give the same rollups, whatever the signs. */
  lemma OrderIndependent(l: Ledger, es: seq<Event>, fs: seq<Event>)
    requires multiset(es) == multiset(fs)
    ensures AddAll(l, es).rollups == AddAll(l, fs).rollups
  {
    forall e ensures e in es <==> e in fs { assert e in es <==> e in multiset(es); assert e in fs <==> e in multiset(fs); }
    forall k: Key ensures Usage(es, k) == Usage(fs, k) { SumPermutation(es, fs, k); }
    SameTotals(l, es, fs);
  }

  lemma SameTotals(l: Ledger, es: seq<Event>, fs: seq<Event>)
    requires forall e :: e in es <==> e in fs
    requires forall k: Key :: Usage(es, k) == Usage(fs, k)
    ensures AddAll(l, es).rollups == AddAll(l, fs).rollups
  {
    var a, b := AddAll(l, es), AddAll(l, fs);
    forall k: Key ensures (k in a.rollups <==> k in b.rollups) && (k in a.rollups ==> a.rollups[k] == b.rollups[k]) {
      AddAllKeys(l, es, k);
      AddAllKeys(l, fs, k);
      AddAllTotals(l, es, k);
      AddAllTotals(l, fs, k);
    }
    assert a.rollups.Keys == b.rollups.Keys;
  }

  /** Non-negative events are their own positive parts. */
  lemma {:induction false} NonNegativeParts(es: seq<Event>, k: Key, f: Field)
    requires forall e :: e in es ==> e.amounts.NonNegative()
    ensures PartSum(es, k, f, true) == Usage(es, k).Get(f) && PartSum(es, k, f, false) == 0
  {
    if es != [] {
      var e, init := es[|es|-1], es[..|es|-1];
      assert e in es && es == init + [e];
      NonNegativeParts(init, k, f);
      SumLast(init, e, k, f);
      assert e.amounts.Get(f) >= 0;
    }
  }

  lemma TotalFits(l: Ledger, k: Key, f: Field)
    requires Bounded(l)
    ensures FitsInt(l.Total(k).Get(f))
  {
    assert l.Total(k).Fits();
    GetFits(l.Total(k), f);
  }

  lemma AddAllGet(l: Ledger, es: seq<Event>, k: Key, f: Field)
    ensures AddAll(l, es).Total(k).Get(f) == l.Total(k).Get(f) + Usage(es, k).Get(f)
  {
    AddAllTotals(l, es, k);
    GetPlus(l.Total(k), Usage(es, k), f);
  }

  lemma NonNegativeFits(l: Ledger, es: seq<Event>, k: Key, f: Field)
    requires Bounded(l) && AllAccepted(l, es) && forall e :: e in es ==> e.amounts.NonNegative()
    ensures forall up :: FitsInt(l.Total(k).Get(f) + PartSum(es, k, f, up))
  {
    AcceptedFits(l, es);
    NonNegativeParts(es, k, f);
    AddAllGet(l, es, k, f);
    TotalFits(l, k, f);
    TotalFits(AddAll(l, es), k, f);
    forall up: bool ensures FitsInt(l.Total(k).Get(f) + PartSum(es, k, f, up)) {
      if up {} else {}
    }
  }

  /** Without negative amounts one order decides: events fully accepted in one
      order are fully accepted in every order, and give the same rollups. */
  lemma NonNegativeOrder(l: Ledger, es: seq<Event>, fs: seq<Event>)
    requires Bounded(l) && multiset(es) == multiset(fs)
    requires (forall e :: e in es ==> e.amounts.NonNegative()) && AllAccepted(l, es)
    ensures AllAccepted(l, fs) && AddAll(l, es).rollups == AddAll(l, fs).rollups
  {
    AcceptedFits(l, es);
    forall k: Key, f: Field, up: bool ensures FitsInt(l.Total(k).Get(f) + PartSum(es, k, f, up)) { NonNegativeFits(l, es, k, f); }
    OrderExact(l, es);
    OrderIndependent(l, es, fs);
  }

  lemma AcceptedThree(l: Ledger, x: Event, y: Event, z: Event)
    ensures AllAccepted(l, [x, y, z]) <==> Accepts(l, x) && Accepts(Add(l, x), y) && Accepts(Add(Add(l, x), y), z)
  {
    assert [x, y, z][1..] == [y, z] && [y, z][1..] == [z] && [z][1..] == [];
    assert AllAccepted(Add(Add(l, x), y), [z]) <==> Accepts(Add(Add(l, x), y), z);
  }

  function With(e: Event, data: int): Event {
    e.(amounts := Amounts(data, 0, 0, 0))
  }

  lemma AddData(l: Ledger, e: Event, total: int, data: int)
    requires l.Total(KeyOf(e)) == Amounts(total, 0, 0, 0)
    ensures Add(l, With(e, data)).Total(KeyOf(e)) == Amounts(total + data, 0, 0, 0)
    ensures Accepts(l, With(e, data)) <==> FitsInt(data) && FitsInt(total + data)
  {
    assert KeyOf(With(e, data)) == KeyOf(e);
  }

  lemma ThreeAccepted(e: Event, x: int, y: int, z: int)
    ensures AllAccepted(EMPTY, [With(e, x), With(e, y), With(e, z)]) <==>
            FitsInt(x) && FitsInt(y) && FitsInt(x + y) && FitsInt(z) && FitsInt(x + y + z)
  {
    AcceptedThree(EMPTY, With(e, x), With(e, y), With(e, z));
    AddData(EMPTY, e, 0, x);
    AddData(Add(EMPTY, With(e, x)), e, x, y);
    AddData(Add(Add(EMPTY, With(e, x)), With(e, y)), e, x + y, z);
  }

  /** With a negative event the order can matter: INT_MAX, 1, -1 is refused where
      INT_MAX, -1, 1 is accepted. */
  lemma NegativeOrderMatters(e: Event)
    ensures var big, one, minus := With(e, 0x7FFF_FFFF), With(e, 1), With(e, -1);
            && multiset([big, one, minus]) == multiset([big, minus, one])
            && !AllAccepted(EMPTY, [big, one, minus]) && AllAccepted(EMPTY, [big, minus, one])
            && !InRange(EMPTY, [big, one, minus])
  {
    ThreeAccepted(e, 0x7FFF_FFFF, 1, -1);
    ThreeAccepted(e, 0x7FFF_FFFF, -1, 1);
    Sequences.SwapLast(With(e, 0x7FFF_FFFF), With(e, 1), With(e, -1));
    InRangeOrNot(EMPTY, [With(e, 0x7FFF_FFFF), With(e, 1), With(e, -1)]);
  }

  lemma InRangeOrNot(l: Ledger, es: seq<Event>)
    requires !AllAccepted(l, es)
    ensures !InRange(l, es)
  {
    if InRange(l, es) {
      InRangeAccepted(l, es);
    }
  }
}
