/** Numbering of SIMs when Creates that leave the IMSI to the service overlap. */
module SimNumbers {
  import opened Common
  import opened SimLifecycle
  import opened SimService

  /** Every Create leaves the IMSI to the service; other requests are free. */
  predicate AutoRun(acts: seq<Action>) {
    forall a :: a in acts && a.Begin? ==> Auto(a.request)
  }

  /** No row id is skipped. */
  ghost predicate Gapless(w: World) {
    forall n: nat :: n < w.supply ==> n in w.sims
  }

  /** The IMSI of a number the service can have drawn by now. */
  ghost predicate Drawn(w: World, imsiOf: nat -> string, imsi: string) {
    exists m: nat :: 1 <= m <= w.supply + 1 && imsi == imsiOf(m)
  }

  /** imsiOf is the PLMN's IMSI printer, of which only this matters here. */
  ghost predicate Prints(cfg: Config, imsiOf: nat -> string) {
    Injective(imsiOf) && forall n :: imsiOf(n) == Imsi(cfg, n)
  }

  ghost predicate Ordered(cfg: Config, w: World, imsiOf: nat -> string) {
    Numbered(cfg, w, imsiOf) && Gapless(w)
  }

  /** MSIN m is taken exactly when there are m rows. */
  lemma TakenIff(cfg: Config, w: World, imsiOf: nat -> string, m: nat)
    requires Ordered(cfg, w, imsiOf) && Injective(imsiOf) && m >= 1
    ensures Taken(w, imsiOf(m)) <==> m <= w.supply
  {
    if m <= w.supply {
      assert NumberedRow(cfg, w.supply, imsiOf, m - 1, w.sims[m - 1]);
    }
    if id :| id in w.sims && w.sims[id].imsi == imsiOf(m) {
      assert NumberedRow(cfg, w.supply, imsiOf, id, w.sims[id]);
      assert imsiOf(id + 1) == imsiOf(m);
    }
  }

  lemma FreshOrdered(cfg: Config, w: World, row: Sim, imsiOf: nat -> string)
    requires Ordered(cfg, w, imsiOf)
    requires row.id == w.supply && row.mcc == cfg.mcc && row.mnc == cfg.mnc && row.imsi == imsiOf(w.supply + 1)
    ensures Ordered(cfg, w.(sims := w.sims[row.id := row], supply := w.supply + 1), imsiOf)
  {
    InsertNumbered(cfg, w, row, imsiOf);
  }

  lemma RowOrdered(cfg: Config, w: World, row: Sim, imsiOf: nat -> string)
    requires Ordered(cfg, w, imsiOf) && Injective(imsiOf) && Drawn(w, imsiOf, row.imsi)
    requires row.id == w.supply && row.mcc == cfg.mcc && row.mnc == cfg.mnc
    ensures Ordered(cfg, Exec(w, InsertSim(row)), imsiOf) && w.supply <= Exec(w, InsertSim(row)).supply
  {
    var m: nat :| 1 <= m <= w.supply + 1 && row.imsi == imsiOf(m);
    TakenIff(cfg, w, imsiOf, m);
    if Taken(w, row.imsi) {
      assert Exec(w, InsertSim(row)) == w;
    } else {
      FreshOrdered(cfg, w, row, imsiOf);
    }
  }

  lemma EffectOrdered(cfg: Config, w: World, c: Call, o: Outcome, imsiOf: nat -> string)
    requires Ordered(cfg, w, imsiOf) && Injective(imsiOf) && (c.Insert? ==> Drawn(w, imsiOf, c.imsi))
    ensures var v := Effect(cfg, w, c, o); Ordered(cfg, v, imsiOf) && w.supply <= v.supply
  {
    if c.Insert? {
      RowOrdered(cfg, w, NewRow(cfg, c.org, c.card, c.imsi, w.supply, w.now), imsiOf);
    } else {
      CardsStay(cfg, w, c, o);
      SameCardsNumbered(cfg, w, Effect(cfg, w, c, o), imsiOf);
    }
  }

  lemma DrawnLater(w: World, v: World, imsiOf: nat -> string, imsi: string)
    requires Drawn(w, imsiOf, imsi) && w.supply <= v.supply
    ensures Drawn(v, imsiOf, imsi)
  {
    var m: nat :| 1 <= m <= w.supply + 1 && imsi == imsiOf(m);
    assert m <= v.supply + 1;
  }

  /** The only way a call comes to insert is by counting the rows. */
  lemma OnlyCountingInserts(cfg: Config, w: World, c: Call, o: Outcome)
    ensures var n := Then(cfg, w, c, o); n.Continue? && n.call.Insert? ==> n.call.imsi == Imsi(cfg, CountPLMN(w, cfg.mcc, cfg.mnc) + 1)
  {
  }

  lemma NextDrawn(cfg: Config, w: World, c: Call, o: Outcome, imsiOf: nat -> string)
    requires Numbered(cfg, w, imsiOf) && Prints(cfg, imsiOf)
    ensures var n := Then(cfg, w, c, o); n.Continue? && n.call.Insert? ==> Drawn(w, imsiOf, n.call.imsi)
  {
    OnlyCountingInserts(cfg, w, c, o);
    NextIsFree(cfg, w, imsiOf);
    CountDrawn(cfg, w, imsiOf);
  }

  lemma CountDrawn(cfg: Config, w: World, imsiOf: nat -> string)
    requires Prints(cfg, imsiOf)
    ensures Drawn(w, imsiOf, Imsi(cfg, w.supply + 1))
  {
    assert imsiOf(w.supply + 1) == Imsi(cfg, w.supply + 1);
  }

  /** The table is in order, and every call about to insert has drawn its IMSI. */
  ghost predicate AllDrawn(cfg: Config, s: Sys, imsiOf: nat -> string) {
    && Ordered(cfg, s.world, imsiOf)
    && (forall i :: i in s.calls && s.calls[i].Insert? ==> Drawn(s.world, imsiOf, s.calls[i].imsi))
  }

  lemma GoDrawn(cfg: Config, s: Sys, a: Action, imsiOf: nat -> string)
    requires AllDrawn(cfg, s, imsiOf) && Prints(cfg, imsiOf) && a.Go? && a.id in s.calls
    ensures AllDrawn(cfg, Apply(cfg, s, a), imsiOf)
  {
    var c, b, t := s.calls[a.id], Elapse(s.world, a.delay), Apply(cfg, s, a);
    assert Ordered(cfg, b, imsiOf);
    if c.Insert? { DrawnLater(s.world, b, imsiOf, c.imsi); }
    EffectOrdered(cfg, b, c, a.outcome, imsiOf);
    NextDrawn(cfg, b, c, a.outcome, imsiOf);
    forall i | i in t.calls && t.calls[i].Insert? ensures Drawn(t.world, imsiOf, t.calls[i].imsi) {
      DrawnLater(if i == a.id then b else s.world, t.world, imsiOf, t.calls[i].imsi);
    }
  }

  lemma BeginDrawn(cfg: Config, s: Sys, a: Action, imsiOf: nat -> string)
    requires AllDrawn(cfg, s, imsiOf) && !(a.Go? && a.id in s.calls) && (a.Begin? ==> Auto(a.request))
    ensures AllDrawn(cfg, Apply(cfg, s, a), imsiOf)
  {
  }

  lemma {:induction false} RunDrawn(cfg: Config, s: Sys, acts: seq<Action>, imsiOf: nat -> string)
    requires AllDrawn(cfg, s, imsiOf) && Prints(cfg, imsiOf) && AutoRun(acts)
    ensures AllDrawn(cfg, Run(cfg, s, acts), imsiOf)
    decreases |acts|
  {
    if acts != [] {
      var a := acts[0];
      assert a in acts && forall b :: b in acts[1..] ==> b in acts;
      if a.Go? && a.id in s.calls {
        GoDrawn(cfg, s, a, imsiOf);
      } else {
        BeginDrawn(cfg, s, a, imsiOf);
      }
      RunDrawn(cfg, Apply(cfg, s, a), acts[1..], imsiOf);
    }
  }

  /** The number a Create about to insert has drawn, and whether it is refused. */
  lemma DrawnDecides(cfg: Config, w: World, c: Call, imsiOf: nat -> string) returns (m: nat)
    requires Ordered(cfg, w, imsiOf) && Injective(imsiOf) && c.Insert? && Drawn(w, imsiOf, c.imsi)
    ensures 1 <= m <= w.supply + 1 && c.imsi == imsiOf(m)
    ensures Then(cfg, w, c, Done) == Return(Refused(SIMExists)) <==> m <= w.supply
  {
    m :| 1 <= m <= w.supply + 1 && c.imsi == imsiOf(m);
    TakenIff(cfg, w, imsiOf, m);
  }

  /** From an empty table, under any interleaving and any failures, when every
      Create leaves the IMSI to the service: the k-th row inserted has MSIN k. A
      Create about to insert has drawn some MSIN m, at most one above the number
      of rows, and is refused as a duplicate iff there are m rows by now. */
  lemma InterleavedMsins(cfg: Config, s: Sys, acts: seq<Action>, i: nat, imsiOf: nat -> string) returns (m: nat)
    requires s.world.sims == map[] && s.world.supply == 0 && s.calls == map[] && AutoRun(acts)
    requires forall n :: imsiOf(n) == Imsi(cfg, n)
    ensures var w := Run(cfg, s, acts).world;
            && |w.sims.Keys| == w.supply
            && forall id :: id in w.sims ==> id < w.supply && w.sims[id].imsi == imsiOf(id + 1)
    ensures var t := Run(cfg, s, acts);
            i in t.calls && t.calls[i].Insert? ==>
              && 1 <= m <= t.world.supply + 1 && t.calls[i].imsi == imsiOf(m)
              && (Then(cfg, t.world, t.calls[i], Done) == Return(Refused(SIMExists)) <==> m <= t.world.supply)
  {
    assert s.world.sims.Keys == {};
    forall j, k | imsiOf(j) == imsiOf(k) ensures j == k { ImsiPrinter(cfg, j, k); }
    RunDrawn(cfg, s, acts, imsiOf);
    var t := Run(cfg, s, acts);
    forall id | id in t.world.sims ensures id < t.world.supply && t.world.sims[id].imsi == imsiOf(id + 1) {
      assert NumberedRow(cfg, t.world.supply, imsiOf, id, t.world.sims[id]);
    }
    m := 0;
    if i in t.calls && t.calls[i].Insert? {
      m := DrawnDecides(cfg, t.world, t.calls[i], imsiOf);
    }
  }
}
