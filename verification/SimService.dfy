/** The sims repository, the Open5GS client and the SIM service as the code has
    them; and what holds when requests run one after another. */
module SimService {
  import opened Common
  import opened SimLifecycle
  import Text

  datatype Stage = Count | Insertion | Core | Marking | Load | Writing

  function StageOf(c: Call): Stage {
    match c
    case NextMSIN(_, _) => Count
    case Insert(_, _, _) => Insertion
    case Provision(_, _) => Core
    case CoreDelete(_, _, _) => Core
    case CoreUpsert(_, _) => Core
    case Mark(_, _) => Marking
    case Reload(_, _) => Load
    case Lookup(_, _, _) => Load
    case SetStatus(_, _, _) => Writing
  }

  function Remaining(c: Call): nat {
    match c
    case NextMSIN(_, _) => 5
    case Insert(_, _, _) => 4
    case Provision(_, _) => 3
    case Mark(_, _) => 2
    case Reload(_, _) => 1
    case Lookup(_, _, _) => 3
    case CoreDelete(_, _, _) => 2
    case CoreUpsert(_, _) => 2
    case SetStatus(_, _, _) => 1
  }

  /** A call run to its reply with nothing in between. */
  function RunCall(cfg: Config, w: World, c: Call, net: Stage -> Wire): (World, Reply)
    decreases Remaining(c)
  {
    var x := net(StageOf(c));
    var b := Elapse(w, x.delay);
    match Then(cfg, b, c, x.outcome)
    case Return(r) => (Effect(cfg, b, c, x.outcome), r)
    case Continue(d) => RunCall(cfg, Effect(cfg, b, c, x.outcome), d, net)
  }

  function RunRequest(cfg: Config, w: World, r: Request, net: Stage -> Wire): (World, Reply) {
    match Start(cfg, r)
    case Return(reply) => (w, reply)
    case Continue(c) => RunCall(cfg, w, c, net)
  }

  /** An uninterrupted call is a run of the machine. */
  lemma {:induction false} UninterruptedRun(cfg: Config, s: Sys, id: nat, net: Stage -> Wire) returns (acts: seq<Action>)
    requires id in s.calls
    ensures forall a :: a in acts ==> a.Go? && a.id == id
    ensures var t := Run(cfg, s, acts);
            t.world == RunCall(cfg, s.world, s.calls[id], net).0 && t.calls == s.calls - {id}
    decreases Remaining(s.calls[id])
  {
    var x := net(StageOf(s.calls[id]));
    var a := Go(id, x.delay, x.outcome);
    var t := Apply(cfg, s, a);
    if id in t.calls {
      var rest := UninterruptedRun(cfg, t, id, net);
      acts := [a] + rest;
      assert acts[1..] == rest && t.calls - {id} == s.calls - {id};
    } else {
      acts := [a];
      assert Run(cfg, t, []) == t;
    }
  }

  /** A request keeps the table well formed. */
  lemma RequestOk(cfg: Config, w: World, r: Request, net: Stage -> Wire)
    requires TableOk(w)
    ensures TableOk(RunRequest(cfg, w, r, net).0)
  {
    if Start(cfg, r).Continue? {
      RunCallOk(cfg, w, Start(cfg, r).call, net);
    }
  }

  lemma {:induction false} RunCallOk(cfg: Config, w: World, c: Call, net: Stage -> Wire)
    requires TableOk(w) && CallOk(w, c)
    ensures TableOk(RunCall(cfg, w, c, net).0)
    decreases Remaining(c)
  {
    var x := net(StageOf(c));
    var b := Elapse(w, x.delay);
    ExecOk(cfg, b, c);
    NextOk(cfg, b, c, x.outcome);
    if Then(cfg, b, c, x.outcome).Continue? {
      RunCallOk(cfg, Effect(cfg, b, c, x.outcome), Then(cfg, b, c, x.outcome).call, net);
    }
  }

  // ------------------------------------------------------ repeated requests

  /** Both stores without their timestamps. */
  function Timeless(w: World): (map<Id, Sim>, map<string, Subscriber>) {
    (map id | id in w.sims :: w.sims[id].(updatedAt := 0, provisionedAt := None), w.core)
  }

  lemma StatusDone(cfg: Config, w: World, op: Op, org: string, id: Id, net: Stage -> Wire)
    requires id in w.sims && RunCall(cfg, w, SetStatus(op, org, id), net).1 == SimLifecycle.Changed
    ensures var v := RunCall(cfg, w, SetStatus(op, org, id), net).0;
            && v.core == w.core && v.now == w.now + net(Writing).delay
            && v.sims == w.sims[id := w.sims[id].(status := op.Target(), updatedAt := v.now)]
  {
  }

  function CoreCall(op: Op, org: string, sim: Sim): Call {
    if op.Resume? then CoreUpsert(org, sim) else CoreDelete(op, org, sim)
  }

  /** The reads and the core's part of a status change, one step each. */
  lemma LookupSteps(cfg: Config, w: World, op: Op, org: string, id: Id, net: Stage -> Wire)
    ensures var b := Elapse(w, net(Load).delay);
            RunCall(cfg, w, Lookup(op, org, id), net)
            == if net(Load).outcome.Failed? then (b, Refused(Internal))
               else if id !in w.sims || w.sims[id].org != org then (b, Refused(SIMNotFound))
               else RunCall(cfg, b, if cfg.wired then CoreCall(op, org, w.sims[id]) else SetStatus(op, org, id), net)
  {
  }

  lemma CoreSteps(cfg: Config, w: World, op: Op, org: string, sim: Sim, net: Stage -> Wire)
    ensures var b := Elapse(w, net(Core).delay);
            var v := if !net(Core).outcome.Effective() then b
                     else b.(core := if op.Resume? then b.core[sim.imsi := Document(Project(sim))] else b.core - {sim.imsi});
            RunCall(cfg, w, CoreCall(op, org, sim), net)
            == if net(Core).outcome.Failed? then (v, Refused(if op.Resume? then Internal else Deprovisioning))
               else RunCall(cfg, v, SetStatus(op, org, sim.id), net)
  {
  }

  lemma CoreDone(cfg: Config, w: World, op: Op, org: string, sim: Sim, net: Stage -> Wire) returns (v: World)
    requires RunCall(cfg, w, CoreCall(op, org, sim), net).1 == SimLifecycle.Changed
    ensures RunCall(cfg, w, CoreCall(op, org, sim), net) == RunCall(cfg, v, SetStatus(op, org, sim.id), net)
    ensures v.sims == w.sims && w.now <= v.now
    ensures v.core == if op.Resume? then w.core[sim.imsi := Document(Project(sim))] else w.core - {sim.imsi}
  {
    v := Effect(cfg, Elapse(w, net(Core).delay), CoreCall(op, org, sim), net(Core).outcome);
  }

  lemma LookupDone(cfg: Config, w: World, op: Op, org: string, id: Id, net: Stage -> Wire)
    requires RunCall(cfg, w, Lookup(op, org, id), net).1 == SimLifecycle.Changed
    ensures id in w.sims && w.sims[id].org == org
    ensures RunCall(cfg, w, Lookup(op, org, id), net)
         == RunCall(cfg, Elapse(w, net(Load).delay), if cfg.wired then CoreCall(op, org, w.sims[id]) else SetStatus(op, org, id), net)
  {
  }

  /** A Suspend, Resume or Terminate that replied nil. */
  lemma ChangeDone(cfg: Config, w: World, op: Op, org: string, id: Id, net: Stage -> Wire) returns (t: int)
    requires TableOk(w) && RunRequest(cfg, w, Change(op, org, id), net).1 == SimLifecycle.Changed
    ensures var v := RunRequest(cfg, w, Change(op, org, id), net).0;
            && id in w.sims && w.sims[id].org == org && w.now <= t == v.now
            && v.sims == w.sims[id := w.sims[id].(status := if op.Suspend? then Suspended else if op.Terminate? then Terminated else Active,
                                                  updatedAt := t)]
            && v.core == (if !cfg.wired then w.core
                          else if op.Resume? then
                            var s := w.sims[id]; w.core[s.imsi := Subscriber(s.imsi, s.apn, s.ki, s.opc, s.amf, s.sst)]
                          else w.core - {w.sims[id].imsi})
  {
    LookupDone(cfg, w, op, org, id, net);
    assert Complete(w.sims[id]);
    var v := Elapse(w, net(Load).delay);
    if cfg.wired {
      v := CoreDone(cfg, v, op, org, w.sims[id], net);
    }
    StatusDone(cfg, v, op, org, id, net);
    t := v.now + net(Writing).delay;
  }

  /** A status written twice, with the same write to the core. */
  lemma SameTwice(cfg: Config, w: World, v: World, z: World, op: Op, id: Id, t: int, u: int)
    requires id in w.sims
    requires v.sims == w.sims[id := w.sims[id].(status := op.Target(), updatedAt := t)]
    requires z.sims == v.sims[id := v.sims[id].(status := op.Target(), updatedAt := u)]
    ensures Timeless(z).0 == Timeless(v).0 && v.sims[id].imsi == w.sims[id].imsi && Project(v.sims[id]) == Project(w.sims[id])
  {
    assert z.sims.Keys == v.sims.Keys;
  }

  /** Repeating a successful status change changes nothing but timestamps. */
  lemma RepeatChangesNothing(cfg: Config, w: World, op: Op, org: string, id: Id, net: Stage -> Wire, again: Stage -> Wire)
    requires TableOk(w) && RunRequest(cfg, w, Change(op, org, id), net).1 == SimLifecycle.Changed
    requires var v := RunRequest(cfg, w, Change(op, org, id), net).0; RunRequest(cfg, v, Change(op, org, id), again).1 == SimLifecycle.Changed
    ensures var v := RunRequest(cfg, w, Change(op, org, id), net).0;
            Timeless(RunRequest(cfg, v, Change(op, org, id), again).0) == Timeless(v)
  {
    var r := Change(op, org, id);
    var v := RunRequest(cfg, w, r, net).0;
    var t := ChangeDone(cfg, w, op, org, id, net);
    RequestOk(cfg, w, r, net);
    var u := ChangeDone(cfg, v, op, org, id, again);
    var z := RunRequest(cfg, v, r, again).0;
    SameTwice(cfg, w, v, z, op, id, t, u);
    assert z.core == v.core;
    assert Timeless(z) == (Timeless(z).0, z.core);
  }

  /** How a SIM that is not active gets trapped in the core: Resume provisions it
      and then fails to write the status. */
  lemma FailedResumeTrap(cfg: Config, s: Sys, i: nat)
    requires Sound(s) && i in s.calls && s.calls[i].CoreUpsert?
    requires s.calls[i].sim.id in s.world.sims && s.world.sims[s.calls[i].sim.id].status != Active
    ensures var id := s.calls[i].sim.id;
            var t := Run(cfg, s, [Go(i, 0, Done), Go(i, 0, Failed(false))]);
            id in t.world.sims && t.world.sims[id].status == s.world.sims[id].status && t.world.sims[id].imsi in t.world.core
  {
    assert CallOk(s.world, s.calls[i]);
    var a, b := Go(i, 0, Done), Go(i, 0, Failed(false));
    var s1 := Apply(cfg, s, a);
    assert [a, b][1..] == [b] && [b][1..] == [];
    assert Run(cfg, s1, [b]) == Run(cfg, Apply(cfg, s1, b), []);
  }

  // ------------------------------------------------------- sequential MSINs

  /** The MSIN of an IMSI of this PLMN. */
  function MsinOf(cfg: Config, imsi: string): nat
    requires |cfg.mcc + cfg.mnc| <= |imsi| && Text.AllDigits(imsi[|cfg.mcc + cfg.mnc|..])
  {
    Text.Value(imsi[|cfg.mcc + cfg.mnc|..])
  }

  /** The IMSI is the MCC, the MNC and the padded MSIN. The printer is inverted by
      MsinOf, hence injective. With a 3-digit MCC
      and a 2-digit MNC it prints 15 digits exactly for MSINs below 10^10, the
      length clause 2.2 of 3GPP TS 23.003 gives an IMSI. */
  lemma ImsiPrinter(cfg: Config, m: nat, n: nat)
    ensures var p := |cfg.mcc + cfg.mnc|;
            p <= |Imsi(cfg, n)| && Text.AllDigits(Imsi(cfg, n)[p..]) && MsinOf(cfg, Imsi(cfg, n)) == n
    ensures |cfg.mcc| + |cfg.mnc| <= |Imsi(cfg, n)| && Imsi(cfg, n)[..|cfg.mcc|] == cfg.mcc
            && Imsi(cfg, n)[|cfg.mcc|..|cfg.mcc| + |cfg.mnc|] == cfg.mnc
    ensures Imsi(cfg, m) == Imsi(cfg, n) ==> m == n
    ensures |cfg.mcc| == 3 && |cfg.mnc| == 2 ==> (|Imsi(cfg, n)| == 15 <==> n < 10_000_000_000)
    ensures Text.AllDigits(cfg.mcc) && Text.AllDigits(cfg.mnc) ==> Text.AllDigits(Imsi(cfg, n))
  {
    var p := |cfg.mcc + cfg.mnc|;
    Text.PaddedValue(n, 10);
    Text.PaddedValue(m, 10);
    assert Imsi(cfg, n)[p..] == Text.Padded(n, 10) && Imsi(cfg, m)[p..] == Text.Padded(m, 10);
    assert Text.Pow10(10) == 10_000_000_000 by {
      assert Text.Pow10(2) == 100 && Text.Pow10(4) == 10_000 && Text.Pow10(6) == 1_000_000 && Text.Pow10(8) == 100_000_000;
    }
  }

  /** A row of the one PLMN, numbered by its id: row number k has id k - 1. */
  predicate NumberedRow(cfg: Config, supply: int, imsiOf: nat -> string, id: Id, row: Sim) {
    id < supply && row.mcc == cfg.mcc && row.mnc == cfg.mnc && row.imsi == imsiOf(id + 1)
  }

  ghost predicate Numbered(cfg: Config, w: World, imsiOf: nat -> string) {
    && |w.sims.Keys| == w.supply
    && forall id :: id in w.sims ==> NumberedRow(cfg, w.supply, imsiOf, id, w.sims[id])
  }

  ghost predicate Injective(f: nat -> string) {
    forall m, n :: f(m) == f(n) ==> m == n
  }

  /** The k-th row inserted has MSIN k. */
  ghost predicate Sequential(cfg: Config, w: World) {
    Numbered(cfg, w, (n: nat) => Imsi(cfg, n))
  }

  lemma NextIsFree(cfg: Config, w: World, imsiOf: nat -> string)
    requires Numbered(cfg, w, imsiOf) && Injective(imsiOf)
    ensures CountPLMN(w, cfg.mcc, cfg.mnc) == w.supply && !Taken(w, imsiOf(w.supply + 1))
  {
    forall id | id in w.sims
      ensures w.sims[id].mcc == cfg.mcc && w.sims[id].mnc == cfg.mnc && w.sims[id].imsi != imsiOf(w.supply + 1)
    {
      assert NumberedRow(cfg, w.supply, imsiOf, id, w.sims[id]);
    }
    assert OfPLMN(w, cfg.mcc, cfg.mnc) == w.sims.Keys;
  }

  lemma OneMore(m: map<Id, Sim>, k: Id, row: Sim)
    requires k !in m
    ensures |m[k := row].Keys| == |m.Keys| + 1
  {
    assert m[k := row].Keys == m.Keys + {k};
  }

  lemma InsertNumbered(cfg: Config, w: World, row: Sim, imsiOf: nat -> string)
    requires Numbered(cfg, w, imsiOf)
    requires row.id == w.supply && row.mcc == cfg.mcc && row.mnc == cfg.mnc && row.imsi == imsiOf(w.supply + 1)
    ensures Numbered(cfg, w.(sims := w.sims[row.id := row], supply := w.supply + 1), imsiOf)
  {
    var sims := w.sims[row.id := row];
    forall id | id in w.sims ensures id < w.supply { assert NumberedRow(cfg, w.supply, imsiOf, id, w.sims[id]); }
    OneMore(w.sims, row.id, row);
    forall id | id in sims ensures NumberedRow(cfg, w.supply + 1, imsiOf, id, sims[id]) {
      assert id in w.sims ==> NumberedRow(cfg, w.supply, imsiOf, id, w.sims[id]);
    }
  }

  lemma CardsStay(cfg: Config, w: World, c: Call, o: Outcome)
    requires !c.Insert?
    ensures var v := Effect(cfg, w, c, o);
            v.supply == w.supply && v.sims.Keys == w.sims.Keys && forall id :: id in w.sims ==> SameCard(v.sims[id], w.sims[id])
  {
  }

  lemma EffectNumbered(cfg: Config, w: World, c: Call, o: Outcome, imsiOf: nat -> string)
    requires Numbered(cfg, w, imsiOf)
    requires c.Insert? ==> c.imsi == imsiOf(w.supply + 1)
    ensures Numbered(cfg, Effect(cfg, w, c, o), imsiOf)
  {
    if c.Insert? {
      InsertNumbered(cfg, w, NewRow(cfg, c.org, c.card, c.imsi, w.supply, w.now), imsiOf);
    } else {
      CardsStay(cfg, w, c, o);
      SameCardsNumbered(cfg, w, Effect(cfg, w, c, o), imsiOf);
    }
  }

  lemma SameCardsNumbered(cfg: Config, w: World, v: World, imsiOf: nat -> string)
    requires Numbered(cfg, w, imsiOf) && v.supply == w.supply && v.sims.Keys == w.sims.Keys
    requires forall id :: id in w.sims ==> SameCard(v.sims[id], w.sims[id])
    ensures Numbered(cfg, v, imsiOf)
  {
    forall id | id in v.sims ensures NumberedRow(cfg, v.supply, imsiOf, id, v.sims[id]) {
      assert NumberedRow(cfg, w.supply, imsiOf, id, w.sims[id]) && SameCard(v.sims[id], w.sims[id]);
    }
  }

  lemma NextNumbered(cfg: Config, w: World, c: Call, o: Outcome, imsiOf: nat -> string)
    requires Numbered(cfg, w, imsiOf) && Injective(imsiOf)
    requires c.Insert? ==> c.imsi == imsiOf(w.supply + 1)
    requires c.NextMSIN? ==> Imsi(cfg, w.supply + 1) == imsiOf(w.supply + 1)
    ensures var n := Then(cfg, w, c, o);
            if n.Continue? then !n.call.NextMSIN? && (n.call.Insert? ==> c.NextMSIN? && n.call.imsi == imsiOf(w.supply + 1))
            else n.reply != Refused(SIMExists)
  {
    NextIsFree(cfg, w, imsiOf);
  }

  predicate Due(w: World, n: Next, imsiOf: nat -> string) {
    if n.Continue? then !n.call.NextMSIN? && (n.call.Insert? ==> n.call.imsi == imsiOf(w.supply + 1))
    else n.reply != Refused(SIMExists)
  }

  /** One statement of a call, and where the code goes from it. */
  lemma StepNumbered(cfg: Config, w: World, c: Call, o: Outcome, imsiOf: nat -> string)
    requires Numbered(cfg, w, imsiOf) && Injective(imsiOf)
    requires c.Insert? ==> c.imsi == imsiOf(w.supply + 1)
    requires c.NextMSIN? ==> Imsi(cfg, w.supply + 1) == imsiOf(w.supply + 1)
    ensures Numbered(cfg, Effect(cfg, w, c, o), imsiOf) && Due(Effect(cfg, w, c, o), Then(cfg, w, c, o), imsiOf)
  {
    NextNumbered(cfg, w, c, o, imsiOf);
    EffectNumbered(cfg, w, c, o, imsiOf);
    assert c.NextMSIN? ==> Effect(cfg, w, c, o).supply == w.supply;
  }

  lemma StepsDown(cfg: Config, w: World, c: Call, o: Outcome)
    ensures Then(cfg, w, c, o).Continue? ==> Remaining(Then(cfg, w, c, o).call) < Remaining(c)
  {
  }

  lemma {:induction false} CallNumbered(cfg: Config, w: World, c: Call, net: Stage -> Wire, imsiOf: nat -> string)
    requires Numbered(cfg, w, imsiOf) && Injective(imsiOf)
    requires c.Insert? ==> c.imsi == imsiOf(w.supply + 1)
    requires c.NextMSIN? ==> Imsi(cfg, w.supply + 1) == imsiOf(w.supply + 1)
    ensures Numbered(cfg, RunCall(cfg, w, c, net).0, imsiOf) && RunCall(cfg, w, c, net).1 != Refused(SIMExists)
    decreases Remaining(c)
  {
    var o := net(StageOf(c)).outcome;
    var b := Elapse(w, net(StageOf(c)).delay);
    var v, n := Effect(cfg, b, c, o), Then(cfg, b, c, o);
    StepNumbered(cfg, b, c, o, imsiOf);
    StepsDown(cfg, b, c, o);
    match n {
      case Continue(d) =>
        assert RunCall(cfg, w, c, net) == RunCall(cfg, v, d, net);
        CallNumbered(cfg, v, d, net, imsiOf);
      case Return(r) =>
        assert RunCall(cfg, w, c, net) == (v, r);
    }
  }

  /** A Create leaves the IMSI to the service. */
  predicate Auto(r: Request) {
    r.Create? ==> Text.TrimSpace(r.card.imsi) == ""
  }

  lemma RequestSequential(cfg: Config, w: World, r: Request, net: Stage -> Wire)
    requires Sequential(cfg, w) && Auto(r)
    ensures Sequential(cfg, RunRequest(cfg, w, r, net).0) && RunRequest(cfg, w, r, net).1 != Refused(SIMExists)
  {
    if Start(cfg, r).Continue? {
      var imsiOf := (n: nat) => Imsi(cfg, n);
      forall m, n | imsiOf(m) == imsiOf(n) ensures m == n { ImsiPrinter(cfg, m, n); }
      CallNumbered(cfg, w, Start(cfg, r).call, net, imsiOf);
    }
  }

  datatype Job = Job(request: Request, net: Stage -> Wire)

  function RunRequests(cfg: Config, w: World, rs: seq<Job>): (World, seq<Reply>)
    decreases |rs|
  {
    if rs == [] then (w, []) else
    var (v, reply) := RunRequest(cfg, w, rs[0].request, rs[0].net);
    var (u, replies) := RunRequests(cfg, v, rs[1..]);
    (u, [reply] + replies)
  }

  lemma {:induction false} RequestsSequential(cfg: Config, w: World, rs: seq<Job>)
    requires Sequential(cfg, w)
    requires forall i :: 0 <= i < |rs| ==> Auto(rs[i].request)
    ensures var (v, replies) := RunRequests(cfg, w, rs);
            Sequential(cfg, v) && forall i :: 0 <= i < |replies| ==> replies[i] != Refused(SIMExists)
    decreases |rs|
  {
    if rs != [] {
      assert Auto(rs[0].request);
      RequestSequential(cfg, w, rs[0].request, rs[0].net);
      forall i | 0 <= i < |rs[1..]| ensures Auto(rs[1..][i].request) {
        assert rs[1..][i] == rs[i + 1];
      }
      RequestsSequential(cfg, RunRequest(cfg, w, rs[0].request, rs[0].net).0, rs[1..]);
    }
  }

  /** From an empty table, when requests run one after another and every Create
      leaves the IMSI to the service, whatever fails: the k-th inserted row gets
      MSIN k and no request is refused because its IMSI is taken. Row ids count
      insertions from 0. */
  lemma SequentialMsins(cfg: Config, w: World, rs: seq<Job>)
    requires w.sims == map[] && w.supply == 0
    requires forall i :: 0 <= i < |rs| ==> Auto(rs[i].request)
    ensures var (v, replies) := RunRequests(cfg, w, rs);
            && |v.sims.Keys| == v.supply
            && (forall id :: id in v.sims ==> id < v.supply && v.sims[id].imsi == Imsi(cfg, id + 1))
            && (forall i :: 0 <= i < |replies| ==> replies[i] != Refused(SIMExists))
  {
    assert w.sims.Keys == {};
    RequestsSequential(cfg, w, rs);
  }

  // --------------------------------------------------------------- the code

  /** The sims table. */
  class Repo {
    var sims: map<Id, Sim>
    var supply: nat
    var now: int

    constructor ()
      ensures sims == map[] && supply == 0 && now == 0
    {
      sims, supply, now := map[], 0, 0;
    }
  }

  /** The MongoDB client. */
  class Open5GS {
    var subscribers: map<string, Subscriber>

    constructor ()
      ensures subscribers == map[]
    {
      subscribers := map[];
    }

    method Upsert(s: Subscriber, o: Outcome)
      modifies this
      ensures subscribers == if o.Effective() then old(subscribers)[s.imsi := Document(s)] else old(subscribers)
      ensures o.Effective() ==>
                var d := subscribers[s.imsi];
                && d.imsi == s.imsi && d.ki == s.ki && d.opc == s.opc
                && (if s.amf == "" then d.amf == "8000" else d.amf == s.amf)
                && (if s.apn == "" then d.apn == "internet" else d.apn == s.apn)
                && (if s.sst == 0 then d.sst == 1 else d.sst == s.sst)
    {
      var doc := s;
      if doc.amf == "" { doc := doc.(amf := "8000"); }
      if doc.apn == "" { doc := doc.(apn := "internet"); }
      if doc.sst == 0 { doc := doc.(sst := 1); }
      if o.Effective() { subscribers := subscribers[doc.imsi := doc]; }
    }

    method Delete(imsi: string, o: Outcome)
      modifies this
      ensures subscribers == if o.Effective() then old(subscribers) - {imsi} else old(subscribers)
    {
      if o.Effective() { subscribers := subscribers - {imsi}; }
    }
  }

  class SIMs {
    const cfg: Config
    const repo: Repo
    const open5gs: Open5GS

    constructor (cfg: Config, repo: Repo, open5gs: Open5GS)
      ensures this.cfg == cfg && this.repo == repo && this.open5gs == open5gs
    {
      this.cfg, this.repo, this.open5gs := cfg, repo, open5gs;
    }

    function Snapshot(): World
      reads repo, open5gs
    {
      World(repo.sims, open5gs.subscribers, repo.supply, repo.now)
    }

    method Wait(delay: nat)
      modifies repo`now
      ensures Snapshot() == Elapse(old(Snapshot()), delay)
    {
      repo.now := repo.now + delay;
    }

    method OwnedByOrg(org: string, id: Id, w: Wire) returns (r: Result<Sim, Error>)
      modifies repo`now
      ensures Snapshot() == Elapse(old(Snapshot()), w.delay)
      ensures r == if w.outcome.Failed? then Err(Internal)
                   else if id in repo.sims && repo.sims[id].org == org then Ok(repo.sims[id]) else Err(SIMNotFound)
    {
      Wait(w.delay);
      if w.outcome.Failed? { return Err(Internal); }
      if id !in repo.sims { return Err(SIMNotFound); }
      var sim := repo.sims[id];
      if sim.org != org { return Err(SIMNotFound); }
      return Ok(sim);
    }

    method UpdateStatus(ghost op: Op, status: Status, ghost org: string, id: Id, net: Stage -> Wire) returns (r: Reply)
      requires status == op.Target()
      modifies repo`now, repo`sims
      ensures r == SimLifecycle.Changed ==> id in repo.sims && repo.sims[id].status == status
      ensures (Snapshot(), r) == RunCall(cfg, old(Snapshot()), SetStatus(op, org, id), net)
    {
      var w := net(Writing);
      Wait(w.delay);
      if w.outcome.Effective() && id in repo.sims {
        repo.sims := repo.sims[id := repo.sims[id].(status := status, updatedAt := repo.now)];
      }
      if w.outcome.Failed? { return Refused(Internal); }
      if id !in repo.sims { return Refused(SIMNotFound); }
      return SimLifecycle.Changed;
    }

    /** Suspend and Terminate: out of the core first, then the status. */
    method Withdraw(ghost op: Op, status: Status, org: string, id: Id, net: Stage -> Wire) returns (r: Reply)
      requires !op.Resume? && status == op.Target() && TableOk(Snapshot())
      modifies repo, open5gs
      ensures r == SimLifecycle.Changed ==> id in repo.sims && repo.sims[id].status == status
      ensures (Snapshot(), r) == RunRequest(cfg, old(Snapshot()), Change(op, org, id), net)
    {
      var sim := OwnedByOrg(org, id, net(Load));
      LookupSteps(cfg, old(Snapshot()), op, org, id, net);
      if sim.Err? { return Refused(sim.error); }
      if cfg.wired {
        CoreSteps(cfg, Snapshot(), op, org, sim.value, net);
        Wait(net(Core).delay);
        open5gs.Delete(sim.value.imsi, net(Core).outcome);
        if net(Core).outcome.Failed? { return Refused(Deprovisioning); }
      }
      r := UpdateStatus(op, status, org, id, net);
    }

    method Suspend(org: string, id: Id, net: Stage -> Wire) returns (r: Reply)
      requires TableOk(Snapshot())
      modifies repo, open5gs
      ensures (Snapshot(), r) == RunRequest(cfg, old(Snapshot()), Change(Op.Suspend, org, id), net)
      ensures r == SimLifecycle.Changed ==> id in repo.sims && repo.sims[id].status == Suspended
    {
      r := Withdraw(Op.Suspend, Suspended, org, id, net);
    }

    method Terminate(org: string, id: Id, net: Stage -> Wire) returns (r: Reply)
      requires TableOk(Snapshot())
      modifies repo, open5gs
      ensures (Snapshot(), r) == RunRequest(cfg, old(Snapshot()), Change(Op.Terminate, org, id), net)
      ensures r == SimLifecycle.Changed ==> id in repo.sims && repo.sims[id].status == Terminated
    {
      r := Withdraw(Op.Terminate, Terminated, org, id, net);
    }

    /** Resume: into the core first, then the status; no guard on the status. */
    method Resume(org: string, id: Id, net: Stage -> Wire) returns (r: Reply)
      requires TableOk(Snapshot())
      modifies repo, open5gs
      ensures (Snapshot(), r) == RunRequest(cfg, old(Snapshot()), Change(Op.Resume, org, id), net)
      ensures r == SimLifecycle.Changed ==> id in repo.sims && repo.sims[id].status == Active
    {
      var sim := OwnedByOrg(org, id, net(Load));
      LookupSteps(cfg, old(Snapshot()), Op.Resume, org, id, net);
      if sim.Err? { return Refused(sim.error); }
      if cfg.wired {
        CoreSteps(cfg, Snapshot(), Op.Resume, org, sim.value, net);
        Wait(net(Core).delay);
        var card := sim.value;
        open5gs.Upsert(Subscriber(card.imsi, card.apn, card.ki, card.opc, card.amf, card.sst), net(Core).outcome);
        if net(Core).outcome.Failed? { return Refused(Internal); }
      }
      r := UpdateStatus(Op.Resume, Active, org, id, net);
    }

    method Create(org: string, card: NewSim, net: Stage -> Wire) returns (r: Reply)
      modifies repo, open5gs
      ensures (Snapshot(), r) == RunRequest(cfg, old(Snapshot()), Request.Create(org, card), net)
    {
      if Text.TrimSpace(org) == "" { return Refused(BadInput); }
      var imsi := Text.TrimSpace(card.imsi);
      if imsi == "" {
        Wait(net(Count).delay);
        if net(Count).outcome.Failed? { return Refused(Internal); }
        var n := CountPLMN(Snapshot(), cfg.mcc, cfg.mnc) + 1;
        imsi := cfg.mcc + cfg.mnc + Text.Padded(n, 10);
      } else if |imsi| < 14 || |imsi| > 15 {
        return Refused(BadInput);
      }
      r := CreateRow(org, card, imsi, net);
    }

    method CreateRow(org: string, card: NewSim, imsi: string, net: Stage -> Wire) returns (r: Reply)
      modifies repo, open5gs
      ensures (Snapshot(), r) == RunCall(cfg, old(Snapshot()), Insert(org, card, imsi), net)
    {
      Wait(net(Insertion).delay);
      var apn := if card.apn == "" then "internet" else card.apn;
      var sst := if card.sst == 0 then 1 else card.sst;
      var sim := Sim(repo.supply, org, imsi, cfg.mcc, cfg.mnc, card.ki, card.opc, "8000", apn, sst, Active, None, repo.now);
      var taken := Taken(Snapshot(), imsi);
      if net(Insertion).outcome.Effective() && !taken {
        repo.sims, repo.supply := repo.sims[sim.id := sim], repo.supply + 1;
      }
      if net(Insertion).outcome.Failed? { return Refused(Internal); }
      if taken { return Refused(SIMExists); }
      if cfg.wired { r := ProvisionRow(org, sim, net); } else { r := ReloadRow(org, sim.id, net); }
    }

    method ProvisionRow(org: string, sim: Sim, net: Stage -> Wire) returns (r: Reply)
      modifies repo, open5gs
      ensures (Snapshot(), r) == RunCall(cfg, old(Snapshot()), Provision(org, sim), net)
    {
      Wait(net(Core).delay);
      open5gs.Upsert(Subscriber(sim.imsi, sim.apn, sim.ki, sim.opc, sim.amf, sim.sst), net(Core).outcome);
      if net(Core).outcome.Failed? { return Refused(Provisioning); }
      assert RunCall(cfg, old(Snapshot()), Provision(org, sim), net) == RunCall(cfg, Snapshot(), Mark(org, sim.id), net);
      Wait(net(Marking).delay);
      if net(Marking).outcome.Effective() && sim.id in repo.sims {
        repo.sims := repo.sims[sim.id := repo.sims[sim.id].(provisionedAt := Some(repo.now), updatedAt := repo.now)];
      }
      if net(Marking).outcome.Failed? { return Refused(Internal); }
      r := ReloadRow(org, sim.id, net);
    }

    method ReloadRow(ghost org: string, id: Id, net: Stage -> Wire) returns (r: Reply)
      modifies repo`now
      ensures (Snapshot(), r) == RunCall(cfg, old(Snapshot()), Reload(org, id), net)
    {
      Wait(net(Load).delay);
      if net(Load).outcome.Failed? { return Refused(Internal); }
      if id !in repo.sims { return Refused(SIMNotFound); }
      return Created(repo.sims[id]);
    }
  }
}
