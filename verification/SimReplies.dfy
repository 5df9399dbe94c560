/** What creating a SIM does to both stores. */
module SimReplies {
  import opened Common
  import opened SimLifecycle
  import opened SimService
  import Sequences
  import Text

  ghost predicate Healthy(net: Stage -> Wire) {
    forall g :: net(g).outcome.Done?
  }

  /** The IMSI a Create asks for, or the next of the PLMN. */
  function WantedImsi(cfg: Config, w: World, card: NewSim): string {
    if Text.TrimSpace(card.imsi) == "" then Imsi(cfg, CountPLMN(w, cfg.mcc, cfg.mnc) + 1) else Text.TrimSpace(card.imsi)
  }

  predicate BadRequest(org: string, card: NewSim) {
    Text.TrimSpace(org) == "" || (Text.TrimSpace(card.imsi) != "" && !(14 <= |Text.TrimSpace(card.imsi)| <= 15))
  }

  /** A new active card of this org with the requested or default fields. */
  predicate IsCard(cfg: Config, s: Sim, org: string, card: NewSim, imsi: string, id: Id) {
    && s.id == id && s.org == org && s.imsi == imsi && s.mcc == cfg.mcc && s.mnc == cfg.mnc
    && s.ki == card.ki && s.opc == card.opc && s.amf == "8000" && s.status == Active
    && (if card.apn == "" then s.apn == "internet" else s.apn == card.apn)
    && (if card.sst == 0 then s.sst == 1 else s.sst == card.sst)
  }

  lemma IsNewCard(cfg: Config, s: Sim, org: string, card: NewSim, imsi: string, id: Id)
    requires SameCard(s, NewRow(cfg, org, card, imsi, id, 0)) && s.status == Active
    ensures IsCard(cfg, s, org, card, imsi, id)
  {
  }

  /** The tables and the core after an insert and what follows it. */
  ghost predicate Added(cfg: Config, w: World, v: World, s: Sim, imsi: string, core: Outcome) {
    && v.sims == w.sims[w.supply := s] && v.supply == w.supply + 1
    && s.provisionedAt == (if cfg.wired && core.Done? then Some(s.updatedAt) else None) && w.now <= s.updatedAt <= v.now
    && v.core == if cfg.wired && core.Effective() then w.core[imsi := Subscriber(s.imsi, s.apn, s.ki, s.opc, s.amf, s.sst)] else w.core
  }

  /** Insert and what follows it, when nothing fails but perhaps the core. */
  lemma InsertReplies(cfg: Config, w: World, org: string, card: NewSim, imsi: string, net: Stage -> Wire) returns (s: Sim)
    requires !Taken(w, imsi) && forall g :: g != Core ==> net(g).outcome.Done?
    ensures var (v, r) := RunCall(cfg, w, Insert(org, card, imsi), net);
            && Added(cfg, w, v, s, imsi, net(Core).outcome) && IsCard(cfg, s, org, card, imsi, w.supply)
            && (if !cfg.wired || net(Core).outcome.Done? then r == Created(s) else r == Refused(Provisioning))
  {
    var b := Elapse(w, net(Insertion).delay);
    var row := NewRow(cfg, org, card, imsi, w.supply, b.now);
    var u := b.(sims := b.sims[w.supply := row], supply := b.supply + 1);
    InsertSteps(cfg, w, org, card, imsi, net);
    s := row;
    if cfg.wired {
      ProvisionReplies(cfg, u, org, row, net);
      s := RunCall(cfg, u, Provision(org, row), net).0.sims[w.supply];
    }
    IsNewCard(cfg, s, org, card, imsi, w.supply);
  }

  lemma InsertSteps(cfg: Config, w: World, org: string, card: NewSim, imsi: string, net: Stage -> Wire)
    requires !Taken(w, imsi) && net(Insertion).outcome.Done? && net(Load).outcome.Done?
    ensures var b := Elapse(w, net(Insertion).delay);
            var row := NewRow(cfg, org, card, imsi, w.supply, b.now);
            var u := b.(sims := b.sims[w.supply := row], supply := b.supply + 1);
            RunCall(cfg, w, Insert(org, card, imsi), net)
            == if cfg.wired then RunCall(cfg, u, Provision(org, row), net) else (Elapse(u, net(Load).delay), Created(row))
  {
    var b := Elapse(w, net(Insertion).delay);
    var row := NewRow(cfg, org, card, imsi, w.supply, b.now);
    var u := b.(sims := b.sims[w.supply := row], supply := b.supply + 1);
    assert Taken(b, imsi) == Taken(w, imsi);
    if !cfg.wired {
      assert RunCall(cfg, w, Insert(org, card, imsi), net) == RunCall(cfg, u, Reload(org, w.supply), net);
    }
  }

  lemma ProvisionReplies(cfg: Config, w: World, org: string, row: Sim, net: Stage -> Wire)
    requires row.id in w.sims && w.sims[row.id] == row && Complete(row) && forall g :: g != Core ==> net(g).outcome.Done?
    ensures var (v, r) := RunCall(cfg, w, Provision(org, row), net);
            && (if net(Core).outcome.Effective() then v.core == w.core[row.imsi := Project(row)] else v.core == w.core)
            && v.supply == w.supply && w.now <= v.now
            && (if net(Core).outcome.Failed? then v.sims == w.sims && r == Refused(Provisioning)
                else row.id in v.sims && r == Created(v.sims[row.id]) && v.sims == w.sims[row.id := v.sims[row.id]]
                     && SameCard(v.sims[row.id], row) && v.sims[row.id].status == row.status
                     && v.sims[row.id].provisionedAt == Some(v.sims[row.id].updatedAt) && w.now <= v.sims[row.id].updatedAt <= v.now)
  {
    var b := Elapse(w, net(Core).delay);
    var u := Effect(cfg, b, Provision(org, row), net(Core).outcome);
    assert Document(Project(row)) == Project(row);
    if net(Core).outcome.Done? {
      assert RunCall(cfg, w, Provision(org, row), net) == RunCall(cfg, u, Mark(org, row.id), net);
      var x := Effect(cfg, Elapse(u, net(Marking).delay), Mark(org, row.id), Done);
      assert RunCall(cfg, u, Mark(org, row.id), net) == RunCall(cfg, x, Reload(org, row.id), net);
      assert x.sims == w.sims[row.id := x.sims[row.id]];
    } else {
      assert RunCall(cfg, w, Provision(org, row), net) == (u, Refused(Provisioning));
    }
  }

  /** Once a card without an IMSI has been numbered. */
  function Counted(w: World, card: NewSim, net: Stage -> Wire): World {
    if Text.TrimSpace(card.imsi) == "" then Elapse(w, net(Count).delay) else w
  }

  lemma CreateSteps(cfg: Config, w: World, org: string, card: NewSim, net: Stage -> Wire)
    requires Healthy(net) && !BadRequest(org, card)
    ensures var b, imsi := Counted(w, card, net), WantedImsi(cfg, w, card);
            && RunRequest(cfg, w, Create(org, card), net) == RunCall(cfg, b, Insert(org, card, imsi), net)
            && (Taken(b, imsi) <==> Taken(w, imsi))
  {
    var b := Counted(w, card, net);
    assert OfPLMN(b, cfg.mcc, cfg.mnc) == OfPLMN(w, cfg.mcc, cfg.mnc);
  }

  /** When no statement fails: a blank org or an IMSI that is not 14 or 15 long is
      refused and changes nothing; a taken IMSI is refused and adds nothing; and
      otherwise exactly one active row is added and, when a core is wired, that
      row's projection is in the core under its IMSI. */
  lemma CreateReplies(cfg: Config, w: World, org: string, card: NewSim, net: Stage -> Wire)
    requires Healthy(net)
    ensures var (v, r) := RunRequest(cfg, w, Create(org, card), net);
            var imsi := WantedImsi(cfg, w, card);
            if BadRequest(org, card) then r == Refused(BadInput) && v == w
            else if Taken(w, imsi) then r == Refused(SIMExists) && v.sims == w.sims && v.core == w.core
            else
              && r.Created? && IsCard(cfg, r.sim, org, card, imsi, w.supply) && w.now <= r.sim.updatedAt <= v.now
              && r.sim.provisionedAt == (if cfg.wired then Some(r.sim.updatedAt) else None)
              && v.sims == w.sims[w.supply := r.sim]
              && v.core == if cfg.wired then w.core[imsi := Subscriber(r.sim.imsi, r.sim.apn, r.sim.ki, r.sim.opc, r.sim.amf, r.sim.sst)] else w.core
  {
    if !BadRequest(org, card) {
      var imsi := WantedImsi(cfg, w, card);
      var b := Counted(w, card, net);
      CreateSteps(cfg, w, org, card, net);
      if !Taken(w, imsi) {
        var s := InsertReplies(cfg, b, org, card, imsi, net);
      } else {
        InsertTaken(cfg, b, org, card, imsi, net);
      }
    }
  }

  lemma InsertTaken(cfg: Config, w: World, org: string, card: NewSim, imsi: string, net: Stage -> Wire)
    requires Taken(w, imsi) && net(Insertion).outcome.Done?
    ensures var (v, r) := RunCall(cfg, w, Insert(org, card, imsi), net);
            r == Refused(SIMExists) && v.sims == w.sims && v.core == w.core
  {
    assert Taken(Elapse(w, net(Insertion).delay), imsi);
  }

  /** When the core refuses, Create reports a provisioning failure and keeps the
      row; a Resume of that row by its org, when nothing fails, then puts it into
      the core with the keys it was created with. */
  lemma ResumeRepairsCreate(cfg: Config, w: World, org: string, card: NewSim, imsi: string, net: Stage -> Wire, later: Stage -> Wire)
    requires cfg.wired && TableOk(w) && !Taken(w, imsi) && Healthy(later)
    requires net(Core).outcome == Failed(false) && forall g :: g != Core ==> net(g).outcome.Done?
    ensures var (v, r) := RunCall(cfg, w, Insert(org, card, imsi), net);
            var (z, q) := RunRequest(cfg, v, Change(Resume, org, w.supply), later);
            && r == Refused(Provisioning) && v.core == w.core && w.supply in v.sims && IsCard(cfg, v.sims[w.supply], org, card, imsi, w.supply)
            && q == SimLifecycle.Changed && z.core == w.core[imsi := Subscriber(imsi, v.sims[w.supply].apn, card.ki, card.opc, "8000", v.sims[w.supply].sst)]
  {
    var v := RunCall(cfg, w, Insert(org, card, imsi), net).0;
    var s := InsertReplies(cfg, w, org, card, imsi, net);
    RunCallOk(cfg, w, Insert(org, card, imsi), net);
    HealthyResume(cfg, v, org, w.supply, later);
    var t := ChangeDone(cfg, v, Resume, org, w.supply, later);
  }

  lemma HealthyResume(cfg: Config, w: World, org: string, id: Id, net: Stage -> Wire)
    requires cfg.wired && Healthy(net) && id in w.sims && w.sims[id].org == org && w.sims[id].id == id
    ensures RunRequest(cfg, w, Change(Resume, org, id), net).1 == SimLifecycle.Changed
  {
    HealthyChange(cfg, w, Resume, org, id, net);
  }

  /** A status write on a row that is there. */
  lemma HealthyWrite(cfg: Config, w: World, op: Op, org: string, id: Id, net: Stage -> Wire)
    requires Healthy(net) && id in w.sims
    ensures RunCall(cfg, w, SetStatus(op, org, id), net).1 == SimLifecycle.Changed
  {
  }

  lemma HealthyCore(cfg: Config, w: World, op: Op, org: string, sim: Sim, net: Stage -> Wire)
    requires Healthy(net) && sim.id in w.sims
    ensures RunCall(cfg, w, CoreCall(op, org, sim), net).1 == SimLifecycle.Changed
  {
    var v := Effect(cfg, Elapse(w, net(Core).delay), CoreCall(op, org, sim), Done);
    assert RunCall(cfg, w, CoreCall(op, org, sim), net) == RunCall(cfg, v, SetStatus(op, org, sim.id), net);
    HealthyWrite(cfg, v, op, org, sim.id, net);
  }

  lemma HealthyChange(cfg: Config, w: World, op: Op, org: string, id: Id, net: Stage -> Wire)
    requires Healthy(net) && id in w.sims && w.sims[id].org == org && w.sims[id].id == id
    ensures RunRequest(cfg, w, Change(op, org, id), net).1 == SimLifecycle.Changed
  {
    var b := Elapse(w, net(Load).delay);
    var next := if cfg.wired then CoreCall(op, org, w.sims[id]) else SetStatus(op, org, id);
    assert RunRequest(cfg, w, Change(op, org, id), net) == RunCall(cfg, b, next, net);
    if cfg.wired {
      HealthyCore(cfg, b, op, org, w.sims[id], net);
    } else {
      HealthyWrite(cfg, b, op, org, id, net);
    }
  }

  lemma MissingChange(cfg: Config, w: World, op: Op, org: string, id: Id, net: Stage -> Wire)
    requires net(Load).outcome.Done? && (id !in w.sims || w.sims[id].org != org)
    ensures var (v, r) := RunRequest(cfg, w, Change(op, org, id), net);
            r == Refused(SIMNotFound) && v.sims == w.sims && v.core == w.core
  {
  }

  /** When no statement fails: Suspend, Resume and Terminate of a SIM of the org
      reply nil, write "suspended", "active" and "terminated", touch no other row,
      and with a core wired take the SIM out of it or, for Resume, put it in with
      its stored keys; a SIM that is not there or not the org's is reported missing
      and nothing changes. */
  lemma ChangeReplies(cfg: Config, w: World, op: Op, org: string, id: Id, net: Stage -> Wire) returns (t: int)
    requires TableOk(w) && Healthy(net)
    ensures var (v, r) := RunRequest(cfg, w, Change(op, org, id), net);
            if id in w.sims && w.sims[id].org == org then
              var s := w.sims[id];
              && r == SimLifecycle.Changed && w.now <= t == v.now
              && v.sims == w.sims[id := s.(status := match op case Suspend => Suspended case Resume => Active case Terminate => Terminated,
                                           updatedAt := t)]
              && v.core == (if !cfg.wired then w.core
                            else if op == Resume then w.core[s.imsi := Subscriber(s.imsi, s.apn, s.ki, s.opc, s.amf, s.sst)]
                            else w.core - {s.imsi})
            else r == Refused(SIMNotFound) && v.sims == w.sims && v.core == w.core
  {
    t := 0;
    if id in w.sims && w.sims[id].org == org {
      HealthyChange(cfg, w, op, org, id, net);
      t := ChangeDone(cfg, w, op, org, id, net);
    } else {
      MissingChange(cfg, w, op, org, id, net);
    }
  }

  /** When the core refuses the removal, Suspend and Terminate say so and leave the
      status as it was. */
  lemma FailedRemovalKeepsStatus(cfg: Config, w: World, op: Op, org: string, id: Id, net: Stage -> Wire)
    requires cfg.wired && !op.Resume? && id in w.sims && w.sims[id].org == org
    requires net(Load).outcome.Done? && net(Core).outcome.Failed?
    ensures var (v, r) := RunRequest(cfg, w, Change(op, org, id), net);
            && r == Refused(Deprovisioning) && v.sims == w.sims
            && v.core == if net(Core).outcome.applied then w.core - {w.sims[id].imsi} else w.core
  {
    var b := Elapse(w, net(Load).delay);
    assert RunRequest(cfg, w, Change(op, org, id), net) == RunCall(cfg, b, CoreDelete(op, org, w.sims[id]), net);
  }

  /** The statements a call still has to make before it can succeed. */
  ghost function Path(cfg: Config, c: Call): set<Stage> {
    var core := if cfg.wired then {Core, Marking} else {};
    match c
    case NextMSIN(_, _) => {Count, Insertion, Load} + core
    case Insert(_, _, _) => {Insertion, Load} + core
    case Provision(_, _) => {Core, Marking, Load}
    case Mark(_, _) => {Marking, Load}
    case Reload(_, _) => {Load}
    case Lookup(_, _, _) => {Load, Writing} + if cfg.wired then {Core} else {}
    case CoreDelete(_, _, _) => {Core, Writing}
    case CoreUpsert(_, _) => {Core, Writing}
    case SetStatus(_, _, _) => {Writing}
  }

  lemma {:induction false} SuccessNeedsPath(cfg: Config, w: World, c: Call, net: Stage -> Wire)
    ensures !RunCall(cfg, w, c, net).1.Refused? ==> forall g :: g in Path(cfg, c) ==> net(g).outcome == Done
    decreases Remaining(c)
  {
    var x := net(StageOf(c));
    var b := Elapse(w, x.delay);
    var n := Then(cfg, b, c, x.outcome);
    if n.Continue? {
      SuccessNeedsPath(cfg, Effect(cfg, b, c, x.outcome), n.call, net);
      assert Path(cfg, c) <= Path(cfg, n.call) + {StageOf(c)};
    }
  }

  /** No failure is swallowed: a Create that succeeds has counted (if it had to
      number the card), inserted and reloaded the row and, with a core wired, put
      the card into it and marked the row; a status change that succeeds has read
      the row, changed the core if there is one, and written the status. */
  lemma SuccessNeedsAll(cfg: Config, w: World, org: string, card: NewSim, op: Op, id: Id, net: Stage -> Wire)
    ensures !RunRequest(cfg, w, Create(org, card), net).1.Refused? ==>
              && net(Insertion).outcome == Done && net(Load).outcome == Done
              && (Text.TrimSpace(card.imsi) == "" ==> net(Count).outcome == Done)
              && (cfg.wired ==> net(Core).outcome == Done && net(Marking).outcome == Done)
    ensures !RunRequest(cfg, w, Change(op, org, id), net).1.Refused? ==>
              && net(Load).outcome == Done && net(Writing).outcome == Done && (cfg.wired ==> net(Core).outcome == Done)
  {
    SuccessNeedsPath(cfg, w, Lookup(op, org, id), net);
    if Start(cfg, Create(org, card)).Continue? {
      var c := Start(cfg, Create(org, card)).call;
      SuccessNeedsPath(cfg, w, c, net);
      assert {Insertion, Load} <= Path(cfg, c);
    }
  }

  lemma MembersOf(w: World, v: World, id: Id, mcc: string, mnc: string, i: Id)
    requires v.sims.Keys == w.sims.Keys + {id} && forall j :: j in w.sims ==> v.sims[j] == w.sims[j]
    ensures i in OfPLMN(v, mcc, mnc) <==> i in OfPLMN(w, mcc, mnc) || (i == id && v.sims[id].mcc == mcc && v.sims[id].mnc == mnc)
  {
  }

  lemma NoneOf(w: World, mcc: string, mnc: string)
    requires w.sims == map[]
    ensures CountPLMN(w, mcc, mnc) == 0
  {
    assert OfPLMN(w, mcc, mnc) == {};
  }

  /** The number a new card gets is one more than the cards of the PLMN: each row
      counts once for its own MCC and MNC, and for no other. */
  lemma CountExact(w: World, v: World, id: Id, mcc: string, mnc: string)
    requires id !in w.sims && v.sims.Keys == w.sims.Keys + {id} && forall j :: j in w.sims ==> v.sims[j] == w.sims[j]
    ensures CountPLMN(v, mcc, mnc) == CountPLMN(w, mcc, mnc) + if v.sims[id].mcc == mcc && v.sims[id].mnc == mnc then 1 else 0
  {
    var own := v.sims[id].mcc == mcc && v.sims[id].mnc == mnc;
    forall i ensures i in OfPLMN(v, mcc, mnc) <==> i in OfPLMN(w, mcc, mnc) || (i == id && own) {
      MembersOf(w, v, id, mcc, mnc, i);
    }
    Sequences.OneMore(OfPLMN(w, mcc, mnc), OfPLMN(v, mcc, mnc), id, own);
  }
}
