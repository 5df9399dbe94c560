/** SIM cards live in two stores: the sims table in Postgres
    (`internal/repository/postgres.go`) and the 5G core's subscriber collection
    in MongoDB (`internal/open5gs/mongo.go`). There is no common transaction.
    Calls (`internal/service/sim.go`) are modelled statement by statement: any
    in-flight call may move next and any statement may fail. */
module SimLifecycle {
  import opened Common
  import Text

  type Id = nat

  datatype Status = Active | Suspended | Terminated

  datatype Sim = Sim(
    id: Id, org: string, imsi: string, mcc: string, mnc: string, ki: string, opc: string,
    amf: string, apn: string, sst: int, status: Status, provisionedAt: Option<int>, updatedAt: int)

  datatype Subscriber = Subscriber(imsi: string, apn: string, ki: string, opc: string, amf: string, sst: int)

  /** Both stores. imsi is UNIQUE in sims; the core is keyed by it. */
  datatype World = World(sims: map<Id, Sim>, core: map<string, Subscriber>, supply: nat, now: int)

  /** wired: a provisioner is configured. */
  datatype Config = Config(wired: bool, mcc: string, mnc: string)

  datatype Error = BadInput | SIMExists | SIMNotFound | Provisioning | Deprovisioning | Internal

  datatype Op = Suspend | Resume | Terminate {
    function Target(): Status {
      match this
      case Suspend => Suspended
      case Resume => Active
      case Terminate => Terminated
    }
  }

  /** The request body of Create, with the two random keys drawn for it. */
  datatype NewSim = NewSim(imsi: string, apn: string, sst: int, ki: string, opc: string)

  datatype Request = Create(org: string, card: NewSim) | Change(op: Op, org: string, id: Id)

  datatype Call =
    | NextMSIN(org: string, card: NewSim)
    | Insert(org: string, card: NewSim, imsi: string)
    | Provision(org: string, sim: Sim)
    | Mark(org: string, id: Id)
    | Reload(org: string, id: Id)
    | Lookup(op: Op, org: string, id: Id)
    | CoreDelete(op: Op, org: string, sim: Sim)
    | CoreUpsert(org: string, sim: Sim)
    | SetStatus(op: Op, org: string, id: Id)

  datatype Reply = Created(sim: Sim) | Changed | Refused(error: Error)

  datatype Next = Continue(call: Call) | Return(reply: Reply)

  function Fail(e: Error): Next {
    Return(Refused(e))
  }

  // ------------------------------------------------------------- statements

  function OfPLMN(w: World, mcc: string, mnc: string): set<Id> {
    set id | id in w.sims && w.sims[id].mcc == mcc && w.sims[id].mnc == mnc
  }

  function CountPLMN(w: World, mcc: string, mnc: string): nat {
    |OfPLMN(w, mcc, mnc)|
  }

  predicate Taken(w: World, imsi: string) {
    exists id :: id in w.sims && w.sims[id].imsi == imsi
  }

  function Project(s: Sim): Subscriber {
    Subscriber(s.imsi, s.apn, s.ki, s.opc, s.amf, s.sst)
  }

  /** Upsert's document: empty fields take their defaults. */
  function Document(s: Subscriber): Subscriber {
    s.(amf := if s.amf == "" then "8000" else s.amf,
       apn := if s.apn == "" then "internet" else s.apn,
       sst := if s.sst == 0 then 1 else s.sst)
  }

  /** The row Create inserts. */
  function NewRow(cfg: Config, org: string, n: NewSim, imsi: string, id: Id, now: int): Sim {
    Sim(id, org, imsi, cfg.mcc, cfg.mnc, n.ki, n.opc, "8000",
        if n.apn == "" then "internet" else n.apn, if n.sst == 0 then 1 else n.sst, Active, None, now)
  }

  datatype Statement =
    | Read
    | InsertSim(row: Sim)
    | UpsertCore(doc: Subscriber)
    | DeleteCore(imsi: string)
    | MarkProvisioned(id: Id)
    | UpdateStatus(id: Id, status: Status)

  function Exec(w: World, q: Statement): World {
    match q
    case Read => w
    case InsertSim(row) => if Taken(w, row.imsi) then w else w.(sims := w.sims[row.id := row], supply := w.supply + 1)
    case UpsertCore(s) => w.(core := w.core[s.imsi := Document(s)])
    case DeleteCore(imsi) => w.(core := w.core - {imsi})
    case MarkProvisioned(id) =>
      if id in w.sims then w.(sims := w.sims[id := w.sims[id].(provisionedAt := Some(w.now), updatedAt := w.now)]) else w
    case UpdateStatus(id, status) =>
      if id in w.sims then w.(sims := w.sims[id := w.sims[id].(status := status, updatedAt := w.now)]) else w
  }

  function StatementOf(cfg: Config, w: World, c: Call): Statement {
    match c
    case Insert(org, n, imsi) => InsertSim(NewRow(cfg, org, n, imsi, w.supply, w.now))
    case Provision(_, sim) => UpsertCore(Project(sim))
    case CoreUpsert(_, sim) => UpsertCore(Project(sim))
    case CoreDelete(_, _, sim) => DeleteCore(sim.imsi)
    case Mark(_, id) => MarkProvisioned(id)
    case SetStatus(op, _, id) => UpdateStatus(id, op.Target())
    case _ => Read
  }

  /** Both stores after a call's next statement. */
  function Effect(cfg: Config, w: World, c: Call, o: Outcome): World {
    if o.Effective() then Exec(w, StatementOf(cfg, w, c)) else w
  }

  /** The code before a call's first statement. */
  function Start(cfg: Config, r: Request): Next {
    match r
    case Change(op, org, id) => Continue(Lookup(op, org, id))
    case Create(org, n) =>
      if Text.TrimSpace(org) == "" then Fail(BadInput) else
      var imsi := Text.TrimSpace(n.imsi);
      if imsi == "" then Continue(NextMSIN(org, n))
      else if |imsi| < 14 || |imsi| > 15 then Fail(BadInput)
      else Continue(Insert(org, n, imsi))
  }

  function Imsi(cfg: Config, msin: nat): string {
    cfg.mcc + cfg.mnc + Text.Padded(msin, 10)
  }

  /** The code after a statement. */
  function Then(cfg: Config, w: World, c: Call, o: Outcome): Next {
    if o.Failed? then
      Fail(match c case Provision(_, _) => Provisioning case CoreDelete(_, _, _) => Deprovisioning case _ => Internal)
    else
    match c
    case NextMSIN(org, n) => Continue(Insert(org, n, Imsi(cfg, CountPLMN(w, cfg.mcc, cfg.mnc) + 1)))
    case Insert(org, n, imsi) =>
      if Taken(w, imsi) then Fail(SIMExists)
      else if cfg.wired then Continue(Provision(org, NewRow(cfg, org, n, imsi, w.supply, w.now)))
      else Continue(Reload(org, w.supply))
    case Provision(org, sim) => Continue(Mark(org, sim.id))
    case Mark(org, id) => Continue(Reload(org, id))
    case Reload(_, id) => if id in w.sims then Return(Created(w.sims[id])) else Fail(SIMNotFound)
    case Lookup(op, org, id) =>
      if id !in w.sims || w.sims[id].org != org then Fail(SIMNotFound)
      else if !cfg.wired then Continue(SetStatus(op, org, id))
      else if op.Resume? then Continue(CoreUpsert(org, w.sims[id]))
      else Continue(CoreDelete(op, org, w.sims[id]))
    case CoreDelete(op, org, sim) => Continue(SetStatus(op, org, sim.id))
    case CoreUpsert(org, sim) => Continue(SetStatus(Resume, org, sim.id))
    case SetStatus(_, _, id) => if id in w.sims then Return(Changed) else Fail(SIMNotFound)
  }

  // ------------------------------------------------------------ the machine

  /** History: a status written, and how a status change replied. */
  datatype Event = Wrote(id: Id, from: Status, to: Status) | Replied(id: Id, op: Op, ok: bool)

  datatype Sys = Sys(world: World, calls: map<nat, Call>, log: seq<Event>)

  datatype Action = Begin(id: nat, request: Request) | Go(id: nat, delay: nat, outcome: Outcome)

  function Written(w: World, c: Call, o: Outcome): seq<Event> {
    if c.SetStatus? && o.Effective() && c.id in w.sims then [Wrote(c.id, w.sims[c.id].status, c.op.Target())] else []
  }

  function Answered(c: Call, n: Next): seq<Event> {
    if n.Continue? then []
    else match c
         case Lookup(op, _, id) => [Replied(id, op, n.reply.Changed?)]
         case CoreDelete(op, _, sim) => [Replied(sim.id, op, n.reply.Changed?)]
         case CoreUpsert(_, sim) => [Replied(sim.id, Resume, n.reply.Changed?)]
         case SetStatus(op, _, id) => [Replied(id, op, n.reply.Changed?)]
         case _ => []
  }

  function Elapse(w: World, delay: nat): World {
    w.(now := w.now + delay)
  }

  function Apply(cfg: Config, s: Sys, a: Action): Sys {
    match a
    case Begin(id, r) =>
      if id in s.calls || Start(cfg, r).Return? then s else s.(calls := s.calls[id := Start(cfg, r).call])
    case Go(id, delay, o) =>
      if id !in s.calls then s else
      var c, w := s.calls[id], Elapse(s.world, delay);
      var n := Then(cfg, w, c, o);
      Sys(Effect(cfg, w, c, o),
          if n.Continue? then s.calls[id := n.call] else s.calls - {id},
          s.log + Written(w, c, o) + Answered(c, n))
  }

  function Run(cfg: Config, s: Sys, acts: seq<Action>): Sys
    decreases |acts|
  {
    if acts == [] then s else Run(cfg, Apply(cfg, s, acts[0]), acts[1..])
  }

  ghost predicate Initial(s: Sys) {
    s.world.sims == map[] && s.world.core == map[] && s.calls == map[] && s.log == []
  }

  // ------------------------------------------------- invariants of every run

  /** Everything on a card but its status and timestamps is fixed at creation. */
  predicate SameCard(a: Sim, b: Sim) {
    a == b.(status := a.status, provisionedAt := a.provisionedAt, updatedAt := a.updatedAt)
  }

  predicate Complete(s: Sim) {
    s.amf != "" && s.apn != "" && s.sst != 0
  }

  ghost predicate TableOk(w: World) {
    && (forall id :: id in w.sims ==> id < w.supply && w.sims[id].id == id && Complete(w.sims[id]))
    && (forall i, j :: i in w.sims && j in w.sims && w.sims[i].imsi == w.sims[j].imsi ==> i == j)
  }

  /** The record holds the card's identity, keys and slice, each in its place. */
  predicate Shows(doc: Subscriber, s: Sim) {
    && doc.imsi == s.imsi && doc.apn == s.apn && doc.ki == s.ki && doc.opc == s.opc
    && doc.amf == s.amf && doc.sst == s.sst
  }

  ghost predicate HasCard(w: World, imsi: string, doc: Subscriber) {
    exists id :: id in w.sims && w.sims[id].imsi == imsi && Shows(doc, w.sims[id])
  }

  /** Each core record shows the SIM with its IMSI. */
  ghost predicate CoreIsView(w: World) {
    forall imsi :: imsi in w.core ==> HasCard(w, imsi, w.core[imsi])
  }

  ghost predicate Mirrors(w: World, org: string, s: Sim) {
    s.id in w.sims && SameCard(w.sims[s.id], s) && s.org == org
  }

  ghost predicate CallOk(w: World, c: Call) {
    match c
    case Provision(org, sim) => Mirrors(w, org, sim)
    case CoreDelete(op, org, sim) => Mirrors(w, org, sim) && !op.Resume?
    case CoreUpsert(org, sim) => Mirrors(w, org, sim)
    case Mark(org, id) => id in w.sims && w.sims[id].org == org
    case Reload(org, id) => id in w.sims && w.sims[id].org == org
    case SetStatus(_, org, id) => id in w.sims && w.sims[id].org == org
    case _ => true
  }

  ghost predicate Sound(s: Sys) {
    TableOk(s.world) && CoreIsView(s.world) && forall i :: i in s.calls ==> CallOk(s.world, s.calls[i])
  }

  /** Cards are never removed. */
  ghost predicate Grows(w: World, v: World) {
    w.supply <= v.supply && forall id :: id in w.sims ==> id in v.sims && SameCard(v.sims[id], w.sims[id])
  }

  lemma UpdateRowOk(w: World, row: Sim)
    requires TableOk(w) && row.id in w.sims && SameCard(row, w.sims[row.id])
    ensures var v := w.(sims := w.sims[row.id := row]); TableOk(v) && Grows(w, v)
  {
  }

  lemma ExecOk(cfg: Config, w: World, c: Call)
    requires TableOk(w) && CallOk(w, c)
    ensures var v := Exec(w, StatementOf(cfg, w, c)); TableOk(v) && Grows(w, v)
  {
    var v := Exec(w, StatementOf(cfg, w, c));
    if c.Mark? || c.SetStatus? {
      UpdateRowOk(w, v.sims[c.id]);
    }
  }

  lemma HasCardGrows(w: World, v: World, imsi: string, doc: Subscriber)
    requires Grows(w, v) && HasCard(w, imsi, doc)
    ensures HasCard(v, imsi, doc)
  {
    var id :| id in w.sims && w.sims[id].imsi == imsi && Shows(doc, w.sims[id]);
    assert SameCard(v.sims[id], w.sims[id]);
  }

  lemma ExecCore(cfg: Config, w: World, c: Call)
    requires TableOk(w) && CoreIsView(w) && CallOk(w, c)
    ensures CoreIsView(Exec(w, StatementOf(cfg, w, c)))
  {
    var v := Exec(w, StatementOf(cfg, w, c));
    ExecOk(cfg, w, c);
    if c.Provision? || c.CoreUpsert? {
      assert SameCard(w.sims[c.sim.id], c.sim) && Complete(w.sims[c.sim.id]);
      assert HasCard(v, c.sim.imsi, Project(c.sim));
    }
    forall imsi | imsi in v.core ensures HasCard(v, imsi, v.core[imsi]) {
      if imsi in w.core && v.core[imsi] == w.core[imsi] {
        HasCardGrows(w, v, imsi, w.core[imsi]);
      }
    }
  }

  lemma NextOk(cfg: Config, w: World, c: Call, o: Outcome)
    requires TableOk(w) && CallOk(w, c)
    ensures var n := Then(cfg, w, c, o); n.Continue? ==> CallOk(Effect(cfg, w, c, o), n.call)
  {
  }

  lemma LaterSound(w: World, delay: nat)
    requires TableOk(w) && CoreIsView(w)
    ensures TableOk(Elapse(w, delay)) && CoreIsView(Elapse(w, delay))
  {
    forall imsi | imsi in w.core ensures HasCard(Elapse(w, delay), imsi, w.core[imsi]) {
      HasCardGrows(w, Elapse(w, delay), imsi, w.core[imsi]);
    }
  }

  lemma CallKept(w: World, v: World, c: Call)
    requires CallOk(w, c) && Grows(w, v)
    ensures CallOk(v, c)
  {
  }

  lemma ApplySound(cfg: Config, s: Sys, a: Action)
    requires Sound(s)
    ensures Sound(Apply(cfg, s, a)) && Grows(s.world, Apply(cfg, s, a).world)
  {
    if a.Go? && a.id in s.calls {
      var c, w, t := s.calls[a.id], Elapse(s.world, a.delay), Apply(cfg, s, a);
      LaterSound(s.world, a.delay);
      CallKept(s.world, w, c);
      ExecOk(cfg, w, c);
      ExecCore(cfg, w, c);
      NextOk(cfg, w, c, a.outcome);
      forall i | i in t.calls ensures CallOk(t.world, t.calls[i]) {
        if i != a.id { CallKept(s.world, t.world, s.calls[i]); }
      }
    }
  }

  lemma {:induction false} RunSound(cfg: Config, s: Sys, acts: seq<Action>)
    requires Sound(s)
    ensures Sound(Run(cfg, s, acts))
    decreases |acts|
  {
    if acts != [] {
      ApplySound(cfg, s, acts[0]);
      RunSound(cfg, Apply(cfg, s, acts[0]), acts[1..]);
    }
  }

  /** From an empty core, whatever interleaves and whatever fails, each core
      record holds exactly the IMSI, APN, Ki, OPc, AMF and SST of the one SIM with
      that IMSI. */
  lemma CoreIsViewOfTable(cfg: Config, s: Sys, acts: seq<Action>)
    requires Initial(s)
    ensures var w := Run(cfg, s, acts).world;
            && (forall imsi :: imsi in w.core ==> exists id :: id in w.sims && w.sims[id].imsi == imsi && Shows(w.core[imsi], w.sims[id]))
            && (forall i, j :: i in w.sims && j in w.sims && w.sims[i].imsi == w.sims[j].imsi ==> i == j)
  {
    RunSound(cfg, s, acts);
    var w := Run(cfg, s, acts).world;
    forall imsi | imsi in w.core ensures exists id :: id in w.sims && w.sims[id].imsi == imsi && Shows(w.core[imsi], w.sims[id]) {
      assert HasCard(w, imsi, w.core[imsi]);
    }
  }

  /** A statement issued for one org leaves the rows and core records of every
      other org alone. */
  lemma OrgIsolation(cfg: Config, s: Sys, a: Action, other: Id)
    requires Sound(s) && a.Go? && a.id in s.calls
    requires other in s.world.sims && s.world.sims[other].org != s.calls[a.id].org
    ensures var t, imsi := Apply(cfg, s, a), s.world.sims[other].imsi;
            && other in t.world.sims && t.world.sims[other] == s.world.sims[other]
            && (imsi in t.world.core <==> imsi in s.world.core)
            && (imsi in s.world.core ==> t.world.core[imsi] == s.world.core[imsi])
  {
    var c := s.calls[a.id];
    assert CallOk(s.world, c);
    assert c.Insert? ==> s.world.supply !in s.world.sims;
  }
}
