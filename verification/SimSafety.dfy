/** Two-store safety: what a suspended, terminated or active status says about
    the 5G core, and which overlapping calls can break it. */
module SimSafety {
  import opened Common
  import opened SimLifecycle

  /** The SIM a call is on. */
  function SimOf(c: Call): Option<Id> {
    match c
    case NextMSIN(_, _) => None
    case Insert(_, _, _) => None
    case Provision(_, sim) => Some(sim.id)
    case Mark(_, id) => Some(id)
    case Reload(_, id) => Some(id)
    case Lookup(_, _, id) => Some(id)
    case CoreDelete(_, _, sim) => Some(sim.id)
    case CoreUpsert(_, sim) => Some(sim.id)
    case SetStatus(_, _, id) => Some(id)
  }

  // ---------------------------------------------------------- opposed calls

  /** A call that has yet to put SIM id into the core: a Create before its upsert,
      or a Resume that finds the row, before its upsert. */
  predicate Provisions(w: World, c: Call, id: Id) {
    match c
    case Provision(_, sim) => sim.id == id
    case CoreUpsert(_, sim) => sim.id == id
    case Lookup(op, org, x) => op.Resume? && x == id && id in w.sims && w.sims[id].org == org
    case _ => false
  }

  /** A Suspend or Terminate of SIM id, at any stage. */
  predicate Withdraws(w: World, c: Call, id: Id) {
    match c
    case CoreDelete(_, _, sim) => sim.id == id
    case SetStatus(op, _, x) => !op.Resume? && x == id
    case Lookup(op, org, x) => !op.Resume? && x == id && id in w.sims && w.sims[id].org == org
    case _ => false
  }

  ghost predicate Unopposed(s: Sys, id: Id) {
    forall i, j :: i in s.calls && j in s.calls && Provisions(s.world, s.calls[i], id) ==> !Withdraws(s.world, s.calls[j], id)
  }

  /** No step starts while a call about to provision the SIM overlaps one that
      withdraws it. */
  ghost predicate UnopposedRun(cfg: Config, s: Sys, acts: seq<Action>, id: Id)
    decreases |acts|
  {
    acts == [] || (Unopposed(s, id) && UnopposedRun(cfg, Apply(cfg, s, acts[0]), acts[1..], id))
  }

  /** Some Resume of the SIM replied with an error since its status last left
      active. */
  predicate ResumeFailed(log: seq<Event>, id: Id) {
    if log == [] then false else
    var e := log[|log|-1];
    if e == Replied(id, Resume, false) then true
    else if e.Wrote? && e.id == id && e.from == Active && e.to != Active then false
    else ResumeFailed(log[..|log|-1], id)
  }

  predicate Attachable(w: World, id: Id)
    requires id in w.sims
  {
    w.sims[id].imsi in w.core
  }

  /** A Create about to provision has an active row; a Suspend or Terminate about
      to write its status has taken the SIM out of the core. */
  ghost predicate CallSafe(w: World, c: Call)
    requires CallOk(w, c)
  {
    match c
    case Provision(_, sim) => w.sims[sim.id].status == Active
    case SetStatus(op, _, id) => op.Resume? || !Attachable(w, id)
    case _ => true
  }

  /** A resume that has put the SIM into the core and not yet written its status. */
  ghost predicate Resuming(s: Sys, id: Id) {
    exists i :: i in s.calls && s.calls[i].SetStatus? && s.calls[i].op.Resume? && s.calls[i].id == id
  }

  ghost predicate SimSafe(s: Sys, id: Id)
    requires id in s.world.sims
  {
    s.world.sims[id].status != Active && Attachable(s.world, id) ==> Resuming(s, id) || ResumeFailed(s.log, id)
  }

  ghost predicate Safe(s: Sys, id: Id)
    requires Sound(s)
  {
    && (forall i :: i in s.calls && SimOf(s.calls[i]) == Some(id) ==> CallOk(s.world, s.calls[i]) && CallSafe(s.world, s.calls[i]))
    && (id in s.world.sims ==> SimSafe(s, id))
  }

  lemma ResumeFailedAppend(log: seq<Event>, e: Event, id: Id)
    ensures ResumeFailed(log + [e], id) ==
            if e == Replied(id, Resume, false) then true
            else if e.Wrote? && e.id == id && e.from == Active && e.to != Active then false
            else ResumeFailed(log, id)
  {
    assert (log + [e])[..|log|] == log;
  }

  /** Events about other SIMs do not matter. */
  lemma ResumeFailedOther(w: World, c: Call, o: Outcome, n: Next, log: seq<Event>, id: Id)
    requires SimOf(c) != Some(id)
    ensures ResumeFailed(log + Written(w, c, o) + Answered(c, n), id) == ResumeFailed(log, id)
  {
    var a, b := Written(w, c, o), Answered(c, n);
    if a != [] { ResumeFailedAppend(log, a[0], id); } else { assert log + a == log; }
    if b != [] { ResumeFailedAppend(log + a, b[0], id); } else { assert log + a + b == log + a; }
  }

  /** The statement of a call on one SIM shows nothing to another. */
  lemma OtherSim(cfg: Config, w: World, c: Call, o: Outcome, id: Id)
    requires TableOk(w) && CallOk(w, c) && SimOf(c) != Some(id) && id in w.sims
    ensures var v := Effect(cfg, w, c, o);
            id in v.sims && v.sims[id] == w.sims[id] && (Attachable(v, id) <==> Attachable(w, id))
  {
  }

  /** Where a call's own SIM stands after its statement. */
  lemma OwnSim(cfg: Config, w: World, c: Call, o: Outcome)
    requires cfg.wired && TableOk(w) && CallOk(w, c) && CallSafe(w, c) && SimOf(c).Some? && SimOf(c).value in w.sims
    ensures var id, v, n := SimOf(c).value, Effect(cfg, w, c, o), Then(cfg, w, c, o);
            && id in v.sims
            && (n.Continue? ==> SimOf(n.call) == Some(id) && CallOk(v, n.call) && CallSafe(v, n.call))
            && (v.sims[id].status != Active && Attachable(v, id) ==>
                  || (n.Continue? && n.call.SetStatus? && n.call.op.Resume?)
                  || Answered(c, n) == [Replied(id, Resume, false)]
                  || (w.sims[id].status != Active && Attachable(w, id) && Written(w, c, o) == []
                      && !(c.SetStatus? && c.op.Resume?)))
  {
  }

  /** A call's statement leaves an unopposed call on the same SIM in order. */
  lemma OwnSimOthers(cfg: Config, w: World, c: Call, o: Outcome, d: Call, id: Id)
    requires TableOk(w) && CallOk(w, c) && CallOk(w, d) && CallSafe(w, d)
    requires SimOf(c) == Some(id) && SimOf(d) == Some(id) && id in w.sims
    requires Provisions(w, c, id) ==> !Withdraws(w, d, id)
    requires Provisions(w, d, id) ==> !Withdraws(w, c, id)
    requires CallOk(Effect(cfg, w, c, o), d)
    ensures CallSafe(Effect(cfg, w, c, o), d)
  {
  }

  /** A call on no row yet, or on an id that has none, changes no SIM. */
  lemma NoSim(cfg: Config, w: World, c: Call, o: Outcome)
    requires cfg.wired && TableOk(w) && CallOk(w, c) && (SimOf(c).None? || SimOf(c).value !in w.sims)
    ensures var v, n := Effect(cfg, w, c, o), Then(cfg, w, c, o);
            && v.core == w.core
            && (forall id :: id in v.sims && id !in w.sims ==> v.sims[id].status == Active)
            && (n.Continue? ==> CallOk(v, n.call) && CallSafe(v, n.call) && !n.call.SetStatus?)
  {
  }

  lemma StepOwn(cfg: Config, s: Sys, a: Action, id: Id)
    requires cfg.wired && Sound(s) && Safe(s, id) && a.Go? && a.id in s.calls
    requires SimOf(s.calls[a.id]) == Some(id) && id in s.world.sims && id in Apply(cfg, s, a).world.sims
    ensures SimSafe(Apply(cfg, s, a), id)
  {
    var c, w, t := s.calls[a.id], Elapse(s.world, a.delay), Apply(cfg, s, a);
    var n := Then(cfg, w, c, a.outcome);
    assert CallSafe(s.world, c) && CallSafe(w, c);
    OwnSim(cfg, w, c, a.outcome);
    if t.world.sims[id].status != Active && Attachable(t.world, id) {
      if n.Continue? && n.call.SetStatus? && n.call.op.Resume? {
        assert t.calls[a.id].SetStatus?;
      } else if Answered(c, n) == [Replied(id, Resume, false)] {
        ResumeFailedAppend(s.log + Written(w, c, a.outcome), Replied(id, Resume, false), id);
      } else {
        StillExplained(s, t, a.id, c, Written(w, c, a.outcome), Answered(c, n), id);
      }
    }
  }

  /** A step that changes neither the status nor the core keeps what explains them. */
  lemma StillExplained(s: Sys, t: Sys, i: nat, c: Call, written: seq<Event>, answered: seq<Event>, id: Id)
    requires Resuming(s, id) || ResumeFailed(s.log, id)
    requires i in s.calls && s.calls[i] == c && !(c.SetStatus? && c.op.Resume?)
    requires forall k :: k in s.calls && k != i ==> k in t.calls && t.calls[k] == s.calls[k]
    requires t.log == s.log + written + answered && written == []
    requires answered == [] || (exists op, ok :: answered == [Replied(id, op, ok)])
    ensures Resuming(t, id) || ResumeFailed(t.log, id)
  {
    if k :| k in s.calls && s.calls[k].SetStatus? && s.calls[k].op.Resume? && s.calls[k].id == id {
      assert t.calls[k] == s.calls[k];
    } else {
      assert s.log + written == s.log;
      if answered != [] {
        ResumeFailedAppend(s.log, answered[0], id);
      } else {
        assert s.log + answered == s.log;
      }
    }
  }

  lemma StepOther(cfg: Config, s: Sys, a: Action, id: Id)
    requires Sound(s) && Safe(s, id) && a.Go? && a.id in s.calls
    requires SimOf(s.calls[a.id]) != Some(id) && id in s.world.sims && id in Apply(cfg, s, a).world.sims
    ensures SimSafe(Apply(cfg, s, a), id)
  {
    var c, w, t := s.calls[a.id], Elapse(s.world, a.delay), Apply(cfg, s, a);
    assert SimSafe(s, id);
    OtherSim(cfg, w, c, a.outcome, id);
    ResumeFailedOther(w, c, a.outcome, Then(cfg, w, c, a.outcome), s.log, id);
    if i :| i in s.calls && s.calls[i].SetStatus? && s.calls[i].op.Resume? && s.calls[i].id == id {
      assert i != a.id && t.calls[i] == s.calls[i];
    }
  }

  lemma StepSim(cfg: Config, s: Sys, a: Action, id: Id)
    requires cfg.wired && Sound(s) && Safe(s, id) && a.Go? && a.id in s.calls
    requires id in Apply(cfg, s, a).world.sims
    ensures SimSafe(Apply(cfg, s, a), id)
  {
    if id !in s.world.sims {
      assert Apply(cfg, s, a).world.sims[id].status == Active;
    } else if SimOf(s.calls[a.id]) == Some(id) {
      StepOwn(cfg, s, a, id);
    } else {
      StepOther(cfg, s, a, id);
    }
  }

  /** The stepping call is left in order ... */
  lemma StepSelf(cfg: Config, s: Sys, a: Action, id: Id)
    requires cfg.wired && Sound(s) && Safe(s, id) && a.Go? && a.id in s.calls
    requires a.id in Apply(cfg, s, a).calls && SimOf(Apply(cfg, s, a).calls[a.id]) == Some(id)
    ensures var t := Apply(cfg, s, a); CallOk(t.world, t.calls[a.id]) && CallSafe(t.world, t.calls[a.id])
  {
    var c, w := s.calls[a.id], Elapse(s.world, a.delay);
    assert CallOk(s.world, c) && CallOk(w, c);
    if SimOf(c).Some? && SimOf(c).value in w.sims {
      NextSim(cfg, w, c, a.outcome);
      assert CallSafe(s.world, c) && CallSafe(w, c);
      OwnSim(cfg, w, c, a.outcome);
    } else {
      NoSim(cfg, w, c, a.outcome);
    }
  }

  /** A call stays on its SIM. */
  lemma NextSim(cfg: Config, w: World, c: Call, o: Outcome)
    requires TableOk(w) && CallOk(w, c) && SimOf(c).Some? && SimOf(c).value in w.sims && Then(cfg, w, c, o).Continue?
    ensures SimOf(Then(cfg, w, c, o).call) == SimOf(c)
  {
  }

  /** ... and so are the others. */
  lemma StepOthers(cfg: Config, s: Sys, a: Action, id: Id, j: nat)
    requires cfg.wired && Sound(s) && Unopposed(s, id) && Safe(s, id) && a.Go? && a.id in s.calls
    requires j in s.calls && j != a.id && SimOf(s.calls[j]) == Some(id)
    ensures var t := Apply(cfg, s, a); CallOk(t.world, t.calls[j]) && CallSafe(t.world, t.calls[j])
  {
    var c, d, w := s.calls[a.id], s.calls[j], Elapse(s.world, a.delay);
    OthersOk(cfg, s, a, j);
    assert CallOk(s.world, c) && CallOk(s.world, d) && CallSafe(s.world, d);
    if id in w.sims {
      if SimOf(c) == Some(id) {
        OwnSimOthers(cfg, w, c, a.outcome, d, id);
      } else {
        OtherSim(cfg, w, c, a.outcome, id);
      }
    }
  }

  lemma OthersOk(cfg: Config, s: Sys, a: Action, j: nat)
    requires Sound(s) && a.Go? && a.id in s.calls && j in s.calls && j != a.id
    ensures var t := Apply(cfg, s, a); j in t.calls && t.calls[j] == s.calls[j] && CallOk(t.world, s.calls[j])
  {
    ApplySound(cfg, s, a);
  }

  lemma BeginSafe(cfg: Config, s: Sys, a: Action, id: Id)
    requires Sound(s) && Safe(s, id) && Sound(Apply(cfg, s, a)) && !(a.Go? && a.id in s.calls)
    ensures Safe(Apply(cfg, s, a), id)
  {
    var t := Apply(cfg, s, a);
    if id in t.world.sims {
      assert SimSafe(s, id);
      if i :| i in s.calls && s.calls[i].SetStatus? && s.calls[i].op.Resume? && s.calls[i].id == id {
        assert t.calls[i] == s.calls[i];
      }
    }
  }

  lemma ApplySafe(cfg: Config, s: Sys, a: Action, id: Id)
    requires cfg.wired && Sound(s) && Unopposed(s, id) && Safe(s, id)
    ensures Sound(Apply(cfg, s, a)) && Safe(Apply(cfg, s, a), id)
  {
    ApplySound(cfg, s, a);
    if a.Go? && a.id in s.calls {
      var t := Apply(cfg, s, a);
      forall j | j in t.calls && SimOf(t.calls[j]) == Some(id) ensures CallOk(t.world, t.calls[j]) && CallSafe(t.world, t.calls[j]) {
        if j == a.id { StepSelf(cfg, s, a, id); } else { StepOthers(cfg, s, a, id, j); }
      }
      if id in t.world.sims { StepSim(cfg, s, a, id); }
    } else {
      BeginSafe(cfg, s, a, id);
    }
  }

  lemma {:induction false} RunSafe(cfg: Config, s: Sys, acts: seq<Action>, id: Id)
    requires cfg.wired && Sound(s) && Safe(s, id) && UnopposedRun(cfg, s, acts, id)
    ensures Sound(Run(cfg, s, acts)) && Safe(Run(cfg, s, acts), id)
    decreases |acts|
  {
    if acts != [] {
      ApplySafe(cfg, s, acts[0], id);
      RunSafe(cfg, Apply(cfg, s, acts[0]), acts[1..], id);
    }
  }

  /** Not active, in the core, with no call in flight, and no failed Resume to
      explain it. */
  ghost predicate Broken(s: Sys, id: Id) {
    && id in s.world.sims && s.world.sims[id].status != Active && Attachable(s.world, id)
    && (forall i :: i in s.calls ==> SimOf(s.calls[i]) != Some(id))
    && !ResumeFailed(s.log, id)
  }

  // ------------------------------------------- exactly when a SIM is trapped

  /** Whether a Resume has trapped SIM id in the core, after a step: an effective
      upsert by a Resume of it does; an effective delete of it, or an effective
      write of "active" by a Resume of it, undoes that; nothing else matters. */
  function TrapAfter(s: Sys, a: Action, id: Id, trapped: bool): bool {
    if !a.Go? || a.id !in s.calls || !a.outcome.Effective() then trapped else
    match s.calls[a.id]
    case CoreUpsert(_, sim) => sim.id == id || trapped
    case CoreDelete(_, _, sim) => sim.id != id && trapped
    case SetStatus(op, _, x) => !(op.Resume? && x == id) && trapped
    case _ => trapped
  }

  function Trap(cfg: Config, s: Sys, acts: seq<Action>, id: Id, trapped: bool): bool
    decreases |acts|
  {
    if acts == [] then trapped else Trap(cfg, Apply(cfg, s, acts[0]), acts[1..], id, TrapAfter(s, acts[0], id, trapped))
  }

  predicate Withdrawn(w: World, id: Id) {
    id in w.sims && w.sims[id].status != Active
  }

  ghost predicate Tracks(s: Sys, id: Id, trapped: bool) {
    && (Withdrawn(s.world, id) ==> (Attachable(s.world, id) <==> trapped))
    && (trapped ==> id in s.world.sims && forall i :: i in s.calls ==> !LastWithdrawing(s.calls[i], id))
  }

  /** A Suspend or Terminate about to write its status. */
  predicate LastWithdrawing(c: Call, id: Id) {
    c.SetStatus? && !c.op.Resume? && c.id == id
  }

  /** A statement of a call on the SIM itself. */
  lemma OwnTrap(cfg: Config, w: World, c: Call, o: Outcome, id: Id, trapped: bool)
    requires cfg.wired && TableOk(w) && CallOk(w, c) && CallSafe(w, c) && SimOf(c) == Some(id) && id in w.sims
    requires Withdrawn(w, id) ==> (Attachable(w, id) <==> trapped)
    requires LastWithdrawing(c, id) ==> !trapped
    ensures var v, n := Effect(cfg, w, c, o), Then(cfg, w, c, o);
            var now := TrapAfter(Sys(w, map[0 := c], []), Go(0, 0, o), id, trapped);
            && id in v.sims && (Withdrawn(v, id) ==> (Attachable(v, id) <==> now))
            && (n.Continue? && LastWithdrawing(n.call, id) ==> !now)
            && (now ==> trapped || c.CoreUpsert?)
  {
  }

  /** Where the SIM is trapped, no call in flight is about to withdraw it. */
  lemma NoneWithdrawing(s: Sys, c: Call, id: Id, trapped: bool)
    requires Tracks(s, id, trapped) && Unopposed(s, id) && (trapped || (c.CoreUpsert? && c.sim.id == id)) && c in s.calls.Values
    ensures forall i :: i in s.calls ==> !LastWithdrawing(s.calls[i], id)
  {
    var k :| k in s.calls && s.calls[k] == c;
    assert !trapped ==> Provisions(s.world, s.calls[k], id);
    forall i | i in s.calls ensures LastWithdrawing(s.calls[i], id) ==> Withdraws(s.world, s.calls[i], id) {}
  }

  lemma GoOwnTrap(cfg: Config, s: Sys, a: Action, id: Id, trapped: bool)
    requires cfg.wired && Sound(s) && Unopposed(s, id) && Safe(s, id) && Tracks(s, id, trapped)
    requires a.Go? && a.id in s.calls && SimOf(s.calls[a.id]) == Some(id) && id in s.world.sims
    ensures Tracks(Apply(cfg, s, a), id, TrapAfter(s, a, id, trapped))
  {
    var c, w := s.calls[a.id], Elapse(s.world, a.delay);
    assert CallOk(w, c) && CallSafe(s.world, c) && CallSafe(w, c);
    OwnTrap(cfg, w, c, a.outcome, id, trapped);
    if TrapAfter(s, a, id, trapped) {
      NoneWithdrawing(s, c, id, trapped);
    }
  }

  lemma GoOtherTrap(cfg: Config, s: Sys, a: Action, id: Id, trapped: bool)
    requires cfg.wired && Sound(s) && Tracks(s, id, trapped)
    requires a.Go? && a.id in s.calls && (SimOf(s.calls[a.id]) != Some(id) || id !in s.world.sims)
    ensures Tracks(Apply(cfg, s, a), id, TrapAfter(s, a, id, trapped))
  {
    var c, w, t := s.calls[a.id], Elapse(s.world, a.delay), Apply(cfg, s, a);
    assert CallOk(s.world, c) && CallOk(w, c);
    if id in s.world.sims {
      OtherSim(cfg, w, c, a.outcome, id);
      NextOther(cfg, w, c, a.outcome, id);
    }
    assert TrapAfter(s, a, id, trapped) == trapped;
  }

  /** A call moves to no SIM but its own, or a row it has just inserted. */
  lemma NextOther(cfg: Config, w: World, c: Call, o: Outcome, id: Id)
    requires TableOk(w) && CallOk(w, c) && SimOf(c) != Some(id) && id in w.sims
    ensures Then(cfg, w, c, o).Continue? ==> SimOf(Then(cfg, w, c, o).call) != Some(id)
  {
  }

  lemma ApplyTrap(cfg: Config, s: Sys, a: Action, id: Id, trapped: bool)
    requires cfg.wired && Sound(s) && Unopposed(s, id) && Safe(s, id) && Tracks(s, id, trapped)
    ensures Tracks(Apply(cfg, s, a), id, TrapAfter(s, a, id, trapped))
  {
    if a.Go? && a.id in s.calls {
      if SimOf(s.calls[a.id]) == Some(id) && id in s.world.sims {
        GoOwnTrap(cfg, s, a, id, trapped);
      } else {
        GoOtherTrap(cfg, s, a, id, trapped);
      }
    }
  }

  lemma {:induction false} RunTrap(cfg: Config, s: Sys, acts: seq<Action>, id: Id, trapped: bool)
    requires cfg.wired && Sound(s) && Safe(s, id) && UnopposedRun(cfg, s, acts, id) && Tracks(s, id, trapped)
    ensures Tracks(Run(cfg, s, acts), id, Trap(cfg, s, acts, id, trapped))
    decreases |acts|
  {
    if acts != [] {
      ApplyTrap(cfg, s, acts[0], id, trapped);
      ApplySafe(cfg, s, acts[0], id);
      RunTrap(cfg, Apply(cfg, s, acts[0]), acts[1..], id, TrapAfter(s, acts[0], id, trapped));
    }
  }

  /** With the core wired, as long as no Create or Resume of this SIM that has yet
      to upsert overlaps a Suspend or Terminate of it, whatever fails and however
      all other calls interleave: a SIM that is not active is in the core if and
      only if a Resume of it has upserted it and since then neither an effective
      delete nor an effective write of "active" has followed. In particular, with
      no call in flight on it, some Resume on it has replied with an error since
      its status last left active. */
  lemma TwoStoreSafety(cfg: Config, s: Sys, acts: seq<Action>, id: Id)
    requires cfg.wired && Initial(s) && UnopposedRun(cfg, s, acts, id)
    ensures var w := Run(cfg, s, acts).world;
            Withdrawn(w, id) ==> (Attachable(w, id) <==> Trap(cfg, s, acts, id, false))
    ensures !Broken(Run(cfg, s, acts), id)
  {
    RunSafe(cfg, s, acts, id);
    RunTrap(cfg, s, acts, id, false);
    assert Safe(Run(cfg, s, acts), id);
  }
}
