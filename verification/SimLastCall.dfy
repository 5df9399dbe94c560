/** The last successful call on a SIM decides its status and its place in the
    core, and exactly which overlaps can break that. */
module SimLastCall {
  import opened Common
  import opened SimLifecycle
  import opened SimSafety
  import opened SimOverlap

  // ------------------------------------------------------------ racing calls

  /** A Resume of SIM id that finds the row, at any stage. */
  predicate Revives(w: World, c: Call, id: Id) {
    match c
    case Lookup(op, org, x) => op.Resume? && x == id && id in w.sims && w.sims[id].org == org
    case CoreUpsert(_, sim) => sim.id == id
    case SetStatus(op, _, x) => op.Resume? && x == id
    case _ => false
  }

  /** A Suspend or Terminate of SIM id that has yet to take it out of the core. */
  predicate Removes(w: World, c: Call, id: Id) {
    match c
    case Lookup(op, org, x) => !op.Resume? && x == id && id in w.sims && w.sims[id].org == org
    case CoreDelete(_, _, sim) => sim.id == id
    case _ => false
  }

  ghost predicate NoRace(s: Sys, id: Id) {
    forall i, j :: i in s.calls && j in s.calls && Revives(s.world, s.calls[i], id) ==> !Removes(s.world, s.calls[j], id)
  }

  /** No step starts while a Resume of the SIM overlaps a Suspend or Terminate that
      has yet to take it out of the core. */
  ghost predicate NoRaceRun(cfg: Config, s: Sys, acts: seq<Action>, id: Id)
    decreases |acts|
  {
    acts == [] || (NoRace(s, id) && NoRaceRun(cfg, Apply(cfg, s, acts[0]), acts[1..], id))
  }

  // ------------------------------------------------- the last successful call

  /** A Resume about to write its status finds the SIM in the core. */
  ghost predicate ResumesIn(s: Sys, id: Id) {
    Resuming(s, id) ==> id in s.world.sims && Attachable(s.world, id)
  }

  /** Only a CoreDelete of the SIM takes it out of the core, and only the upsert of
      a Resume comes before its status write. */
  lemma StaysIn(cfg: Config, w: World, c: Call, o: Outcome, id: Id)
    requires cfg.wired && TableOk(w) && CallOk(w, c) && id in w.sims
    ensures var v, n := Effect(cfg, w, c, o), Then(cfg, w, c, o);
            && id in v.sims
            && (Attachable(w, id) && !Removes(w, c, id) ==> Attachable(v, id))
            && (n.Continue? && n.call.SetStatus? && n.call.op.Resume? && n.call.id == id ==> Attachable(v, id))
  {
  }

  lemma GoResumesIn(cfg: Config, s: Sys, a: Action, id: Id)
    requires cfg.wired && Sound(s) && a.Go? && a.id in s.calls && id in s.world.sims
    requires (Attachable(s.world, id) && !Removes(s.world, s.calls[a.id], id))
             || (a.id in Apply(cfg, s, a).calls && Apply(cfg, s, a).calls[a.id] == SetStatus(Resume, Apply(cfg, s, a).calls[a.id].org, id))
    ensures var t := Apply(cfg, s, a); id in t.world.sims && Attachable(t.world, id)
  {
    var c, w := s.calls[a.id], Elapse(s.world, a.delay);
    assert CallOk(s.world, c) && CallOk(w, c);
    StaysIn(cfg, w, c, a.outcome, id);
  }

  /** A call about to write "active" was at that point already, or is the one that
      has just stepped, on a row that was there. */
  lemma WasResuming(cfg: Config, s: Sys, a: Action, id: Id, k: nat)
    requires Sound(s) && k in Apply(cfg, s, a).calls
    requires Apply(cfg, s, a).calls[k].SetStatus? && Apply(cfg, s, a).calls[k].op.Resume? && Apply(cfg, s, a).calls[k].id == id
    ensures (a.Go? && a.id == k && k in s.calls && id in s.world.sims) || (k in s.calls && s.calls[k] == Apply(cfg, s, a).calls[k])
  {
    assert k in s.calls ==> CallOk(s.world, s.calls[k]);
  }

  lemma ApplyResumesIn(cfg: Config, s: Sys, a: Action, id: Id)
    requires cfg.wired && Sound(s) && NoRace(s, id) && ResumesIn(s, id)
    ensures ResumesIn(Apply(cfg, s, a), id)
  {
    if k :| k in Apply(cfg, s, a).calls && Apply(cfg, s, a).calls[k].SetStatus? && Apply(cfg, s, a).calls[k].op.Resume?
            && Apply(cfg, s, a).calls[k].id == id
    {
      WasResuming(cfg, s, a, id, k);
      if a.Go? && a.id in s.calls {
        GoResumesIn(cfg, s, a, id);
      }
    }
  }

  lemma {:induction false} RunResumesIn(cfg: Config, s: Sys, acts: seq<Action>, id: Id)
    requires cfg.wired && Sound(s) && ResumesIn(s, id) && NoRaceRun(cfg, s, acts, id)
    ensures ResumesIn(Run(cfg, s, acts), id)
    decreases |acts|
  {
    if acts != [] {
      ApplyResumesIn(cfg, s, acts[0], id);
      ApplySound(cfg, s, acts[0]);
      RunResumesIn(cfg, Apply(cfg, s, acts[0]), acts[1..], id);
    }
  }

  /** The last successful call decides, whatever failed before it. When Suspend or
      Terminate replies nil the SIM has that status and is not in the core, as long
      as no Create or Resume yet to upsert has overlapped a Suspend or Terminate;
      when Resume replies nil it is active and in the core with its stored keys, as
      long as no Resume has overlapped a Suspend or Terminate yet to delete. */
  lemma LastSuccessDecides(cfg: Config, s: Sys, acts: seq<Action>, i: nat, delay: nat, o: Outcome)
    requires cfg.wired && Initial(s)
    requires var t := Run(cfg, s, acts);
             i in t.calls && t.calls[i].SetStatus? && Then(cfg, Elapse(t.world, delay), t.calls[i], o) == Return(Changed)
    requires var c := Run(cfg, s, acts).calls[i];
             if c.op.Resume? then NoRaceRun(cfg, s, acts, c.id) else UnopposedRun(cfg, s, acts, c.id)
    ensures var c := Run(cfg, s, acts).calls[i];
            var w := Apply(cfg, Run(cfg, s, acts), Go(i, delay, o)).world;
            && c.id in w.sims && w.sims[c.id].status == (if c.op.Suspend? then Suspended else if c.op.Terminate? then Terminated else Active)
            && (if c.op.Resume? then Attachable(w, c.id) && Shows(w.core[w.sims[c.id].imsi], w.sims[c.id])
                else !Attachable(w, c.id))
  {
    var t := Run(cfg, s, acts);
    var c := t.calls[i];
    RunSound(cfg, s, acts);
    if c.op.Resume? {
      RunResumesIn(cfg, s, acts, c.id);
      assert Resuming(t, c.id);
    } else {
      RunSafe(cfg, s, acts, c.id);
      assert CallSafe(t.world, c);
    }
    WriteDecides(cfg, t, i, delay, o);
  }

  lemma WriteDecides(cfg: Config, t: Sys, i: nat, delay: nat, o: Outcome)
    requires Sound(t) && i in t.calls && t.calls[i].SetStatus? && Then(cfg, Elapse(t.world, delay), t.calls[i], o) == Return(Changed)
    requires t.calls[i].id in t.world.sims && (t.calls[i].op.Resume? <==> Attachable(t.world, t.calls[i].id))
    ensures var c := t.calls[i];
            var w := Apply(cfg, t, Go(i, delay, o)).world;
            && c.id in w.sims && w.sims[c.id].status == (if c.op.Suspend? then Suspended else if c.op.Terminate? then Terminated else Active)
            && (if c.op.Resume? then Attachable(w, c.id) && Shows(w.core[w.sims[c.id].imsi], w.sims[c.id])
                else !Attachable(w, c.id))
  {
    var c, w := t.calls[i], Apply(cfg, t, Go(i, delay, o)).world;
    ApplySound(cfg, t, Go(i, delay, o));
    if c.op.Resume? {
      OneCard(w, c.id);
    }
  }

  lemma OneCard(w: World, id: Id)
    requires TableOk(w) && CoreIsView(w) && id in w.sims && Attachable(w, id)
    ensures Shows(w.core[w.sims[id].imsi], w.sims[id])
  {
    var imsi := w.sims[id].imsi;
    assert HasCard(w, imsi, w.core[imsi]);
  }

  // ---------------------------------------------------------- exact conditions

  lemma ReviveStep(cfg: Config, s: Sys, i: nat, id: Id)
    requires cfg.wired && Sound(s) && i in s.calls && Revives(s.world, s.calls[i], id) && !s.calls[i].SetStatus?
    ensures var t := Apply(cfg, s, Step(i));
            && Sound(t) && t.world.sims == s.world.sims && i in t.calls && t.calls == s.calls[i := t.calls[i]]
            && Revives(t.world, t.calls[i], id) && ProvisionSteps(t.calls[i]) < ProvisionSteps(s.calls[i])
  {
    ApplySound(cfg, s, Step(i));
    assert CallOk(s.world, s.calls[i]);
  }

  /** A Resume can go to its last write. */
  lemma {:induction false} ToResumeWrite(cfg: Config, s: Sys, i: nat, id: Id) returns (acts: seq<Action>)
    requires cfg.wired && Sound(s) && i in s.calls && Revives(s.world, s.calls[i], id)
    ensures MovesCall(acts, i)
    ensures var t := Run(cfg, s, acts);
            && Sound(t) && t.world.sims == s.world.sims && i in t.calls && t.calls == s.calls[i := t.calls[i]]
            && AboutToWrite(t.calls[i], Resume, id)
    decreases ProvisionSteps(s.calls[i])
  {
    if s.calls[i].SetStatus? {
      acts := [];
    } else {
      var t := Apply(cfg, s, Step(i));
      ReviveStep(cfg, s, i, id);
      var rest := ToResumeWrite(cfg, t, i, id);
      acts := [Step(i)] + rest;
      assert acts[1..] == rest && s.calls[i := t.calls[i]][i := Run(cfg, t, rest).calls[i]] == s.calls[i := Run(cfg, t, rest).calls[i]];
    }
  }

  /** From every state in which a Resume, at any stage, overlaps a Suspend or
      Terminate that has yet to delete: the SIM can be out of the core when the
      Resume comes to write "active", and so replies nil. */
  lemma OverlapUndoesResume(cfg: Config, s: Sys, i: nat, j: nat, id: Id) returns (acts: seq<Action>)
    requires cfg.wired && Sound(s) && i in s.calls && j in s.calls && id in s.world.sims
    requires Revives(s.world, s.calls[i], id) && Removes(s.world, s.calls[j], id)
    ensures forall a :: a in acts ==> a.Go? && (a.id == i || a.id == j)
    ensures var t := Run(cfg, s, acts);
            && i in t.calls && AboutToWrite(t.calls[i], Resume, id) && id in t.world.sims && !Attachable(t.world, id)
            && Then(cfg, t.world, t.calls[i], Done) == Return(Changed)
            && var u := Apply(cfg, t, Step(i)).world;
               id in u.sims && u.sims[id].status == Active && !Attachable(u, id)
  {
    var first := ToResumeWrite(cfg, s, i, id);
    var t := Run(cfg, s, first);
    var second := ToLastWrite(cfg, t, j, id);
    RunConcat(cfg, s, first, second);
    acts := first + second;
    LateWrite(cfg, Run(cfg, t, second), i, id);
  }

  lemma LateWrite(cfg: Config, t: Sys, i: nat, id: Id)
    requires i in t.calls && AboutToWrite(t.calls[i], Resume, id) && id in t.world.sims && !Attachable(t.world, id)
    ensures Then(cfg, t.world, t.calls[i], Done) == Return(Changed)
    ensures var u := Apply(cfg, t, Step(i)).world;
            id in u.sims && u.sims[id].status == Active && !Attachable(u, id)
  {
  }

  /** Calls on a SIM stay reviving, or removing, only if they were. */
  lemma NextRace(cfg: Config, w: World, c: Call, o: Outcome, id: Id)
    requires cfg.wired && TableOk(w) && CallOk(w, c) && SimOf(c) == Some(id) && id in w.sims
    ensures var v, n := Effect(cfg, w, c, o), Then(cfg, w, c, o);
            && id in v.sims && v.sims[id].org == w.sims[id].org
            && (n.Continue? ==> SimOf(n.call) == Some(id))
            && (n.Continue? && Revives(v, n.call, id) ==> Revives(w, c, id))
            && (n.Continue? && Removes(v, n.call, id) ==> Removes(w, c, id))
  {
  }

  lemma OrgStaysRace(w: World, v: World, c: Call, id: Id)
    requires id in w.sims && id in v.sims && v.sims[id].org == w.sims[id].org
    ensures (Revives(v, c, id) <==> Revives(w, c, id)) && (Removes(v, c, id) <==> Removes(w, c, id))
  {
  }

  lemma StepKeepsNoRace(cfg: Config, s: Sys, a: Action, id: Id)
    requires cfg.wired && Sound(s) && a.Go? && a.id in s.calls && SimOf(s.calls[a.id]) == Some(id) && id in s.world.sims && NoRace(s, id)
    ensures var t := Apply(cfg, s, a);
            && id in t.world.sims && NoRace(t, id)
            && (forall k :: k in t.calls ==> k in s.calls && SimOf(t.calls[k]) == SimOf(s.calls[k]))
  {
    var t, w, c := Apply(cfg, s, a), Elapse(s.world, a.delay), s.calls[a.id];
    assert CallOk(s.world, c) && CallOk(w, c);
    NextRace(cfg, w, c, a.outcome, id);
    OrgStaysRace(w, s.world, c, id);
    forall k | k in t.calls
      ensures k in s.calls && SimOf(t.calls[k]) == SimOf(s.calls[k])
      ensures Revives(t.world, t.calls[k], id) ==> Revives(s.world, s.calls[k], id)
      ensures Removes(t.world, t.calls[k], id) ==> Removes(s.world, s.calls[k], id)
    {
      if k != a.id {
        OrgStaysRace(s.world, t.world, s.calls[k], id);
      }
    }
  }

  lemma {:induction false} StayApart(cfg: Config, s: Sys, acts: seq<Action>, id: Id)
    requires cfg.wired && Sound(s) && id in s.world.sims && NoRace(s, id) && MovesOnly(s, acts, id)
    ensures NoRaceRun(cfg, s, acts, id)
    decreases |acts|
  {
    if acts != [] {
      var a := acts[0];
      assert a in acts && forall b :: b in acts[1..] ==> b in acts;
      ApplySound(cfg, s, a);
      if a.id in s.calls {
        StepKeepsNoRace(cfg, s, a, id);
      }
      StayApart(cfg, Apply(cfg, s, a), acts[1..], id);
    }
  }

  lemma RaceBreaks(cfg: Config, s: Sys, id: Id) returns (acts: seq<Action>)
    requires cfg.wired && Sound(s) && id in s.world.sims && !NoRace(s, id)
    ensures MovesOnly(s, acts, id) && !ResumesIn(Run(cfg, s, acts), id)
  {
    var i, j :| i in s.calls && j in s.calls && Revives(s.world, s.calls[i], id) && Removes(s.world, s.calls[j], id);
    acts := OverlapUndoesResume(cfg, s, i, j, id);
    assert SimOf(s.calls[i]) == Some(id) && SimOf(s.calls[j]) == Some(id);
    assert Resuming(Run(cfg, s, acts), id);
  }

  /** The condition of the Resume half of LastSuccessDecides is exact. As long as no
      step has started with such a race, that every Resume of the SIM that comes to
      write "active" finds it in the core, however the calls then in flight on it
      move among themselves, is the same as that no two of them race. */
  lemma ResumeExact(cfg: Config, start: Sys, before: seq<Action>, id: Id)
    requires cfg.wired && Initial(start) && NoRaceRun(cfg, start, before, id)
    requires id in Run(cfg, start, before).world.sims
    ensures var s := Run(cfg, start, before);
            (forall acts :: MovesOnly(s, acts, id) ==> ResumesIn(Run(cfg, s, acts), id)) <==> NoRace(s, id)
  {
    RunSound(cfg, start, before);
    RunResumesIn(cfg, start, before, id);
    var s := Run(cfg, start, before);
    if NoRace(s, id) {
      forall acts | MovesOnly(s, acts, id) ensures ResumesIn(Run(cfg, s, acts), id) {
        StayApart(cfg, s, acts, id);
        RunResumesIn(cfg, s, acts, id);
      }
    } else {
      var acts := RaceBreaks(cfg, s, id);
    }
  }

  /** A Suspend or Terminate about to write its status finds the SIM out of the
      core. */
  ghost predicate WithdrawsOut(s: Sys, id: Id) {
    forall i :: i in s.calls && LastWithdrawing(s.calls[i], id) && id in s.world.sims ==> !Attachable(s.world, id)
  }

  lemma SafeWithdrawsOut(s: Sys, id: Id)
    requires Sound(s) && Safe(s, id)
    ensures WithdrawsOut(s, id)
  {
    forall i | i in s.calls && LastWithdrawing(s.calls[i], id) && id in s.world.sims ensures !Attachable(s.world, id) {
      assert CallOk(s.world, s.calls[i]) && CallSafe(s.world, s.calls[i]);
    }
  }

  lemma OpposedLeavesIn(cfg: Config, s: Sys, id: Id) returns (acts: seq<Action>)
    requires cfg.wired && Sound(s) && Safe(s, id) && id in s.world.sims && !Unopposed(s, id)
    ensures MovesOnly(s, acts, id) && !WithdrawsOut(Run(cfg, s, acts), id)
  {
    var i, j :| i in s.calls && j in s.calls && Provisions(s.world, s.calls[i], id) && Withdraws(s.world, s.calls[j], id);
    assert SimOf(s.calls[i]) == Some(id) && SimOf(s.calls[j]) == Some(id) && CallSafe(s.world, s.calls[i]);
    var first, second := ToBrink(cfg, s, i, j, id);
    RunConcat(cfg, s, first, second);
    acts := first + second;
    assert LastWithdrawing(Run(cfg, s, acts).calls[j], id);
  }

  /** The condition of the other half is exact in the same sense. */
  lemma WithdrawExact(cfg: Config, start: Sys, before: seq<Action>, id: Id)
    requires cfg.wired && Initial(start) && UnopposedRun(cfg, start, before, id)
    requires id in Run(cfg, start, before).world.sims
    ensures var s := Run(cfg, start, before);
            (forall acts :: MovesOnly(s, acts, id) ==> WithdrawsOut(Run(cfg, s, acts), id)) <==> Unopposed(s, id)
  {
    RunSafe(cfg, start, before, id);
    var s := Run(cfg, start, before);
    if Unopposed(s, id) {
      forall acts | MovesOnly(s, acts, id) ensures WithdrawsOut(Run(cfg, s, acts), id) {
        StayUnopposed(cfg, s, acts, id);
        RunSafe(cfg, s, acts, id);
        SafeWithdrawsOut(Run(cfg, s, acts), id);
      }
    } else {
      var acts := OpposedLeavesIn(cfg, s, id);
    }
  }

  // ------------------------------------------------------ serial calls on a SIM

  /** No call that puts the SIM into the core overlaps a Suspend or Terminate. */
  ghost predicate Uncontended(s: Sys, id: Id) {
    && Unopposed(s, id)
    && (Resuming(s, id) ==> forall j :: j in s.calls ==> !Withdraws(s.world, s.calls[j], id))
  }

  lemma RaceKinds(w: World, c: Call, d: Call, id: Id)
    ensures Revives(w, c, id) ==> Provisions(w, c, id) || AboutToWrite(c, Resume, id)
    ensures Removes(w, d, id) ==> Withdraws(w, d, id)
  {
  }

  lemma UncontendedIsNoRace(s: Sys, id: Id)
    requires Uncontended(s, id)
    ensures Unopposed(s, id) && NoRace(s, id)
  {
    forall i, j | i in s.calls && j in s.calls && Revives(s.world, s.calls[i], id) ensures !Removes(s.world, s.calls[j], id) {
      RaceKinds(s.world, s.calls[i], s.calls[j], id);
    }
  }

  ghost predicate Serial(s: Sys) {
    forall i, j :: i in s.calls && j in s.calls && i != j && SimOf(s.calls[i]).Some? ==> SimOf(s.calls[i]) != SimOf(s.calls[j])
  }

  ghost predicate SerialRun(cfg: Config, s: Sys, acts: seq<Action>)
    decreases |acts|
  {
    acts == [] || (Serial(s) && SerialRun(cfg, Apply(cfg, s, acts[0]), acts[1..]))
  }

  lemma SerialIsUncontended(s: Sys, id: Id)
    requires Serial(s)
    ensures Uncontended(s, id)
  {
    forall i, j | i in s.calls && j in s.calls && Withdraws(s.world, s.calls[j], id)
      ensures !Provisions(s.world, s.calls[i], id)
      ensures !(s.calls[i].SetStatus? && s.calls[i].op.Resume? && s.calls[i].id == id)
    {
      assert SimOf(s.calls[j]) == Some(id);
      assert i != j ==> SimOf(s.calls[i]) != Some(id);
    }
  }

  ghost predicate UncontendedRun(cfg: Config, s: Sys, acts: seq<Action>, id: Id)
    decreases |acts|
  {
    acts == [] || (Uncontended(s, id) && UncontendedRun(cfg, Apply(cfg, s, acts[0]), acts[1..], id))
  }

  lemma {:induction false} UncontendedRunIsApart(cfg: Config, s: Sys, acts: seq<Action>, id: Id)
    requires UncontendedRun(cfg, s, acts, id)
    ensures UnopposedRun(cfg, s, acts, id) && NoRaceRun(cfg, s, acts, id)
    decreases |acts|
  {
    if acts != [] {
      UncontendedIsNoRace(s, id);
      UncontendedRunIsApart(cfg, Apply(cfg, s, acts[0]), acts[1..], id);
    }
  }

  /** So all these laws hold of every SIM when calls on one SIM do not overlap. */
  lemma {:induction false} SerialRunIsUncontended(cfg: Config, s: Sys, acts: seq<Action>, id: Id)
    requires SerialRun(cfg, s, acts)
    ensures UncontendedRun(cfg, s, acts, id) && UnopposedRun(cfg, s, acts, id) && NoRaceRun(cfg, s, acts, id)
    decreases |acts|
  {
    if acts != [] {
      SerialIsUncontended(s, id);
      UncontendedIsNoRace(s, id);
      SerialRunIsUncontended(cfg, Apply(cfg, s, acts[0]), acts[1..], id);
    }
  }
}
