/** Exactly which overlapping calls on one SIM can leave it not active and in the
    core: a Create or Resume that has yet to upsert, with a Suspend or Terminate
    at any stage. */
module SimOverlap {
  import opened Common
  import opened SimLifecycle
  import opened SimSafety

  lemma {:induction false} RunConcat(cfg: Config, s: Sys, a: seq<Action>, b: seq<Action>)
    ensures Run(cfg, s, a + b) == Run(cfg, Run(cfg, s, a), b)
    decreases |a|
  {
    if a == [] {
      assert a + b == b;
    } else {
      assert (a + b)[0] == a[0] && (a + b)[1..] == a[1..] + b;
      RunConcat(cfg, Apply(cfg, s, a[0]), a[1..], b);
    }
  }

  function Step(i: nat): Action {
    Go(i, 0, Done)
  }

  ghost predicate MovesCall(acts: seq<Action>, i: nat) {
    forall a :: a in acts ==> a.Go? && a.id == i
  }

  // ------------------------------------- a withdrawing call, up to its last write

  function WithdrawSteps(c: Call): nat {
    match c
    case Lookup(_, _, _) => 2
    case CoreDelete(_, _, _) => 1
    case _ => 0
  }

  predicate AboutToWrite(c: Call, op: Op, id: Id) {
    c.SetStatus? && c.op == op && c.id == id
  }

  function OpOf(c: Call): Op {
    match c
    case Lookup(op, _, _) => op
    case CoreDelete(op, _, _) => op
    case SetStatus(op, _, _) => op
    case _ => Resume
  }

  lemma WithdrawStep(cfg: Config, s: Sys, j: nat, id: Id)
    requires cfg.wired && Sound(s) && j in s.calls && Withdraws(s.world, s.calls[j], id) && !s.calls[j].SetStatus? && id in s.world.sims
    ensures var t := Apply(cfg, s, Step(j));
            && Sound(t) && t.log == s.log && t.world.sims == s.world.sims
            && j in t.calls && t.calls == s.calls[j := t.calls[j]]
            && Withdraws(t.world, t.calls[j], id) && OpOf(t.calls[j]) == OpOf(s.calls[j])
            && WithdrawSteps(t.calls[j]) < WithdrawSteps(s.calls[j])
            && (t.calls[j].SetStatus? ==> !Attachable(t.world, id))
  {
    ApplySound(cfg, s, Step(j));
    assert CallOk(s.world, s.calls[j]);
  }

  lemma {:induction false} ToLastWrite(cfg: Config, s: Sys, j: nat, id: Id) returns (acts: seq<Action>)
    requires cfg.wired && Sound(s) && j in s.calls && Withdraws(s.world, s.calls[j], id) && id in s.world.sims
    ensures MovesCall(acts, j)
    ensures var t := Run(cfg, s, acts);
            && Sound(t) && t.log == s.log && t.world.sims == s.world.sims
            && j in t.calls && t.calls == s.calls[j := t.calls[j]]
            && AboutToWrite(t.calls[j], OpOf(s.calls[j]), id) && !OpOf(s.calls[j]).Resume?
            && ((s.calls[j].SetStatus? ==> !Attachable(s.world, id)) ==> !Attachable(t.world, id))
    decreases WithdrawSteps(s.calls[j])
  {
    if s.calls[j].SetStatus? {
      acts := [];
    } else {
      var t := Apply(cfg, s, Step(j));
      WithdrawStep(cfg, s, j, id);
      var rest := ToLastWrite(cfg, t, j, id);
      acts := [Step(j)] + rest;
      assert acts[1..] == rest && s.calls[j := t.calls[j]][j := Run(cfg, t, rest).calls[j]] == s.calls[j := Run(cfg, t, rest).calls[j]];
    }
  }

  /** The history is faithful: a status change is logged as answered when and as
      its caller is, and a status is logged as written when and as a row shows it. */
  lemma RepliesAreLogged(cfg: Config, w: World, c: Call, o: Outcome)
    requires c.Lookup? || c.CoreDelete? || c.CoreUpsert? || c.SetStatus?
    ensures var n := Then(cfg, w, c, o);
            Answered(c, n) == if n.Return? then [Replied(SimOf(c).value, OpOf(c), n.reply == Changed)] else []
  {
  }

  lemma WritesAreLogged(cfg: Config, w: World, c: Call, o: Outcome, id: Id)
    requires TableOk(w) && id in w.sims
    ensures var v := Effect(cfg, w, c, o);
            && id in v.sims
            && (v.sims[id].status != w.sims[id].status ==> Written(w, c, o) == [Wrote(id, w.sims[id].status, v.sims[id].status)])
            && (Written(w, c, o) != [] && Written(w, c, o)[0].id == id ==>
                  Written(w, c, o) == [Wrote(id, w.sims[id].status, v.sims[id].status)])
  {
  }

  // ------------------------------------------- a provisioning call, to its reply

  function ProvisionSteps(c: Call): nat {
    match c
    case Lookup(_, _, _) => 3
    case CoreUpsert(_, _) => 2
    case SetStatus(_, _, _) => 1
    case Provision(_, _) => 3
    case Mark(_, _) => 2
    case Reload(_, _) => 1
    case _ => 0
  }

  /** A Resume, rather than a Create. */
  predicate Resumes(c: Call) {
    c.Lookup? || c.CoreUpsert? || c.SetStatus?
  }

  predicate Finishing(w: World, c: Call, id: Id) {
    && id in w.sims
    && (Provisions(w, c, id)
        || (Attachable(w, id) && match c
                                 case SetStatus(op, _, x) => op.Resume? && x == id
                                 case Mark(_, x) => x == id
                                 case Reload(_, x) => x == id
                                 case _ => false))
  }

  /** One more statement of call i done: it goes on, or has replied. */
  ghost predicate Stepped(s: Sys, t: Sys, i: nat, id: Id)
    requires i in s.calls && id in s.world.sims
  {
    && id in t.world.sims
    && (s.world.sims[id].status == Active ==> t.world.sims[id].status == Active)
    && (if i in t.calls then
          && t.calls == s.calls[i := t.calls[i]] && t.log == s.log && Finishing(t.world, t.calls[i], id)
          && (Resumes(t.calls[i]) <==> Resumes(s.calls[i])) && ProvisionSteps(t.calls[i]) < ProvisionSteps(s.calls[i])
        else
          && t.calls == s.calls - {i} && Attachable(t.world, id)
          && (Resumes(s.calls[i]) ==> t.world.sims[id].status == Active && Replied(id, Resume, true) in t.log))
  }

  lemma ResumeStep(cfg: Config, s: Sys, i: nat, id: Id)
    requires cfg.wired && TableOk(s.world) && i in s.calls && CallOk(s.world, s.calls[i]) && Finishing(s.world, s.calls[i], id)
    requires Resumes(s.calls[i])
    ensures Stepped(s, Apply(cfg, s, Step(i)), i, id)
  {
  }

  lemma CreateStep(cfg: Config, s: Sys, i: nat, id: Id)
    requires cfg.wired && TableOk(s.world) && i in s.calls && CallOk(s.world, s.calls[i]) && Finishing(s.world, s.calls[i], id)
    requires !Resumes(s.calls[i])
    ensures Stepped(s, Apply(cfg, s, Step(i)), i, id)
  {
  }

  lemma ProvisionStep(cfg: Config, s: Sys, i: nat, id: Id)
    requires cfg.wired && Sound(s) && i in s.calls && Finishing(s.world, s.calls[i], id)
    ensures Sound(Apply(cfg, s, Step(i))) && Stepped(s, Apply(cfg, s, Step(i)), i, id)
  {
    ApplySound(cfg, s, Step(i));
    assert CallOk(s.world, s.calls[i]);
    if Resumes(s.calls[i]) {
      ResumeStep(cfg, s, i, id);
    } else {
      CreateStep(cfg, s, i, id);
    }
  }

  lemma {:induction false} ToReply(cfg: Config, s: Sys, i: nat, id: Id) returns (acts: seq<Action>)
    requires cfg.wired && Sound(s) && i in s.calls && Finishing(s.world, s.calls[i], id)
    ensures MovesCall(acts, i)
    ensures var t := Run(cfg, s, acts);
            && Sound(t) && t.calls == s.calls - {i} && id in t.world.sims && Attachable(t.world, id)
            && (s.world.sims[id].status == Active || Resumes(s.calls[i]) ==> t.world.sims[id].status == Active)
            && (Resumes(s.calls[i]) ==> Replied(id, Resume, true) in t.log)
    decreases ProvisionSteps(s.calls[i])
  {
    var t := Apply(cfg, s, Step(i));
    ProvisionStep(cfg, s, i, id);
    if i in t.calls {
      var rest := ToReply(cfg, t, i, id);
      acts := [Step(i)] + rest;
      assert acts[1..] == rest && t.calls - {i} == s.calls - {i};
    } else {
      acts := [Step(i)];
      assert Run(cfg, t, []) == t;
    }
  }

  // ------------------------------------------------------- opposed calls break

  /** The withdrawing call's last write, after the SIM has been provisioned. */
  lemma LastWrite(cfg: Config, s: Sys, j: nat, op: Op, id: Id)
    requires Sound(s) && j in s.calls && AboutToWrite(s.calls[j], op, id) && !op.Resume?
    requires id in s.world.sims && s.world.sims[id].status == Active && Attachable(s.world, id)
    ensures var t := Apply(cfg, s, Step(j));
            && Sound(t) && t.calls == s.calls - {j}
            && id in t.world.sims && t.world.sims[id].status == op.Target() && Attachable(t.world, id)
            && !ResumeFailed(t.log, id) && t.log == s.log + [Wrote(id, Active, op.Target()), Replied(id, op, true)]
  {
    ApplySound(cfg, s, Step(j));
    var wrote := Wrote(id, Active, op.Target());
    ResumeFailedAppend(s.log, wrote, id);
    ResumeFailedAppend(s.log + [wrote], Replied(id, op, true), id);
    assert s.log + [wrote] + [Replied(id, op, true)] == s.log + [wrote, Replied(id, op, true)];
  }

  /** The withdrawing call goes to its last write, then the other to its reply. */
  lemma ToBrink(cfg: Config, s: Sys, i: nat, j: nat, id: Id) returns (first: seq<Action>, second: seq<Action>)
    requires cfg.wired && Sound(s) && i in s.calls && j in s.calls && id in s.world.sims
    requires Provisions(s.world, s.calls[i], id) && Withdraws(s.world, s.calls[j], id)
    requires s.calls[i].Provision? ==> s.world.sims[id].status == Active
    ensures MovesCall(first, j) && MovesCall(second, i) && !OpOf(s.calls[j]).Resume?
    ensures var t := Run(cfg, Run(cfg, s, first), second);
            && Sound(t) && j in t.calls && t.calls - {j} == s.calls - {i} - {j} && AboutToWrite(t.calls[j], OpOf(s.calls[j]), id)
            && id in t.world.sims && t.world.sims[id].status == Active && Attachable(t.world, id)
            && (Resumes(s.calls[i]) ==> Replied(id, Resume, true) in t.log)
  {
    first := ToLastWrite(cfg, s, j, id);
    var s1 := Run(cfg, s, first);
    assert CallOk(s.world, s.calls[i]);
    assert Provisions(s1.world, s1.calls[i], id);
    second := ToReply(cfg, s1, i, id);
    SameLeft(s.calls, s1.calls, Run(cfg, s1, second).calls, i, j);
  }

  /** When a Create or Resume that has yet to upsert overlaps a Suspend or
      Terminate, at whatever stage, both can reply nil and leave the SIM with the
      withdrawn status and in the core, with no failed Resume to explain it. */
  lemma OverlapBreaksTwoStores(cfg: Config, s: Sys, i: nat, j: nat, id: Id) returns (acts: seq<Action>)
    requires cfg.wired && Sound(s) && i in s.calls && j in s.calls && id in s.world.sims
    requires Provisions(s.world, s.calls[i], id) && Withdraws(s.world, s.calls[j], id)
    requires s.calls[i].Provision? ==> s.world.sims[id].status == Active
    ensures forall a :: a in acts ==> a.Go? && (a.id == i || a.id == j)
    ensures var t, op := Run(cfg, s, acts), OpOf(s.calls[j]);
            && t.calls == s.calls - {i} - {j}
            && id in t.world.sims && t.world.sims[id].status == (if op.Suspend? then Suspended else Terminated) && Attachable(t.world, id)
            && !ResumeFailed(t.log, id) && Replied(id, op, true) in t.log
            && (Resumes(s.calls[i]) ==> Replied(id, Resume, true) in t.log)
  {
    var first, second := ToBrink(cfg, s, i, j, id);
    LastWrite(cfg, Run(cfg, Run(cfg, s, first), second), j, OpOf(s.calls[j]), id);
    RunThree(cfg, s, first, second, Step(j));
    acts := first + (second + [Step(j)]);
  }

  lemma RunThree(cfg: Config, s: Sys, a: seq<Action>, b: seq<Action>, last: Action)
    ensures Run(cfg, s, a + (b + [last])) == Apply(cfg, Run(cfg, Run(cfg, s, a), b), last)
  {
    var s1 := Run(cfg, s, a);
    var s2 := Run(cfg, s1, b);
    assert [last][1..] == [] && Run(cfg, s2, [last]) == Run(cfg, Apply(cfg, s2, last), []);
    RunConcat(cfg, s1, b, [last]);
    RunConcat(cfg, s, a, b + [last]);
  }

  lemma SameLeft(a: map<nat, Call>, b: map<nat, Call>, c: map<nat, Call>, i: nat, j: nat)
    requires j in a && j in b && b == a[j := b[j]] && c == b - {i}
    ensures c - {j} == a - {i} - {j}
  {
  }

  // ------------------------------------------------------------ the exact condition

  /** Only calls on the SIM move. */
  ghost predicate MovesOnly(s: Sys, acts: seq<Action>, id: Id) {
    forall a :: a in acts ==> a.Go? && (a.id in s.calls ==> SimOf(s.calls[a.id]) == Some(id))
  }

  ghost function CallsOn(s: Sys, id: Id): set<nat> {
    set k | k in s.calls && SimOf(s.calls[k]) == Some(id)
  }

  /** The other calls on the SIM can fail at once, without effect. */
  lemma {:induction false} FailOthers(cfg: Config, s: Sys, i: nat, j: nat, id: Id) returns (acts: seq<Action>)
    requires i in s.calls && j in s.calls
    ensures MovesOnly(s, acts, id)
    ensures var t := Run(cfg, s, acts);
            && t.world == s.world && i in t.calls && j in t.calls
            && (forall k :: k in t.calls ==> k in s.calls && t.calls[k] == s.calls[k])
            && CallsOn(t, id) <= {i, j}
    decreases CallsOn(s, id)
  {
    if k :| k in CallsOn(s, id) && k != i && k != j {
      var a := Go(k, 0, Failed(false));
      var t := Apply(cfg, s, a);
      assert t.world == s.world && t.calls == s.calls - {k};
      assert CallsOn(t, id) < CallsOn(s, id) by { assert k !in CallsOn(t, id); }
      var rest := FailOthers(cfg, t, i, j, id);
      acts := [a] + rest;
      assert acts[1..] == rest;
    } else {
      acts := [];
    }
  }

  lemma OpposedBreaks(cfg: Config, s: Sys, i: nat, j: nat, id: Id) returns (acts: seq<Action>)
    requires cfg.wired && Sound(s) && i in s.calls && j in s.calls && id in s.world.sims
    requires Provisions(s.world, s.calls[i], id) && Withdraws(s.world, s.calls[j], id)
    requires s.calls[i].Provision? ==> s.world.sims[id].status == Active
    ensures MovesOnly(s, acts, id) && Broken(Run(cfg, s, acts), id)
  {
    var first := FailOthers(cfg, s, i, j, id);
    var t := Run(cfg, s, first);
    RunSound(cfg, s, first);
    var second := OverlapBreaksTwoStores(cfg, t, i, j, id);
    acts := first + second;
    RunConcat(cfg, s, first, second);
    var u := Run(cfg, t, second);
    forall k | k in u.calls ensures SimOf(u.calls[k]) != Some(id) {
      assert k in t.calls && (k in CallsOn(t, id) ==> k == i || k == j);
    }
  }

  /** Calls on a SIM stay provisioning, or withdrawing, only if they were. */
  lemma NextStays(cfg: Config, w: World, c: Call, o: Outcome, id: Id)
    requires TableOk(w) && CallOk(w, c) && SimOf(c) == Some(id) && id in w.sims
    ensures var v, n := Effect(cfg, w, c, o), Then(cfg, w, c, o);
            && id in v.sims && v.sims[id].org == w.sims[id].org
            && (n.Continue? ==> SimOf(n.call) == Some(id))
            && (n.Continue? && Provisions(v, n.call, id) ==> Provisions(w, c, id))
            && (n.Continue? && Withdraws(v, n.call, id) ==> Withdraws(w, c, id))
  {
  }

  lemma StepKeepsUnopposed(cfg: Config, s: Sys, a: Action, id: Id)
    requires Sound(s) && a.Go? && a.id in s.calls && SimOf(s.calls[a.id]) == Some(id) && id in s.world.sims && Unopposed(s, id)
    ensures var t := Apply(cfg, s, a);
            && id in t.world.sims && Unopposed(t, id)
            && (forall k :: k in t.calls ==> k in s.calls && SimOf(t.calls[k]) == SimOf(s.calls[k]))
  {
    var t, w, c := Apply(cfg, s, a), Elapse(s.world, a.delay), s.calls[a.id];
    assert CallOk(s.world, c) && CallOk(w, c);
    NextStays(cfg, w, c, a.outcome, id);
    forall k | k in t.calls
      ensures k in s.calls && SimOf(t.calls[k]) == SimOf(s.calls[k])
      ensures Provisions(t.world, t.calls[k], id) ==> Provisions(s.world, s.calls[k], id)
      ensures Withdraws(t.world, t.calls[k], id) ==> Withdraws(s.world, s.calls[k], id)
    {
      if k != a.id {
        OrgStays(s.world, t.world, s.calls[k], id);
      }
    }
  }

  lemma OrgStays(w: World, v: World, c: Call, id: Id)
    requires id in w.sims && id in v.sims && v.sims[id].org == w.sims[id].org
    ensures (Provisions(v, c, id) <==> Provisions(w, c, id)) && (Withdraws(v, c, id) <==> Withdraws(w, c, id))
  {
  }

  lemma {:induction false} StayUnopposed(cfg: Config, s: Sys, acts: seq<Action>, id: Id)
    requires Sound(s) && id in s.world.sims && Unopposed(s, id) && MovesOnly(s, acts, id)
    ensures UnopposedRun(cfg, s, acts, id)
    decreases |acts|
  {
    if acts != [] {
      var a, t := acts[0], Apply(cfg, s, acts[0]);
      assert a in acts && forall b :: b in acts[1..] ==> b in acts;
      ApplySound(cfg, s, a);
      if a.id in s.calls {
        StepKeepsUnopposed(cfg, s, a, id);
      }
      StayUnopposed(cfg, t, acts[1..], id);
    }
  }

  lemma UnopposedKeeps(cfg: Config, s: Sys, acts: seq<Action>, id: Id)
    requires cfg.wired && Sound(s) && Safe(s, id) && id in s.world.sims && Unopposed(s, id) && MovesOnly(s, acts, id)
    ensures !Broken(Run(cfg, s, acts), id)
  {
    StayUnopposed(cfg, s, acts, id);
    RunSafe(cfg, s, acts, id);
    assert Safe(Run(cfg, s, acts), id);
  }

  lemma OpposedCanBreak(cfg: Config, s: Sys, id: Id) returns (acts: seq<Action>)
    requires cfg.wired && Sound(s) && Safe(s, id) && id in s.world.sims && !Unopposed(s, id)
    ensures MovesOnly(s, acts, id) && Broken(Run(cfg, s, acts), id)
  {
    var i, j :| i in s.calls && j in s.calls && Provisions(s.world, s.calls[i], id) && Withdraws(s.world, s.calls[j], id);
    assert SimOf(s.calls[i]) == Some(id) && CallSafe(s.world, s.calls[i]);
    acts := OpposedBreaks(cfg, s, i, j, id);
  }

  /** The condition of TwoStoreSafety is exact. As long as no step has started with
      opposed calls on the SIM, that the calls then in flight on it cannot, moving
      among themselves, leave it not active and in the core without a failed
      Resume is the same as that no two of them are opposed. */
  lemma TwoStoreExact(cfg: Config, start: Sys, before: seq<Action>, id: Id)
    requires cfg.wired && Initial(start) && UnopposedRun(cfg, start, before, id)
    requires id in Run(cfg, start, before).world.sims
    ensures var s := Run(cfg, start, before);
            (forall acts :: MovesOnly(s, acts, id) ==> !Broken(Run(cfg, s, acts), id)) <==> Unopposed(s, id)
  {
    RunSafe(cfg, start, before, id);
    var s := Run(cfg, start, before);
    if Unopposed(s, id) {
      forall acts | MovesOnly(s, acts, id) ensures !Broken(Run(cfg, s, acts), id) { UnopposedKeeps(cfg, s, acts, id); }
    } else {
      var acts := OpposedCanBreak(cfg, s, id);
    }
  }
}
