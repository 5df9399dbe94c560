/** Where the laws of TokenSafety stop: the exact conditions under which a
    revoked family stays revoked, a family keeps one live row, and a family has a
    live row at all. */
module TokenExact {
  import opened Common
  import opened TokenStore
  import opened TokenFamilies
  import opened TokenSafety

  // ------------------------------------------------- finishing a holding call

  function StepsLeft(c: Call): nat {
    match c
    case LoginDevice(_, _, _, _) => 3
    case Spend(_, _, _) => 5
    case RefreshUser(_, _, _) => 4
    case RefreshDevice(_, _, _, _) => 3
    case Sign(_, _, _, _) => 2
    case Save(_, _, _, _, _, _) => 1
    case _ => 0
  }

  lemma NextHolding(cfg: Config, s: Store, c: Call, f: Id)
    requires TablesOk(s) && CallOk(s, c) && Holding(c, f) && !c.Save?
    ensures var n := Then(cfg, s, c, Done);
            n.Continue? && Holding(n.call, f) && StepsLeft(n.call) < StepsLeft(c) && !n.call.Spend?
  {
    if c.RefreshUser? {
      assert RowOk(s, c.hash, s.tokens[c.hash]);
    }
  }

  /** Live rows stay live, but for the one a Spend is about to revoke. */
  ghost predicate KeepsLive(s: Store, t: Store, c: Call) {
    forall g :: IsLive(s, g) && !(c.Spend? && g == c.hash) ==> IsLive(t, g) && t.tokens[g].family == s.tokens[g].family
  }

  lemma EffectKeepsLive(s: Store, c: Call, f: Id)
    requires Holding(c, f)
    ensures KeepsLive(s, Effect(s, c, Done), c)
    ensures !c.Save? ==> Effect(s, c, Done).tokens.Keys == s.tokens.Keys
  {
  }

  /** A call that holds a family can finish: it alone moves, leaves a new live row
      in the family, and every other live row but the one it had yet to spend. */
  lemma {:induction false} Finish(cfg: Config, s: Sys, id: nat, f: Id) returns (acts: seq<Action>, h: Hash)
    requires Sound(cfg, s) && id in s.calls && Holding(s.calls[id], f)
    ensures forall a :: a in acts ==> a.Go? && a.id == id
    ensures var t := Run(cfg, s, acts);
            && Sound(cfg, t) && t.calls == s.calls - {id} && KeepsLive(s.store, t.store, s.calls[id])
            && h !in s.store.tokens && IsLive(t.store, h) && t.store.tokens[h].family == f
    decreases StepsLeft(s.calls[id])
  {
    var a := Go(id, 0, Done);
    var t := Apply(cfg, s, a);
    assert Elapse(s.store, 0) == s.store && CallOk(s.store, s.calls[id]);
    ApplySound(cfg, s, a);
    EffectKeepsLive(s.store, s.calls[id], f);
    if s.calls[id].Save? {
      GoStore(cfg, s, id, 0, Done);
      acts, h := [a], Sha256(s.store.supply);
      assert Run(cfg, t, []) == t;
    } else {
      NextHolding(cfg, s.store, s.calls[id], f);
      var rest: seq<Action>;
      rest, h := Finish(cfg, t, id, f);
      acts := [a] + rest;
      assert acts[1..] == rest && t.calls - {id} == s.calls - {id};
    }
  }

  /** The premise of TimedRevocation is exact: a fully revoked family stays
      revoked in every continuation iff no in-flight call holds it. */
  lemma RevocationExact(cfg: Config, s: Sys, f: Id)
    requires Sound(cfg, s) && f < s.store.supply && AllRevoked(s.store, f)
    ensures (forall acts :: AllRevoked(Run(cfg, s, acts).store, f)) <==> (forall i :: i in s.calls ==> !Holding(s.calls[i], f))
  {
    if i :| i in s.calls && Holding(s.calls[i], f) {
      var acts, h := Finish(cfg, s, i, f);
      assert !AllRevoked(Run(cfg, s, acts).store, f);
    } else {
      forall acts ensures AllRevoked(Run(cfg, s, acts).store, f) { RunDead(cfg, s, acts, f); }
    }
  }

  // ----------------------------------------------------- one live row, exactly

  /** From any reachable state in which two calls hold a family, finishing one and
      then the other leaves two live rows in it. */
  lemma TwoHoldersIssueTwice(cfg: Config, s: Sys, i: nat, j: nat, f: Id) returns (acts: seq<Action>)
    requires Sound(cfg, s) && i in s.calls && j in s.calls && i != j
    requires Holding(s.calls[i], f) && Holding(s.calls[j], f)
    ensures forall a :: a in acts ==> a.Go? && (a.id == i || a.id == j)
    ensures !OneLive(Run(cfg, s, acts).store)
  {
    var first, g := Finish(cfg, s, i, f);
    var t := Run(cfg, s, first);
    assert CallOk(s.store, s.calls[j]);
    var second, h := Finish(cfg, t, j, f);
    var u := Run(cfg, t, second);
    acts := first + second;
    RunConcat(cfg, s, first, second);
    assert IsLive(u.store, g) && IsLive(u.store, h) && g != h;
  }

  /** Only calls that hold some family move. */
  ghost predicate HoldersOnly(s: Sys, acts: seq<Action>) {
    forall a :: a in acts ==> a.Go? && (a.id in s.calls ==> Held(s.calls[a.id]).Some?)
  }

  lemma HeldStays(cfg: Config, s: Store, c: Call, o: Outcome)
    requires Held(c).Some? && Then(cfg, s, c, o).Continue?
    ensures Held(Then(cfg, s, c, o).call) == Held(c)
  {
  }

  lemma {:induction false} HoldersStayApart(cfg: Config, s: Sys, acts: seq<Action>)
    requires NoTwoHolders(s) && HoldersOnly(s, acts)
    ensures ApartRun(cfg, s, acts)
    decreases |acts|
  {
    if acts != [] {
      var a, t := acts[0], Apply(cfg, s, acts[0]);
      if a.id in s.calls {
        var b := Elapse(s.store, a.delay);
        if Then(cfg, b, s.calls[a.id], a.outcome).Continue? {
          HeldStays(cfg, b, s.calls[a.id], a.outcome);
        }
      }
      assert forall i :: i in t.calls ==> i in s.calls && Held(t.calls[i]) == Held(s.calls[i]);
      assert forall b :: b in acts[1..] ==> b in acts;
      HoldersStayApart(cfg, t, acts[1..]);
    }
  }

  /** The condition of SingleLiveToken is exact. As long as no step has started
      from a state with two holders, there is one live row per family and each
      token is exchanged at most once; and that the calls then holding families
      cannot, moving among themselves, break it is the same as that no two of them
      hold one family. */
  lemma SingleLiveExact(cfg: Config, start: Sys, before: seq<Action>)
    requires Initial(start) && ApartRun(cfg, start, before)
    ensures var s := Run(cfg, start, before);
            && OneLive(s.store) && ExchangedOnce(s.log)
            && ((forall acts :: HoldersOnly(s, acts) ==> OneLive(Run(cfg, s, acts).store)) <==> NoTwoHolders(s))
  {
    InitialSound(cfg, start);
    RunExclusive(cfg, start, before);
    var s := Run(cfg, start, before);
    if NoTwoHolders(s) {
      forall acts | HoldersOnly(s, acts) ensures OneLive(Run(cfg, s, acts).store) {
        HoldersStayApart(cfg, s, acts);
        RunExclusive(cfg, s, acts);
      }
    } else {
      var i, j :| i in s.calls && j in s.calls && i != j && Held(s.calls[i]).Some? && Held(s.calls[i]) == Held(s.calls[j]);
      var acts := TwoHoldersIssueTwice(cfg, s, i, j, Held(s.calls[i]).value);
      assert HoldersOnly(s, acts);
    }
  }

  // ------------------------------------------------ which row is live, if any

  /** The row of family f that is live after a step, given the one before it: an
      effective insert makes its row the live one; an effective family revocation,
      or an effective revocation of that very row by a Refresh or a Logout, leaves
      none; nothing else changes it. */
  function LiveAfter(s: Sys, a: Action, f: Id, live: Option<Hash>): Option<Hash> {
    if !a.Go? || a.id !in s.calls || !a.outcome.Effective() then live else
    match s.calls[a.id]
    case Save(_, _, g, _, _, _) => if g == f then Some(Sha256(s.store.supply)) else live
    case Kill(g) => if g == f then None else live
    case Spend(h, _, _) => if live == Some(h) then None else live
    case Logout(raw) => if live == Some(Sha256(raw)) then None else live
    case _ => live
  }

  function LiveRow(cfg: Config, s: Sys, acts: seq<Action>, f: Id, live: Option<Hash>): Option<Hash>
    decreases |acts|
  {
    if acts == [] then live else LiveRow(cfg, Apply(cfg, s, acts[0]), acts[1..], f, LiveAfter(s, acts[0], f, live))
  }

  ghost predicate Tracks(s: Store, f: Id, live: Option<Hash>) {
    forall h :: (IsLive(s, h) && s.tokens[h].family == f) <==> live == Some(h)
  }

  lemma StoreTracks(s: Store, q: Statement, f: Id, live: Option<Hash>)
    requires Tracks(s, f, live) && !q.Insert?
    ensures var t := Exec(s, q);
            Tracks(t, f, match q
                         case RevokeAll(g) => if g == f then None else live
                         case Revoke1(h) => if live == Some(h) then None else live
                         case _ => live)
  {
    assert forall h :: h in s.tokens ==> h in Exec(s, q).tokens && Kept(s.tokens[h], Exec(s, q).tokens[h]);
  }

  lemma InsertTracks(s: Store, t: Store, h: Hash, r: Row, f: Id, live: Option<Hash>)
    requires Tracks(s, f, live) && h !in s.tokens && t.tokens == s.tokens[h := r] && r.revokedAt.None?
    requires r.family == f ==> live == None
    ensures Tracks(t, f, if r.family == f then Some(h) else live)
  {
    forall g ensures (IsLive(t, g) && t.tokens[g].family == f) <==> (if r.family == f then Some(h) else live) == Some(g) {
      assert IsLive(s, g) && s.tokens[g].family == f <==> live == Some(g);
    }
  }

  lemma StepTracks(cfg: Config, s: Sys, a: Action, f: Id, live: Option<Hash>)
    requires Sound(cfg, s) && Exclusive(s) && Tracks(s.store, f, live)
    ensures Tracks(Apply(cfg, s, a).store, f, LiveAfter(s, a, f, live))
  {
    if a.Go? && a.id in s.calls {
      var c, b := s.calls[a.id], Elapse(s.store, a.delay);
      assert Tracks(b, f, live);
      GoStore(cfg, s, a.id, a.delay, a.outcome);
      if a.outcome.Effective() && c.Save? {
        SaveFindsNone(s, a.id);
        InsertTracks(b, Apply(cfg, s, a).store, Sha256(b.supply), Row(c.user.id, c.device, c.family, c.expiresAt, None), f, live);
      } else if a.outcome.Effective() {
        StoreTracks(b, StatementOf(c), f, live);
      }
    }
  }

  lemma {:induction false} RunTracks(cfg: Config, s: Sys, acts: seq<Action>, f: Id, live: Option<Hash>)
    requires Sound(cfg, s) && Exclusive(s) && ApartRun(cfg, s, acts) && Tracks(s.store, f, live)
    ensures Tracks(Run(cfg, s, acts).store, f, LiveRow(cfg, s, acts, f, live))
    decreases |acts|
  {
    if acts != [] {
      ApplySound(cfg, s, acts[0]);
      ApplyExclusive(cfg, s, acts[0]);
      StepTracks(cfg, s, acts[0], f, live);
      RunTracks(cfg, Apply(cfg, s, acts[0]), acts[1..], f, LiveAfter(s, acts[0], f, live));
    }
  }

  /** Exactly when a family has a live row: in runs without two holders the live
      row is the last one stored, and it is live iff since then no Logout and no
      Refresh has revoked it and no replay has revoked the family, whether or not
      the calls that did so went on to succeed. */
  lemma LiveRowExact(cfg: Config, s: Sys, acts: seq<Action>, f: Id, h: Hash)
    requires Initial(s) && ApartRun(cfg, s, acts)
    ensures var t := Run(cfg, s, acts).store;
            (IsLive(t, h) && t.tokens[h].family == f) <==> LiveRow(cfg, s, acts, f, None) == Some(h)
  {
    InitialSound(cfg, s);
    RunTracks(cfg, s, acts, f, None);
  }
}
