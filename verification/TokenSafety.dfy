/** What holds over whole runs of the token machine. */
module TokenSafety {
  import opened Common
  import opened TokenStore
  import opened TokenFamilies
  import Jwt

  // ------------------------------------- conservation, under any interleaving

  lemma InitialSound(cfg: Config, s: Sys)
    requires Initial(s)
    ensures Sound(cfg, s)
  {
    assert forall f :: RowsOf(s.store, f) == {};
  }

  /** No failed call took effect. */
  predicate CleanFailures(acts: seq<Action>) {
    forall a :: a in acts && a.Go? ==> a.outcome != Failed(true)
  }

  lemma {:induction false} LostReplies(log: seq<Event>, f: Id)
    requires forall e :: e in log ==> e.acked
    ensures Rotations(log, f, false) == 0
  {
    if log != [] {
      LostReplies(log[..|log|-1], f);
    }
  }

  lemma {:induction false} RunAcked(cfg: Config, s: Sys, acts: seq<Action>)
    requires CleanFailures(acts) && forall e :: e in s.log ==> e.acked
    ensures forall e :: e in Run(cfg, s, acts).log ==> e.acked
    decreases |acts|
  {
    if acts != [] {
      RunAcked(cfg, Apply(cfg, s, acts[0]), acts[1..]);
    }
  }

  /** Every family that has rows has one for its login and one for each Refresh
      that stored a successor; the rows share one user, who owns every device on
      them; a revoked_at, once set, stays as it is. Calls may overlap in any way. */
  lemma FamilyConservation(cfg: Config, s: Sys, acts: seq<Action>, more: seq<Action>)
    requires Initial(s)
    ensures var t := Run(cfg, s, acts);
            && (forall f :: RowsOf(t.store, f) != {} ==>
                  |RowsOf(t.store, f)| == 1 + Rotations(t.log, f, true) + Rotations(t.log, f, false))
            && (CleanFailures(acts) ==> forall f :: RowsOf(t.store, f) != {} ==>
                  |RowsOf(t.store, f)| == 1 + Rotations(t.log, f, true))
            && OneUser(t.store)
            && (forall h :: h in t.store.tokens && t.store.tokens[h].device.Some? ==>
                  Owns(t.store, t.store.tokens[h].user, t.store.tokens[h].device.value))
            && Grows(t.store, Run(cfg, t, more).store)
  {
    InitialSound(cfg, s);
    RunSound(cfg, s, acts);
    var t := Run(cfg, s, acts);
    RunSound(cfg, t, more);
    if CleanFailures(acts) {
      RunAcked(cfg, s, acts);
      forall f ensures Rotations(t.log, f, false) == 0 { LostReplies(t.log, f); }
    }
    forall h | h in t.store.tokens && t.store.tokens[h].device.Some?
      ensures Owns(t.store, t.store.tokens[h].user, t.store.tokens[h].device.value)
    {
      assert RowOk(t.store, h, t.store.tokens[h]);
    }
  }

  /** The history is faithful: a step replies with a pair iff it records an
      acknowledged exchange. The refresh token in the pair is then new, and its
      row carries the user and device the access token's claims name. */
  lemma PairsAreRecorded(cfg: Config, s: Store, c: Call, o: Outcome)
    requires TablesOk(s) && CallOk(s, c)
    ensures var n := Then(cfg, s, c, o);
            (n.Return? && n.reply.Pair?) <==> (|Recorded(s, c, o)| == 1 && Recorded(s, c, o)[0].acked)
    ensures var n, t := Then(cfg, s, c, o), Effect(s, c, o);
            n.Return? && n.reply.Pair? ==>
              var h := Sha256(n.reply.refresh);
              && Recorded(s, c, o) == [Issued(c.family, c.parent, h, true)]
              && h !in s.tokens && IsLive(t, h) && t.tokens[h].family == c.family
              && t.tokens[h].expiresAt == n.reply.refreshExpiresAt
              && KnownUser(t, n.reply.user) && n.reply.user.id == t.tokens[h].user
              && n.reply.access.claims.user == n.reply.user.id && n.reply.access.claims.org == n.reply.user.org
              && n.reply.access.claims.email == n.reply.user.email && n.reply.access.claims.role == n.reply.user.role
              && n.reply.access.claims.device == t.tokens[h].device
  {
    forall h | h in s.tokens ensures h.raw < s.supply {
      assert RowOk(s, h, s.tokens[h]);
    }
  }

  // ------------------------------------ one live token, without two holders

  /** The family a call can still add a row to. */
  function Held(c: Call): Option<Id> {
    match c
    case LoginDevice(_, _, _, f) => Some(f)
    case Spend(_, row, _) => Some(row.family)
    case RefreshUser(_, row, _) => Some(row.family)
    case RefreshDevice(_, row, _, _) => Some(row.family)
    case Sign(_, _, f, _) => Some(f)
    case Save(_, _, f, _, _, _) => Some(f)
    case _ => None
  }

  predicate Holding(c: Call, f: Id) {
    Held(c) == Some(f)
  }

  /** No two in-flight calls hold one family. Lookups, replays and logouts may
      overlap them freely. */
  ghost predicate NoTwoHolders(s: Sys) {
    forall i, j :: i in s.calls && j in s.calls && i != j && Held(s.calls[i]).Some? ==> Held(s.calls[i]) != Held(s.calls[j])
  }

  /** No step starts from a state with two holders. */
  ghost predicate ApartRun(cfg: Config, s: Sys, acts: seq<Action>)
    decreases |acts|
  {
    acts == [] || (NoTwoHolders(s) && ApartRun(cfg, Apply(cfg, s, acts[0]), acts[1..]))
  }

  predicate IsLive(s: Store, h: Hash) {
    h in s.tokens && s.tokens[h].revokedAt.None?
  }

  ghost predicate OneLive(s: Store) {
    forall h, g :: IsLive(s, h) && IsLive(s, g) && s.tokens[h].family == s.tokens[g].family ==> h == g
  }

  /** The token a call has spent and not yet replaced. */
  function ParentOf(c: Call): Option<Hash> {
    match c
    case RefreshUser(h, _, _) => Some(h)
    case RefreshDevice(h, _, _, _) => Some(h)
    case Sign(_, _, _, p) => p
    case Save(_, _, _, p, _, _) => p
    case _ => None
  }

  ghost predicate Exchanged(log: seq<Event>, h: Hash) {
    exists e :: e in log && e.parent == Some(h)
  }

  ghost predicate ExchangedOnce(log: seq<Event>) {
    forall i, j :: 0 <= i < j < |log| && log[i].parent.Some? ==> log[i].parent != log[j].parent
  }

  /** No row of the family but h is live. */
  ghost predicate OnlyLive(s: Store, f: Id, h: Hash) {
    forall g :: IsLive(s, g) && s.tokens[g].family == f ==> g == h
  }

  /** A call about to spend a token finds no other row of its family live, and
      one that has spent a token finds none; the token is not exchanged yet. */
  ghost predicate CallExclusive(s: Sys, c: Call) {
    && (c.Spend? ==> OnlyLive(s.store, c.row.family, c.hash) && !Exchanged(s.log, c.hash))
    && (ParentOf(c).Some? ==>
          && AllRevoked(s.store, FamilyOf(s.store, c).value)
          && !Exchanged(s.log, ParentOf(c).value))
  }

  ghost predicate SpentOnly(s: Sys) {
    forall e :: e in s.log && e.parent.Some? ==> e.parent.value in s.store.tokens && !IsLive(s.store, e.parent.value)
  }

  ghost predicate Exclusive(s: Sys) {
    && OneLive(s.store)
    && (forall i :: i in s.calls ==> CallExclusive(s, s.calls[i]))
    && SpentOnly(s) && ExchangedOnce(s.log)
  }

  lemma ParentFamily(s: Store, c: Call)
    requires CallOk(s, c) && (ParentOf(c).Some? || c.Spend?)
    ensures FamilyOf(s, c).Some? && Held(c) == FamilyOf(s, c)
    ensures ParentOf(c).Some? ==> ParentOf(c).value in s.tokens && Some(s.tokens[ParentOf(c).value].family) == FamilyOf(s, c)
    ensures c.Spend? ==> c.hash in s.tokens && Some(s.tokens[c.hash].family) == FamilyOf(s, c)
  {
  }

  lemma OnlyLiveKept(s: Store, t: Store, f: Id, h: Hash)
    requires forall g :: g in s.tokens ==> g in t.tokens && Kept(s.tokens[g], t.tokens[g])
    requires forall g :: g in t.tokens && t.tokens[g].family == f ==> g in s.tokens
    ensures OnlyLive(s, f, h) ==> OnlyLive(t, f, h)
    ensures AllRevoked(s, f) ==> AllRevoked(t, f)
  {
    forall g | g in t.tokens && t.tokens[g].family == f
      ensures IsLive(t, g) ==> IsLive(s, g) && s.tokens[g].family == f
    {
      assert Kept(s.tokens[g], t.tokens[g]);
    }
  }

  /** A step by a call that does not hold the family adds no row to it. */
  lemma NoRowAdded(cfg: Config, s: Sys, id: nat, delay: nat, o: Outcome, f: Id)
    requires Sound(cfg, s) && id in s.calls && !Holding(s.calls[id], f)
    ensures var t := Apply(cfg, s, Go(id, delay, o));
            && (forall g :: g in s.store.tokens ==> g in t.store.tokens && Kept(s.store.tokens[g], t.store.tokens[g]))
            && (forall g :: g in t.store.tokens && t.store.tokens[g].family == f ==> g in s.store.tokens)
            && (forall e :: e in t.log && e !in s.log ==> Held(s.calls[id]) == Some(e.family) && e.parent == ParentOf(s.calls[id]))
  {
    GoStore(cfg, s, id, delay, o);
  }

  /** Calls that hold other families, and calls that hold none, do not disturb. */
  lemma OthersExclusive(cfg: Config, s: Sys, id: nat, delay: nat, o: Outcome, j: nat)
    requires Sound(cfg, s) && NoTwoHolders(s) && Exclusive(s)
    requires id in s.calls && j in s.calls && j != id
    ensures CallExclusive(Apply(cfg, s, Go(id, delay, o)), s.calls[j])
  {
    var c, d, t := s.calls[id], s.calls[j], Apply(cfg, s, Go(id, delay, o));
    assert CallExclusive(s, d) && CallOk(s.store, d) && CallOk(s.store, c);
    if d.Spend? || ParentOf(d).Some? {
      ParentFamily(s.store, d);
      var f := Held(d).value;
      var h := if d.Spend? then d.hash else ParentOf(d).value;
      NoRowAdded(cfg, s, id, delay, o, f);
      OnlyLiveKept(s.store, t.store, f, h);
      NotExchangedBy(s, t, c, h, f);
    }
  }

  /** Tokens of a family are exchanged only by calls that hold it. */
  lemma NotExchangedBy(s: Sys, t: Sys, c: Call, h: Hash, f: Id)
    requires CallOk(s.store, c) && h in s.store.tokens && s.store.tokens[h].family == f && !Holding(c, f)
    requires forall e :: e in t.log && e !in s.log ==> Held(c) == Some(e.family) && e.parent == ParentOf(c)
    requires !Exchanged(s.log, h)
    ensures !Exchanged(t.log, h)
  {
    if ParentOf(c).Some? {
      ParentFamily(s.store, c);
    }
    forall e | e in t.log ensures e.parent != Some(h) {
      assert e in s.log ==> e.parent != Some(h);
    }
  }

  /** How a call comes to spend a token, and to have spent one. */
  lemma NextParent(cfg: Config, s: Store, c: Call, o: Outcome)
    requires Then(cfg, s, c, o).Continue?
    ensures var d := Then(cfg, s, c, o).call;
            && (d.Spend? ==> c.Find? && IsLive(s, d.hash))
            && (ParentOf(d).Some? ==>
                  (c.Spend? && ParentOf(d) == Some(c.hash)) || (ParentOf(d) == ParentOf(c) && StatementOf(c).Upsert?)
                  || (ParentOf(d) == ParentOf(c) && StatementOf(c).Select?))
  {
  }

  /** The stepping call is left in order. */
  lemma SelfExclusive(cfg: Config, s: Sys, id: nat, delay: nat, o: Outcome)
    requires Sound(cfg, s) && Exclusive(s) && id in s.calls
    ensures var t := Apply(cfg, s, Go(id, delay, o)); id in t.calls ==> CallExclusive(t, t.calls[id])
  {
    var c, b, t := s.calls[id], Elapse(s.store, delay), Apply(cfg, s, Go(id, delay, o));
    assert CallExclusive(s, c) && CallOk(s.store, c);
    if id in t.calls {
      CallOkGrows(s.store, b, c);
      NextParent(cfg, b, c, o);
      NextFamily(cfg, b, c, o, t.store);
      if c.Spend? {
        assert OnlyLive(b, c.row.family, c.hash);
        SpendRevokes(b, c.hash, c.row.family);
      } else if c.Find? {
        FindsOnlyLive(s, t.calls[id]);
      }
    }
  }

  lemma FindsOnlyLive(s: Sys, d: Call)
    requires OneLive(s.store) && SpentOnly(s)
    requires d.Spend? ==> IsLive(s.store, d.hash) && s.store.tokens[d.hash].family == d.row.family
    ensures d.Spend? ==> OnlyLive(s.store, d.row.family, d.hash) && !Exchanged(s.log, d.hash)
  {
  }

  /** Revoking the only row of a family that may be live revokes the family. */
  lemma SpendRevokes(s: Store, h: Hash, f: Id)
    requires OnlyLive(s, f, h) && h in s.tokens
    ensures AllRevoked(RevokeToken(s, h), f)
  {
    var t := RevokeToken(s, h);
    forall g | g in t.tokens && t.tokens[g].family == f ensures t.tokens[g].revokedAt.Some? {
      assert IsLive(s, g) ==> g == h;
    }
  }

  /** Statements other than an INSERT only revoke. */
  lemma OneLiveKept(s: Store, t: Store)
    requires OneLive(s) && t.tokens.Keys == s.tokens.Keys && forall h :: h in s.tokens ==> Kept(s.tokens[h], t.tokens[h])
    ensures OneLive(t)
  {
    forall h, g | IsLive(t, h) && IsLive(t, g) && t.tokens[h].family == t.tokens[g].family ensures h == g {
      assert Kept(s.tokens[h], t.tokens[h]) && Kept(s.tokens[g], t.tokens[g]);
      assert IsLive(s, h) && IsLive(s, g);
    }
  }

  lemma InsertOneLive(s: Store, t: Store, h: Hash, r: Row)
    requires OneLive(s) && AllRevoked(s, r.family) && h !in s.tokens && t.tokens == s.tokens[h := r]
    ensures OneLive(t)
  {
  }

  lemma GoOneLive(cfg: Config, s: Sys, id: nat, delay: nat, o: Outcome)
    requires Sound(cfg, s) && Exclusive(s) && id in s.calls
    ensures OneLive(Apply(cfg, s, Go(id, delay, o)).store)
  {
    GoStore(cfg, s, id, delay, o);
    var c, b := s.calls[id], Elapse(s.store, delay);
    var t := Effect(b, c, o);
    if c.Save? && o.Effective() {
      SaveFindsNone(s, id);
      InsertOneLive(b, t, Sha256(b.supply), Row(c.user.id, c.device, c.family, c.expiresAt, None));
    } else {
      OneLiveKept(b, t);
    }
  }

  /** A row is stored only in a family that has no live one. */
  lemma SaveFindsNone(s: Sys, id: nat)
    requires FoundingApart(s) && Exclusive(s) && id in s.calls && s.calls[id].Save?
    ensures AllRevoked(s.store, s.calls[id].family)
  {
    var c := s.calls[id];
    assert CallExclusive(s, c);
    if c.parent.None? {
      assert RowsOf(s.store, c.family) == {};
      assert forall h :: h in s.store.tokens && s.store.tokens[h].family == c.family ==> h in RowsOf(s.store, c.family);
    }
  }

  lemma ExchangedAt(log: seq<Event>, i: nat)
    requires i < |log|
    ensures log[i].parent.Some? ==> Exchanged(log, log[i].parent.value)
  {
    assert log[i] in log;
  }

  lemma GoSpent(cfg: Config, s: Sys, id: nat, delay: nat, o: Outcome)
    requires Sound(cfg, s) && Exclusive(s) && id in s.calls
    ensures SpentOnly(Apply(cfg, s, Go(id, delay, o)))
  {
    GoStore(cfg, s, id, delay, o);
    var c, b, t := s.calls[id], Elapse(s.store, delay), Apply(cfg, s, Go(id, delay, o));
    assert CallExclusive(s, c) && CallOk(s.store, c);
    if c.Save? && c.parent.Some? {
      ParentFamily(s.store, c);
    }
    forall e | e in t.log && e.parent.Some? ensures e.parent.value in t.store.tokens && !IsLive(t.store, e.parent.value) {
      var p := e.parent.value;
      assert p in s.store.tokens && !IsLive(s.store, p);
      assert Kept(b.tokens[p], t.store.tokens[p]);
    }
  }

  lemma AppendExchange(log: seq<Event>, e: Event)
    requires ExchangedOnce(log) && (e.parent.Some? ==> !Exchanged(log, e.parent.value))
    ensures ExchangedOnce(log + [e])
  {
    forall i, j | 0 <= i < j < |log + [e]| && (log + [e])[i].parent.Some?
      ensures (log + [e])[i].parent != (log + [e])[j].parent
    {
      ExchangedAt(log, i);
    }
  }

  lemma GoExchanges(cfg: Config, s: Sys, id: nat, delay: nat, o: Outcome)
    requires Sound(cfg, s) && Exclusive(s) && id in s.calls
    ensures ExchangedOnce(Apply(cfg, s, Go(id, delay, o)).log)
  {
    var c, b := s.calls[id], Elapse(s.store, delay);
    assert CallExclusive(s, c);
    var more := Recorded(b, c, o);
    if more == [] {
      assert s.log + more == s.log;
    } else {
      AppendExchange(s.log, more[0]);
    }
  }

  lemma ApplyExclusive(cfg: Config, s: Sys, a: Action)
    requires Sound(cfg, s) && NoTwoHolders(s) && Exclusive(s)
    ensures Exclusive(Apply(cfg, s, a))
  {
    if Enabled(s, a) && a.Go? {
      var t := Apply(cfg, s, a);
      GoOneLive(cfg, s, a.id, a.delay, a.outcome);
      GoSpent(cfg, s, a.id, a.delay, a.outcome);
      GoExchanges(cfg, s, a.id, a.delay, a.outcome);
      SelfExclusive(cfg, s, a.id, a.delay, a.outcome);
      forall j | j in t.calls ensures CallExclusive(t, t.calls[j]) {
        if j != a.id {
          OthersExclusive(cfg, s, a.id, a.delay, a.outcome, j);
        }
      }
    } else if Enabled(s, a) {
      var t := Apply(cfg, s, a);
      forall j | j in t.calls ensures CallExclusive(t, t.calls[j]) {
        assert j != a.id ==> CallExclusive(s, s.calls[j]);
      }
    }
  }

  lemma {:induction false} RunExclusive(cfg: Config, s: Sys, acts: seq<Action>)
    requires Sound(cfg, s) && Exclusive(s) && ApartRun(cfg, s, acts)
    ensures Sound(cfg, Run(cfg, s, acts)) && Exclusive(Run(cfg, s, acts))
    decreases |acts|
  {
    if acts != [] {
      ApplySound(cfg, s, acts[0]);
      ApplyExclusive(cfg, s, acts[0]);
      RunExclusive(cfg, Apply(cfg, s, acts[0]), acts[1..]);
    }
  }

  /** When no two calls hold one family at a time, whatever fails and however all
      calls interleave, a family never has two unrevoked rows and no token is
      exchanged twice. */
  lemma SingleLiveToken(cfg: Config, s: Sys, acts: seq<Action>)
    requires Initial(s) && ApartRun(cfg, s, acts)
    ensures OneLive(Run(cfg, s, acts).store) && ExchangedOnce(Run(cfg, s, acts).log)
  {
    InitialSound(cfg, s);
    RunExclusive(cfg, s, acts);
  }

  /** No two in-flight calls are on the same family. */
  ghost predicate Serial(s: Sys) {
    forall i, j :: i in s.calls && j in s.calls && i != j && FamilyOf(s.store, s.calls[i]).Some? ==>
      FamilyOf(s.store, s.calls[i]) != FamilyOf(s.store, s.calls[j])
  }

  ghost predicate SerialRun(cfg: Config, s: Sys, acts: seq<Action>)
    decreases |acts|
  {
    acts == [] || (Serial(s) && SerialRun(cfg, Apply(cfg, s, acts[0]), acts[1..]))
  }

  lemma SerialIsApart(s: Sys)
    requires Serial(s)
    ensures NoTwoHolders(s)
  {
    forall i, j | i in s.calls && j in s.calls && i != j && Held(s.calls[i]).Some? ensures Held(s.calls[i]) != Held(s.calls[j]) {
      assert FamilyOf(s.store, s.calls[i]) == Held(s.calls[i]);
      assert Held(s.calls[j]).Some? ==> FamilyOf(s.store, s.calls[j]) == Held(s.calls[j]);
    }
  }

  /** In particular the law holds when calls on one family do not overlap. */
  lemma {:induction false} SerialRunIsApart(cfg: Config, s: Sys, acts: seq<Action>)
    requires SerialRun(cfg, s, acts)
    ensures ApartRun(cfg, s, acts)
    decreases |acts|
  {
    if acts != [] {
      SerialIsApart(s);
      SerialRunIsApart(cfg, Apply(cfg, s, acts[0]), acts[1..]);
    }
  }

  // ------------------------------------------------------- timed revocation

  /** Every access token a call is about to return is recorded for its family. */
  ghost predicate Granted(s: Sys) {
    forall i :: i in s.calls && s.calls[i].Save? ==> Grant(s.calls[i].family, s.calls[i].access) in s.grants
  }

  lemma ApplyGranted(cfg: Config, s: Sys, a: Action)
    requires Granted(s)
    ensures Granted(Apply(cfg, s, a))
  {
    var t := Apply(cfg, s, a);
    forall i | i in t.calls && t.calls[i].Save? ensures Grant(t.calls[i].family, t.calls[i].access) in t.grants {
      if i in s.calls && s.calls[i].Save? {
        assert Grant(s.calls[i].family, s.calls[i].access) in s.grants;
      }
    }
  }

  lemma {:induction false} RunGranted(cfg: Config, s: Sys, acts: seq<Action>)
    requires Granted(s)
    ensures Granted(Run(cfg, s, acts))
    decreases |acts|
  {
    if acts != [] {
      ApplyGranted(cfg, s, acts[0]);
      RunGranted(cfg, Apply(cfg, s, acts[0]), acts[1..]);
    }
  }

  /** The tokens TimedRevocation speaks of are all there are: an access token is
      returned only by a call on its family, and is then among them. */
  lemma PairsAreGranted(cfg: Config, s: Sys, acts: seq<Action>, i: nat, delay: nat, o: Outcome)
    requires Initial(s) && i in Run(cfg, s, acts).calls
    ensures var t := Run(cfg, s, acts);
            var n := Then(cfg, Elapse(t.store, delay), t.calls[i], o);
            n.Return? && n.reply.Pair? ==>
              t.calls[i].Save? && exists g :: g in t.grants && g.family == t.calls[i].family && g.token == n.reply.access
  {
    RunGranted(cfg, s, acts);
    var c := Run(cfg, s, acts).calls[i];
    if c.Save? {
      assert Grant(c.family, c.access) in Run(cfg, s, acts).grants;
    }
  }

  ghost predicate Dead(s: Sys, f: Id) {
    && f < s.store.supply && AllRevoked(s.store, f)
    && (forall i :: i in s.calls ==> !Holding(s.calls[i], f))
  }

  lemma NotHeld(cfg: Config, s: Store, c: Call, o: Outcome, f: Id)
    requires CallOk(s, c) && f < s.supply && AllRevoked(s, f) && !Holding(c, f)
    ensures var n := Then(cfg, s, c, o); n.Continue? ==> !Holding(n.call, f)
  {
  }

  /** A dead family stays dead under every transition: nothing is stored,
      signed or recorded for it again. */
  lemma ApplyDead(cfg: Config, s: Sys, a: Action, f: Id)
    requires Sound(cfg, s) && Dead(s, f)
    ensures var t := Apply(cfg, s, a);
            && Dead(t, f)
            && (forall acked :: Rotations(t.log, f, acked) == Rotations(s.log, f, acked))
            && (forall g :: g in t.grants && g.family == f ==> g in s.grants)
  {
    if Enabled(s, a) && a.Go? {
      var id, delay, o := a.id, a.delay, a.outcome;
      GoStore(cfg, s, id, delay, o);
      var c, b, t := s.calls[id], Elapse(s.store, delay), Apply(cfg, s, a);
      NotHeld(cfg, b, c, o, f);
      forall h | h in t.store.tokens && t.store.tokens[h].family == f ensures t.store.tokens[h].revokedAt.Some? {
        if h in b.tokens { assert Kept(b.tokens[h], t.store.tokens[h]); }
      }
      if Recorded(b, c, o) != [] {
        CountAppend(s.log, Recorded(b, c, o)[0], f);
      } else {
        assert s.log + [] == s.log;
      }
    }
  }

  lemma {:induction false} RunDead(cfg: Config, s: Sys, acts: seq<Action>, f: Id)
    requires Sound(cfg, s) && Dead(s, f)
    ensures var t := Run(cfg, s, acts);
            && Dead(t, f)
            && (forall acked :: Rotations(t.log, f, acked) == Rotations(s.log, f, acked))
            && (forall g :: g in t.grants && g.family == f ==> g in s.grants)
    decreases |acts|
  {
    if acts != [] {
      ApplyDead(cfg, s, acts[0], f);
      ApplySound(cfg, s, acts[0]);
      RunDead(cfg, Apply(cfg, s, acts[0]), acts[1..], f);
    }
  }

  /** The family revocation a replay triggers succeeds at time R while no other
      call holds the family. Then in every continuation, overlapping or not, no
      row of the family is unrevoked, no Refresh of it stores or returns a token,
      and from R + access TTL + 30 s on none of its access tokens verifies in any
      service, whatever its own issuer settings. */
  lemma TimedRevocation(cfg: Config, start: Sys, before: seq<Action>, id: nat, delay: nat, after: seq<Action>, service: Jwt.Issuer, now: int)
    requires Initial(start)
    requires var s := Run(cfg, start, before);
             && id in s.calls && s.calls[id].Kill?
             && (forall i :: i in s.calls ==> !Holding(s.calls[i], s.calls[id].family))
    ensures var s := Run(cfg, start, before);
            var f := s.calls[id].family;
            var s1 := Apply(cfg, s, Go(id, delay, Done));
            var s2 := Run(cfg, s1, after);
            && Then(cfg, Elapse(s.store, delay), s.calls[id], Done) == Return(Refused(TokenReuse))
            && AllRevoked(s2.store, f)
            && (forall acked :: Rotations(s2.log, f, acked) == Rotations(s.log, f, acked))
            && (forall g :: g in s2.grants && g.family == f && now >= s1.store.now + cfg.issuer.ttl + 30_000_000_000 ==>
                  service.Verify(g.token, now) == None)
  {
    InitialSound(cfg, start);
    RunSound(cfg, start, before);
    var s := Run(cfg, start, before);
    var f, a := s.calls[id].family, Go(id, delay, Done);
    var s1 := Apply(cfg, s, a);
    ApplySound(cfg, s, a);
    assert CallOk(s.store, s.calls[id]);
    assert s1.log == s.log;
    RunDead(cfg, s1, after, f);
    forall g | g in Run(cfg, s1, after).grants && g.family == f && now >= s1.store.now + cfg.issuer.ttl + 30_000_000_000
      ensures service.Verify(g.token, now) == None
    {
      var c: Jwt.Claims, at: int :| at <= s1.store.now && g.token == cfg.issuer.Sign(c, at);
      Jwt.SignThenVerify(cfg.issuer, service, c, at, now);
    }
  }

  /** Without overlap in the family the premise of TimedRevocation holds. */
  lemma SerialKillIsAlone(s: Sys, id: nat)
    requires Serial(s) && id in s.calls && s.calls[id].Kill?
    ensures forall i :: i in s.calls ==> !Holding(s.calls[i], s.calls[id].family)
  {
    forall i | i in s.calls ensures !Holding(s.calls[i], s.calls[id].family) {
      assert i != id ==> FamilyOf(s.store, s.calls[i]) != FamilyOf(s.store, s.calls[id]);
    }
  }
}
