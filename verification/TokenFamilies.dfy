/** Login, Refresh and Logout (`svc-aerial-iam/internal/service/iam.go`) as a
    machine over repository statements: every in-flight call is at a point
    between two statements, any call may move next, and any statement may fail. */
module TokenFamilies {
  import opened Common
  import opened TokenStore
  import Jwt

  datatype Config = Config(issuer: Jwt.Issuer, refreshTTL: int)

  datatype Error =
    | BadCredentials | TokenNotFound | TokenExpired | TokenReuse | ReuseRevokeFailed
    | UserNotFound | Internal

  datatype Reply =
    | Pair(access: Jwt.Token, refresh: nat, refreshExpiresAt: int, user: User)
    | LoggedOut
    | Refused(error: Error)

  /** Where a call stands: the constructor names what it does next. `parent`
      is the token a refresh presented, None for a login. */
  datatype Call =
    | LoginUser(email: string, password: string, fingerprint: string, deviceName: string)
    | LoginDevice(user: User, fingerprint: string, deviceName: string, family: Id)
    | Find(raw: nat, fingerprint: string)
    | Kill(family: Id)
    | Spend(hash: Hash, row: Row, fingerprint: string)
    | RefreshUser(hash: Hash, row: Row, fingerprint: string)
    | RefreshDevice(hash: Hash, row: Row, user: User, fingerprint: string)
    | Sign(user: User, device: Option<Id>, family: Id, parent: Option<Hash>)
    | Save(user: User, device: Option<Id>, family: Id, parent: Option<Hash>, access: Jwt.Token, expiresAt: int)
    | Logout(raw: nat)

  datatype Next = Continue(call: Call) | Return(reply: Reply)

  function Fail(e: Error): Next {
    Return(Refused(e))
  }

  function ClaimsOf(u: User, device: Option<Id>): Jwt.Claims {
    Jwt.Claims(u.id, u.org, u.email, u.role, device)
  }

  function StatementOf(c: Call): Statement {
    match c
    case LoginUser(_, _, _, _) => SelectAndDraw
    case LoginDevice(u, fp, name, _) => Upsert(u.id, fp, name)
    case RefreshDevice(_, _, u, fp) => Upsert(u.id, fp, "")
    case Kill(family) => RevokeAll(family)
    case Spend(h, _, _) => Revoke1(h)
    case Logout(raw) => Revoke1(Sha256(raw))
    case Save(u, device, family, _, _, exp) => Insert(Row(u.id, device, family, exp, None))
    case _ => Select
  }

  /** The tables after a call's next statement. */
  function Effect(s: Store, c: Call, o: Outcome): Store {
    if o.Effective() then Exec(s, StatementOf(c)) else s
  }

  /** What the code does with the statement's answer. */
  function Then(cfg: Config, s: Store, c: Call, o: Outcome): Next {
    if o.Failed? then Fail(if c.Kill? then ReuseRevokeFailed else Internal) else
    match c
    case LoginUser(email, password, fp, name) =>
      (match GetUserByEmail(s, email)
       case None => Fail(BadCredentials)
       case Some(u) =>
         if !u.active || u.password != Bcrypt(password) then Fail(BadCredentials)
         else if fp != "" then Continue(LoginDevice(u, fp, name, s.supply))
         else Continue(Sign(u, None, s.supply, None)))
    case LoginDevice(u, fp, name, family) =>
      Continue(Sign(u, Some(UpsertDevice(s, u.id, fp, name).1), family, None))
    case Find(raw, fp) =>
      (match FindRefreshToken(s, Sha256(raw))
       case Missing => Fail(TokenNotFound)
       case Revoked(row) => Continue(Kill(row.family))
       case Expired(_) => Fail(TokenExpired)
       case Live(row) => Continue(Spend(Sha256(raw), row, fp)))
    case Kill(_) => Fail(TokenReuse)
    case Spend(h, row, fp) => Continue(RefreshUser(h, row, fp))
    case RefreshUser(h, row, fp) =>
      (match GetUserByID(s, row.user)
       case None => Fail(UserNotFound)
       case Some(u) =>
         if fp != "" then Continue(RefreshDevice(h, row, u, fp))
         else Continue(Sign(u, row.device, row.family, Some(h))))
    case RefreshDevice(h, row, u, fp) =>
      Continue(Sign(u, Some(UpsertDevice(s, u.id, fp, "").1), row.family, Some(h)))
    case Sign(u, device, family, parent) =>
      var access := cfg.issuer.Sign(ClaimsOf(u, device), s.now);
      Continue(Save(u, device, family, parent, access, s.now + cfg.refreshTTL))
    case Save(u, _, _, _, access, exp) =>
      if Sha256(s.supply) in s.tokens then Fail(Internal) else Return(Pair(access, s.supply, exp, u))
    case Logout(_) => Return(LoggedOut)
  }

  // ---------------------------------------------------------------- the machine

  /** History: a stored token, with the token it was exchanged for and whether
      the caller received it. */
  datatype Event = Issued(family: Id, parent: Option<Hash>, child: Hash, acked: bool)

  /** History: an access token signed for a family. */
  datatype Grant = Grant(family: Id, token: Jwt.Token)

  datatype Sys = Sys(store: Store, calls: map<nat, Call>, log: seq<Event>, grants: set<Grant>)

  /** Begin: a caller sends a request. Go: time passes, then one in-flight call
      performs its next statement. */
  datatype Action = Begin(id: nat, call: Call) | Go(id: nat, delay: nat, outcome: Outcome)

  predicate Request(c: Call) {
    c.LoginUser? || c.Find? || c.Logout?
  }

  predicate Enabled(s: Sys, a: Action) {
    match a
    case Begin(id, c) => id !in s.calls && Request(c)
    case Go(id, _, _) => id in s.calls
  }

  function Recorded(s: Store, c: Call, o: Outcome): seq<Event> {
    if c.Save? && o.Effective() && Sha256(s.supply) !in s.tokens
    then [Issued(c.family, c.parent, Sha256(s.supply), o.Done?)] else []
  }

  function Signed(n: Next): set<Grant> {
    if n.Continue? && n.call.Save? then {Grant(n.call.family, n.call.access)} else {}
  }

  function Apply(cfg: Config, s: Sys, a: Action): Sys {
    if !Enabled(s, a) then s else
    match a
    case Begin(id, c) => s.(calls := s.calls[id := c])
    case Go(id, delay, o) =>
      var before := Elapse(s.store, delay);
      var after, next := Effect(before, s.calls[id], o), Then(cfg, before, s.calls[id], o);
      Sys(after,
          if next.Continue? then s.calls[id := next.call] else s.calls - {id},
          s.log + Recorded(before, s.calls[id], o),
          s.grants + Signed(next))
  }

  function Run(cfg: Config, s: Sys, acts: seq<Action>): Sys
    decreases |acts|
  {
    if acts == [] then s else Run(cfg, Apply(cfg, s, acts[0]), acts[1..])
  }

  lemma {:induction false} RunConcat(cfg: Config, s: Sys, a: seq<Action>, b: seq<Action>)
    ensures Run(cfg, s, a + b) == Run(cfg, Run(cfg, s, a), b)
    decreases |a|
  {
    if a == [] {
      assert a + b == b;
    } else {
      assert (a + b)[0] == a[0] && (a + b)[1..] == a[1..] + b;
      RunConcat(cfg, Apply(cfg, s, a[0]), a[1..], b);
    }
  }

  // ------------------------------------------------- invariants of every run

  function FamilyOf(s: Store, c: Call): Option<Id> {
    match c
    case LoginUser(_, _, _, _) => None
    case LoginDevice(_, _, _, f) => Some(f)
    case Find(raw, _) => if Sha256(raw) in s.tokens then Some(s.tokens[Sha256(raw)].family) else None
    case Logout(raw) => if Sha256(raw) in s.tokens then Some(s.tokens[Sha256(raw)].family) else None
    case Kill(f) => Some(f)
    case Spend(_, row, _) => Some(row.family)
    case RefreshUser(_, row, _) => Some(row.family)
    case RefreshDevice(_, row, _, _) => Some(row.family)
    case Sign(_, _, f, _) => Some(f)
    case Save(_, _, f, _, _, _) => Some(f)
  }

  /** A login that has drawn its family but not stored a row yet. */
  predicate Founding(c: Call) {
    c.LoginDevice? || ((c.Sign? || c.Save?) && c.parent.None?)
  }

  ghost predicate KnownUser(s: Store, u: User) {
    u.id in s.users && s.users[u.id] == u
  }

  ghost predicate KnownRow(s: Store, h: Hash, row: Row) {
    h in s.tokens && Kept(row, s.tokens[h])
  }

  ghost predicate CallOk(s: Store, c: Call) {
    match c
    case LoginUser(_, _, _, _) => true
    case LoginDevice(u, _, _, f) => KnownUser(s, u) && f < s.supply
    case Find(_, _) => true
    case Logout(_) => true
    case Kill(f) => f < s.supply
    case Spend(h, row, _) => KnownRow(s, h, row)
    case RefreshUser(h, row, _) => KnownRow(s, h, row)
    case RefreshDevice(h, row, u, _) => KnownRow(s, h, row) && KnownUser(s, u) && u.id == row.user
    case Sign(u, d, f, p) => IssueOk(s, u, d, f, p)
    case Save(u, d, f, p, access, _) => IssueOk(s, u, d, f, p) && access.claims == ClaimsOf(u, d)
  }

  ghost predicate IssueOk(s: Store, u: User, d: Option<Id>, f: Id, p: Option<Hash>) {
    && KnownUser(s, u) && f < s.supply
    && (d.Some? ==> Owns(s, u.id, d.value))
    && (p.Some? ==> p.value in s.tokens && s.tokens[p.value].family == f && s.tokens[p.value].user == u.id)
  }

  /** A founding login's family has no row, and no other call is on it. */
  ghost predicate FoundingApart(s: Sys) {
    forall i :: i in s.calls && Founding(s.calls[i]) ==>
      && RowsOf(s.store, s.calls[i].family) == {}
      && (forall j :: j in s.calls && j != i ==> FamilyOf(s.store, s.calls[j]) != Some(s.calls[i].family))
  }

  ghost predicate GrantsOk(cfg: Config, s: Sys) {
    forall g :: g in s.grants ==>
      exists c: Jwt.Claims, at: int :: at <= s.store.now && g.token == cfg.issuer.Sign(c, at)
  }

  /** Tokens of a family stored by logins (a root has no parent). */
  function Roots(log: seq<Event>, f: Id): nat {
    if log == [] then 0
    else Roots(log[..|log|-1], f) + (if log[|log|-1].family == f && log[|log|-1].parent.None? then 1 else 0)
  }

  /** Refresh calls on a family whose row was stored, and whose caller did
      (acked) or did not receive the pair. */
  function Rotations(log: seq<Event>, f: Id, acked: bool): nat {
    if log == [] then 0
    else Rotations(log[..|log|-1], f, acked) +
         (if log[|log|-1].family == f && log[|log|-1].parent.Some? && log[|log|-1].acked == acked then 1 else 0)
  }

  ghost predicate Counted(s: Sys) {
    forall f: Id ::
      && |RowsOf(s.store, f)| == Roots(s.log, f) + Rotations(s.log, f, true) + Rotations(s.log, f, false)
      && Roots(s.log, f) == (if RowsOf(s.store, f) == {} then 0 else 1)
  }

  ghost predicate Sound(cfg: Config, s: Sys) {
    && StoreOk(s.store)
    && (forall i :: i in s.calls ==> CallOk(s.store, s.calls[i]))
    && FoundingApart(s)
    && GrantsOk(cfg, s)
    && Counted(s)
  }

  /** No token, call or history yet; any users, devices and clock. */
  ghost predicate Initial(s: Sys) {
    && StoreOk(s.store) && s.store.tokens == map[] && s.calls == map[] && s.log == [] && s.grants == {}
  }

  // ------------------------------------------------------------ preservation

  lemma EffectOk(s: Store, c: Call, o: Outcome)
    requires StoreOk(s) && CallOk(s, c)
    requires Founding(c) ==> RowsOf(s, c.family) == {}
    ensures Grows(s, Effect(s, c, o)) && StoreOk(Effect(s, c, o))
  {
    var q := StatementOf(c);
    assert forall k :: q.Insert? && k in s.tokens && s.tokens[k].family == c.family ==> k in RowsOf(s, c.family);
    ExecGrows(s, q);
    ExecTablesOk(s, q);
    ExecOneUser(s, q);
  }

  lemma CallOkGrows(s: Store, t: Store, c: Call)
    requires Grows(s, t) && CallOk(s, c)
    ensures CallOk(t, c)
  {
  }

  /** The next point of a call is well placed. */
  lemma NextOk(cfg: Config, s: Store, c: Call, o: Outcome)
    requires TablesOk(s) && CallOk(s, c)
    requires Then(cfg, s, c, o).Continue?
    ensures CallOk(Effect(s, c, o), Then(cfg, s, c, o).call)
  {
    var q := StatementOf(c);
    if q.Upsert? {
      UpsertDevicesOk(s, q.user, q.fingerprint, q.name);
    }
  }

  /** A call stays on its family; only a login's first statement draws one. */
  lemma NextFamily(cfg: Config, s: Store, c: Call, o: Outcome, t: Store)
    requires Then(cfg, s, c, o).Continue?
    requires CallOk(s, c)
    ensures var d := Then(cfg, s, c, o).call;
            && !d.Find? && !d.Logout? && !d.LoginUser?
            && FamilyOf(t, d) == (if c.LoginUser? then Some(s.supply) else FamilyOf(s, c))
            && (Founding(d) <==> c.LoginUser? || Founding(c))
  {
  }

  lemma CountAppend(log: seq<Event>, e: Event, f: Id)
    ensures Roots(log + [e], f) == Roots(log, f) + (if e.family == f && e.parent.None? then 1 else 0)
    ensures forall acked :: Rotations(log + [e], f, acked) ==
              Rotations(log, f, acked) + (if e.family == f && e.parent.Some? && e.acked == acked then 1 else 0)
  {
    assert (log + [e])[..|log|] == log;
  }

  /** The state just before and just after the statement of a Go. */
  lemma GoStore(cfg: Config, s: Sys, id: nat, delay: nat, o: Outcome)
    requires Sound(cfg, s) && id in s.calls
    ensures var c, b := s.calls[id], Elapse(s.store, delay);
            var t := Effect(b, c, o);
            && Grows(s.store, b) && Grows(b, t) && StoreOk(b) && StoreOk(t) && CallOk(b, c)
            && (forall f :: RowsOf(b, f) == RowsOf(s.store, f))
            && (forall h :: h in b.tokens && Some(b.tokens[h].family) != FamilyOf(b, c) ==> h in t.tokens && t.tokens[h] == b.tokens[h])
            && (if c.Save? && o.Effective()
                then Sha256(b.supply) !in b.tokens && t.tokens == b.tokens[Sha256(b.supply) := Row(c.user.id, c.device, c.family, c.expiresAt, None)]
                else t.tokens.Keys == b.tokens.Keys)
  {
    var c, b := s.calls[id], Elapse(s.store, delay);
    assert s.store.tokens == b.tokens && TablesOk(s.store);
    forall h | h in b.tokens ensures RowOk(b, h, b.tokens[h]) { assert RowOk(s.store, h, s.store.tokens[h]); }
    CallOkGrows(s.store, b, c);
    EffectOk(b, c, o);
    ExecLocal(b, StatementOf(c), FamilyOf(b, c));
  }

  lemma CountedKept(s: Sys, t: Sys)
    requires Counted(s) && t.log == s.log
    requires forall f :: RowsOf(t.store, f) == RowsOf(s.store, f)
    ensures Counted(t)
  {
  }

  lemma RowsOfInsert(s: Store, t: Store, h: Hash, r: Row, f: Id)
    requires h !in s.tokens && t.tokens == s.tokens[h := r]
    ensures RowsOf(t, f) == (if f == r.family then RowsOf(s, f) + {h} else RowsOf(s, f))
    ensures |RowsOf(t, f)| == |RowsOf(s, f)| + (if f == r.family then 1 else 0)
  {
    assert h !in RowsOf(s, f);
    assert RowsOf(t, f) == (if f == r.family then RowsOf(s, f) + {h} else RowsOf(s, f));
  }

  lemma CountedInsert(s: Sys, t: Sys, h: Hash, r: Row, e: Event)
    requires Counted(s) && t.log == s.log + [e] && e.family == r.family
    requires h !in s.store.tokens && t.store.tokens == s.store.tokens[h := r]
    requires e.parent.Some? <==> RowsOf(s.store, r.family) != {}
    ensures Counted(t)
  {
    forall f: Id
      ensures |RowsOf(t.store, f)| == Roots(t.log, f) + Rotations(t.log, f, true) + Rotations(t.log, f, false)
      ensures Roots(t.log, f) == (if RowsOf(t.store, f) == {} then 0 else 1)
    {
      CountAppend(s.log, e, f);
      RowsOfInsert(s.store, t.store, h, r, f);
    }
  }

  lemma GoCounted(cfg: Config, s: Sys, id: nat, delay: nat, o: Outcome)
    requires Sound(cfg, s) && id in s.calls
    ensures Counted(Apply(cfg, s, Go(id, delay, o)))
  {
    GoStore(cfg, s, id, delay, o);
    var c, b, t := s.calls[id], Elapse(s.store, delay), Apply(cfg, s, Go(id, delay, o));
    if c.Save? && o.Effective() {
      assert c.parent.Some? ==> c.parent.value in RowsOf(s.store, c.family);
      CountedInsert(s, t, Sha256(b.supply), Row(c.user.id, c.device, c.family, c.expiresAt, None),
                    Issued(c.family, c.parent, Sha256(b.supply), o.Done?));
    } else {
      forall f ensures RowsOf(t.store, f) == RowsOf(s.store, f) {
        assert forall h :: h in b.tokens ==> Kept(b.tokens[h], t.store.tokens[h]);
      }
      CountedKept(s, t);
    }
  }

  /** New rows of family g move no call to any other family. */
  lemma FamilyStable(s: Store, t: Store, c: Call, g: Option<Id>)
    requires forall h :: h in s.tokens ==> h in t.tokens && t.tokens[h].family == s.tokens[h].family
    requires forall h :: h in t.tokens && h !in s.tokens ==> Some(t.tokens[h].family) == g
    ensures FamilyOf(t, c) == FamilyOf(s, c) || FamilyOf(t, c) == g
  {
  }

  /** A step of call id keeps founding families apart: it continues on its own
      family, or ends, possibly leaving one new row there. */
  lemma ApartStep(s: Sys, t: Sys, id: nat)
    requires FoundingApart(s) && id in s.calls
    requires t.calls == s.calls - {id} || (id in t.calls && t.calls == s.calls[id := t.calls[id]])
    requires id in t.calls ==>
               && FamilyOf(t.store, t.calls[id]) == FamilyOf(s.store, s.calls[id])
               && (Founding(t.calls[id]) <==> Founding(s.calls[id]))
               && t.store.tokens.Keys == s.store.tokens.Keys
    requires forall h :: h in s.store.tokens ==> h in t.store.tokens && t.store.tokens[h].family == s.store.tokens[h].family
    requires forall h :: h in t.store.tokens && h !in s.store.tokens ==> Some(t.store.tokens[h].family) == FamilyOf(s.store, s.calls[id])
    ensures FoundingApart(t)
  {
    forall i | i in t.calls && Founding(t.calls[i])
      ensures RowsOf(t.store, t.calls[i].family) == {}
      ensures forall j :: j in t.calls && j != i ==> FamilyOf(t.store, t.calls[j]) != Some(t.calls[i].family)
    {
      var f := t.calls[i].family;
      assert FamilyOf(s.store, s.calls[i]) == Some(f);
      assert RowsOf(s.store, s.calls[i].family) == {};
      assert i != id ==> FamilyOf(s.store, s.calls[id]) != Some(f);
      forall h | h in t.store.tokens ensures t.store.tokens[h].family != f {
        if h in s.store.tokens { assert h !in RowsOf(s.store, f); }
      }
      forall j | j in t.calls && j != i ensures FamilyOf(t.store, t.calls[j]) != Some(f) {
        if j != id {
          FamilyStable(s.store, t.store, s.calls[j], if i == id then None else FamilyOf(s.store, s.calls[id]));
        }
      }
    }
  }

  lemma ApartBegin(s: Sys, id: nat, c: Call)
    requires FoundingApart(s) && Request(c)
    ensures FoundingApart(s.(calls := s.calls[id := c]))
  {
    var t := s.(calls := s.calls[id := c]);
    forall i | i in t.calls && Founding(t.calls[i])
      ensures RowsOf(t.store, t.calls[i].family) == {}
      ensures forall j :: j in t.calls && j != i ==> FamilyOf(t.store, t.calls[j]) != Some(t.calls[i].family)
    {
      assert RowsOf(s.store, s.calls[i].family) == {};
      assert forall h :: h in s.store.tokens && s.store.tokens[h].family == s.calls[i].family ==> h in RowsOf(s.store, s.calls[i].family);
    }
  }

  /** A login draws a family no row and no call is on. */
  lemma ApartDraw(s: Sys, t: Sys, id: nat)
    requires StoreOk(s.store) && (forall i :: i in s.calls ==> CallOk(s.store, s.calls[i]))
    requires FoundingApart(s) && id in s.calls && id in t.calls && t.calls == s.calls[id := t.calls[id]]
    requires t.store.tokens == s.store.tokens && Founding(t.calls[id]) && t.calls[id].family == s.store.supply
    ensures FoundingApart(t)
  {
    forall h | h in s.store.tokens ensures s.store.tokens[h].family != s.store.supply {
      assert RowOk(s.store, h, s.store.tokens[h]);
    }
    forall j | j in s.calls ensures FamilyOf(s.store, s.calls[j]) != Some(s.store.supply) {
      FamilyDrawn(s.store, s.calls[j]);
    }
    forall i | i in t.calls && Founding(t.calls[i])
      ensures RowsOf(t.store, t.calls[i].family) == {}
      ensures forall j :: j in t.calls && j != i ==> FamilyOf(t.store, t.calls[j]) != Some(t.calls[i].family)
    {
      assert RowsOf(t.store, t.calls[i].family) == RowsOf(s.store, t.calls[i].family);
      if i != id {
        assert FamilyOf(s.store, s.calls[i]) == Some(s.calls[i].family);
      }
    }
  }

  /** The family a call is on was drawn before. */
  lemma FamilyDrawn(s: Store, c: Call)
    requires TablesOk(s) && CallOk(s, c)
    ensures FamilyOf(s, c).Some? ==> FamilyOf(s, c).value < s.supply
  {
    if c.Spend? || c.RefreshUser? || c.RefreshDevice? {
      assert RowOk(s, c.hash, s.tokens[c.hash]);
    } else if (c.Find? || c.Logout?) && Sha256(c.raw) in s.tokens {
      assert RowOk(s, Sha256(c.raw), s.tokens[Sha256(c.raw)]);
    }
  }

  lemma GoFoundingApart(cfg: Config, s: Sys, id: nat, delay: nat, o: Outcome)
    requires Sound(cfg, s) && id in s.calls
    ensures FoundingApart(Apply(cfg, s, Go(id, delay, o)))
  {
    GoStore(cfg, s, id, delay, o);
    var c, b, t := s.calls[id], Elapse(s.store, delay), Apply(cfg, s, Go(id, delay, o));
    if Then(cfg, b, c, o).Continue? {
      NextFamily(cfg, b, c, o, t.store);
    }
    if c.LoginUser? && id in t.calls {
      ApartDraw(s, t, id);
    } else {
      assert forall h :: h in b.tokens ==> Kept(b.tokens[h], t.store.tokens[h]);
      ApartStep(s, t, id);
    }
  }

  lemma GoGrants(cfg: Config, s: Sys, id: nat, delay: nat, o: Outcome)
    requires GrantsOk(cfg, s) && id in s.calls
    requires Grows(s.store, Apply(cfg, s, Go(id, delay, o)).store)
    ensures GrantsOk(cfg, Apply(cfg, s, Go(id, delay, o)))
  {
    var c, b, t := s.calls[id], Elapse(s.store, delay), Apply(cfg, s, Go(id, delay, o));
    forall g | g in t.grants
      ensures exists k: Jwt.Claims, at: int :: at <= t.store.now && g.token == cfg.issuer.Sign(k, at)
    {
      if g in s.grants {
        var k: Jwt.Claims, at: int :| at <= s.store.now && g.token == cfg.issuer.Sign(k, at);
      } else {
        assert c.Sign?;
        assert g.token == cfg.issuer.Sign(ClaimsOf(c.user, c.device), b.now);
        assert t.store == b;
      }
    }
  }

  /** One transition, whatever it is and whatever fails, keeps Sound. */
  lemma ApplySound(cfg: Config, s: Sys, a: Action)
    requires Sound(cfg, s)
    ensures Sound(cfg, Apply(cfg, s, a)) && Grows(s.store, Apply(cfg, s, a).store)
  {
    if Enabled(s, a) && a.Begin? {
      ApartBegin(s, a.id, a.call);
    } else if Enabled(s, a) {
      var id, delay, o := a.id, a.delay, a.outcome;
      var c, b, s' := s.calls[id], Elapse(s.store, delay), Apply(cfg, s, a);
      GoStore(cfg, s, id, delay, o);
      GrowsTransitive(s.store, b, s'.store);
      GoCounted(cfg, s, id, delay, o);
      GoFoundingApart(cfg, s, id, delay, o);
      forall i | i in s'.calls ensures CallOk(s'.store, s'.calls[i]) {
        if i == id {
          NextOk(cfg, b, c, o);
        } else {
          CallOkGrows(s.store, s'.store, s.calls[i]);
        }
      }
      GoGrants(cfg, s, id, delay, o);
    }
  }

  lemma {:induction false} RunSound(cfg: Config, s: Sys, acts: seq<Action>)
    requires Sound(cfg, s)
    ensures Sound(cfg, Run(cfg, s, acts)) && Grows(s.store, Run(cfg, s, acts).store)
    decreases |acts|
  {
    if acts != [] {
      var t := Apply(cfg, s, acts[0]);
      ApplySound(cfg, s, acts[0]);
      RunSound(cfg, t, acts[1..]);
      GrowsTransitive(s.store, t.store, Run(cfg, t, acts[1..]).store);
    }
  }
}
