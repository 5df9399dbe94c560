/** What each IAM request replies and stores when the database answers every
    statement, in terms of the tables it starts from. */
module IamReplies {
  import opened Common
  import opened TokenStore
  import opened TokenFamilies
  import opened IamService
  import TokenSafety

  ghost predicate Healthy(net: Stage -> Wire) {
    forall g :: net(g).outcome.Done?
  }

  /** The device a request names: the one of this user and fingerprint, or, when
      no fingerprint is sent, the given default. */
  predicate DeviceIs(t: Store, user: Id, fingerprint: string, device: Option<Id>, default: Option<Id>) {
    if fingerprint == "" then device == default
    else DeviceKey(user, fingerprint) in t.deviceIndex && device == Some(t.deviceIndex[DeviceKey(user, fingerprint)])
         && Owns(t, user, device.value)
  }

  /** A pair issued at time `at` over the rows `base`: a new refresh token, live,
      in the family, lasting the refresh TTL; and an access token for the same
      user and device. */
  ghost predicate Issued(cfg: Config, base: map<Hash, Row>, t: Store, r: Reply, u: User, family: Id, device: Option<Id>, at: int) {
    && r.Pair? && r.user == u && r.refreshExpiresAt == at + cfg.refreshTTL
    && r.access == cfg.issuer.Sign(r.access.claims, at)
    && r.access.claims.user == u.id && r.access.claims.org == u.org && r.access.claims.email == u.email
    && r.access.claims.role == u.role && r.access.claims.device == device
    && Sha256(r.refresh) !in base
    && t.tokens == base[Sha256(r.refresh) := Row(u.id, device, family, at + cfg.refreshTTL, None)]
  }

  lemma FreshHash(s: Store)
    requires TablesOk(s)
    ensures Sha256(s.supply) !in s.tokens
  {
    forall h | h in s.tokens ensures h.raw < s.supply { assert RowOk(s, h, s.tokens[h]); }
  }

  lemma IssueReplies(cfg: Config, s: Store, u: User, device: Option<Id>, family: Id, parent: Option<Hash>, net: Stage -> Wire)
    requires Healthy(net) && Sha256(s.supply) !in s.tokens
    ensures var (t, r) := RunCall(cfg, s, Sign(u, device, family, parent), net);
            && Issued(cfg, s.tokens, t, r, u, family, device, s.now + net(SignJwt).delay)
            && t.devices == s.devices && t.deviceIndex == s.deviceIndex
            && s.now + net(SignJwt).delay <= t.now
  {
    var b := Elapse(s, net(SignJwt).delay);
    var n := Then(cfg, b, Sign(u, device, family, parent), Done);
    assert RunCall(cfg, s, Sign(u, device, family, parent), net) == RunCall(cfg, b, n.call, net);
  }

  lemma UpsertFacts(s: Store, user: Id, fingerprint: string, name: string)
    requires TablesOk(s)
    ensures var (v, d) := UpsertDevice(s, user, fingerprint, name);
            && v.tokens == s.tokens && v.now == s.now && Sha256(v.supply) !in v.tokens
            && Owns(v, user, d) && DeviceKey(user, fingerprint) in v.deviceIndex && v.deviceIndex[DeviceKey(user, fingerprint)] == d
  {
    UpsertDevicesOk(s, user, fingerprint, name);
    forall h | h in s.tokens ensures h.raw < s.supply { assert RowOk(s, h, s.tokens[h]); }
  }

  /** Recording the device and issuing for it. */
  lemma UpsertReplies(cfg: Config, s: Store, u: User, fingerprint: string, name: string, family: Id, parent: Option<Hash>, net: Stage -> Wire)
      returns (device: Option<Id>, at: int)
    requires Healthy(net) && TablesOk(s) && fingerprint != ""
    ensures var (v, d) := UpsertDevice(s, u.id, fingerprint, name);
            var (t, r) := RunCall(cfg, v, Sign(u, Some(d), family, parent), net);
            && Issued(cfg, s.tokens, t, r, u, family, device, at) && s.now <= at <= t.now
            && DeviceIs(t, u.id, fingerprint, device, None)
  {
    UpsertFacts(s, u.id, fingerprint, name);
    var (v, d) := UpsertDevice(s, u.id, fingerprint, name);
    IssueReplies(cfg, v, u, Some(d), family, parent, net);
    device, at := Some(d), v.now + net(SignJwt).delay;
  }

  lemma LoginDeviceSteps(cfg: Config, s: Store, u: User, fingerprint: string, name: string, family: Id, net: Stage -> Wire)
    requires Healthy(net)
    ensures var (v, d) := UpsertDevice(Elapse(s, net(GetDevice).delay), u.id, fingerprint, name);
            RunCall(cfg, s, LoginDevice(u, fingerprint, name, family), net) == RunCall(cfg, v, Sign(u, Some(d), family, None), net)
  {
  }

  lemma RefreshDeviceSteps(cfg: Config, s: Store, h: Hash, row: Row, u: User, fingerprint: string, net: Stage -> Wire)
    requires Healthy(net)
    ensures var (v, d) := UpsertDevice(Elapse(s, net(GetDevice).delay), u.id, fingerprint, "");
            RunCall(cfg, s, RefreshDevice(h, row, u, fingerprint), net) == RunCall(cfg, v, Sign(u, Some(d), row.family, Some(h)), net)
  {
  }

  /** Login issues a pair in a new family iff the email names an active user whose
      password it is; otherwise it says only that the credentials are bad, and
      stores nothing. */
  lemma LoginReplies(cfg: Config, s: Store, email: string, password: string, fingerprint: string, name: string, net: Stage -> Wire)
      returns (family: Id, device: Option<Id>, at: int)
    requires TablesOk(s) && Healthy(net)
    ensures var (t, r) := RunCall(cfg, s, LoginUser(email, password, fingerprint, name), net);
            if email in s.byEmail && s.byEmail[email] in s.users
               && s.users[s.byEmail[email]].active && s.users[s.byEmail[email]].password == Bcrypt(password) then
              var u := s.users[s.byEmail[email]];
              && Issued(cfg, s.tokens, t, r, u, family, device, at) && s.now <= at <= t.now
              && RowsOf(s, family) == {} && DeviceIs(t, u.id, fingerprint, device, None)
            else r == Refused(BadCredentials) && t.tokens == s.tokens && t.devices == s.devices
  {
    family, device, at := s.supply, None, 0;
    var b := Elapse(s, net(GetUser).delay);
    var v := Exec(b, SelectAndDraw);
    var n := Then(cfg, b, LoginUser(email, password, fingerprint, name), Done);
    forall h | h in s.tokens ensures h.raw < s.supply && s.tokens[h].family < s.supply { assert RowOk(s, h, s.tokens[h]); }
    if n.Continue? {
      assert RunCall(cfg, s, LoginUser(email, password, fingerprint, name), net) == RunCall(cfg, v, n.call, net);
      var u := GetUserByEmail(s, email).value;
      if fingerprint != "" {
        var w := Elapse(v, net(GetDevice).delay);
        ExecTablesOk(s, SelectAndDraw);
        LaterTablesOk(Exec(s, SelectAndDraw), w);
        LoginDeviceSteps(cfg, v, u, fingerprint, name, family, net);
        device, at := UpsertReplies(cfg, w, u, fingerprint, name, family, None, net);
      } else {
        IssueReplies(cfg, v, u, None, family, None, net);
        at := v.now + net(SignJwt).delay;
      }
    }
  }

  lemma LaterTablesOk(s: Store, t: Store)
    requires TablesOk(s) && t == s.(now := t.now)
    ensures TablesOk(t)
  {
    forall h | h in t.tokens ensures RowOk(t, h, t.tokens[h]) { assert RowOk(s, h, s.tokens[h]); }
  }

  /** A replayed token: reuse is reported, its whole family is revoked, and no
      other family changes. */
  lemma ReplayReplies(cfg: Config, s: Store, raw: nat, fingerprint: string, net: Stage -> Wire)
    requires Healthy(net)
    requires Sha256(raw) in s.tokens && s.tokens[Sha256(raw)].revokedAt.Some?
    ensures var (t, r) := RunCall(cfg, s, Find(raw, fingerprint), net);
            var f := s.tokens[Sha256(raw)].family;
            && r == Refused(TokenReuse) && AllRevoked(t, f) && t.tokens.Keys == s.tokens.Keys
            && (forall h :: h in s.tokens && (s.tokens[h].family != f || s.tokens[h].revokedAt.Some?) ==> t.tokens[h] == s.tokens[h])
            && (forall h :: h in s.tokens && s.tokens[h].family == f && s.tokens[h].revokedAt.None? ==>
                  t.tokens[h] == s.tokens[h].(revokedAt := Some(t.now)))
  {
    var f := s.tokens[Sha256(raw)].family;
    var b := Elapse(s, net(FindToken).delay);
    assert RunCall(cfg, s, Find(raw, fingerprint), net) == RunCall(cfg, b, Kill(f), net);
  }

  /** A replay whose family revocation fails is never reported as handled. */
  lemma FailedRevocationSurfaces(cfg: Config, s: Store, raw: nat, fingerprint: string, net: Stage -> Wire)
    requires net(FindToken).outcome.Done? && net(Family).outcome.Failed?
    requires Sha256(raw) in s.tokens && s.tokens[Sha256(raw)].revokedAt.Some?
    ensures RunCall(cfg, s, Find(raw, fingerprint), net).1 == Refused(ReuseRevokeFailed)
  {
    var b := Elapse(s, net(FindToken).delay);
    assert RunCall(cfg, s, Find(raw, fingerprint), net) == RunCall(cfg, b, Kill(s.tokens[Sha256(raw)].family), net);
  }

  /** The tables once Refresh has revoked the presented token and read its user. */
  function Spent(s: Store, h: Hash, net: Stage -> Wire): Store {
    Elapse(RevokeToken(Elapse(s, net(Token).delay), h), net(GetUser).delay)
  }

  lemma SpentTablesOk(s: Store, h: Hash, net: Stage -> Wire)
    requires TablesOk(s)
    ensures TablesOk(Spent(s, h, net)) && Spent(s, h, net).users == s.users && Sha256(Spent(s, h, net).supply) !in Spent(s, h, net).tokens
  {
    var b := Elapse(s, net(Token).delay);
    LaterTablesOk(s, b);
    ExecTablesOk(b, Revoke1(h));
    LaterTablesOk(RevokeToken(b, h), Spent(s, h, net));
    FreshHash(Spent(s, h, net));
  }

  lemma SpendSteps(cfg: Config, s: Store, h: Hash, row: Row, fingerprint: string, net: Stage -> Wire)
    requires Healthy(net) && row.user in s.users
    ensures RunCall(cfg, s, Spend(h, row, fingerprint), net)
         == RunCall(cfg, Spent(s, h, net), if fingerprint != "" then RefreshDevice(h, row, s.users[row.user], fingerprint)
                                           else Sign(s.users[row.user], row.device, row.family, Some(h)), net)
  {
    var v := RevokeToken(Elapse(s, net(Token).delay), h);
    assert RunCall(cfg, s, Spend(h, row, fingerprint), net) == RunCall(cfg, v, RefreshUser(h, row, fingerprint), net);
  }

  /** Refresh past its lookup, whatever the presented token's row is by now. */
  lemma SpendReplies(cfg: Config, s: Store, h: Hash, row: Row, fingerprint: string, net: Stage -> Wire)
      returns (device: Option<Id>, at: int)
    requires Healthy(net) && TablesOk(s) && row.user in s.users
    ensures var (t, r) := RunCall(cfg, s, Spend(h, row, fingerprint), net);
            && Issued(cfg, RevokeToken(Elapse(s, net(Token).delay), h).tokens, t, r, s.users[row.user], row.family, device, at)
            && s.now <= at <= t.now && DeviceIs(t, row.user, fingerprint, device, row.device)
  {
    var w, u := Spent(s, h, net), s.users[row.user];
    assert u.id == row.user;
    SpentTablesOk(s, h, net);
    SpendSteps(cfg, s, h, row, fingerprint, net);
    if fingerprint != "" {
      var z := Elapse(w, net(GetDevice).delay);
      LaterTablesOk(w, z);
      RefreshDeviceSteps(cfg, w, h, row, u, fingerprint, net);
      device, at := UpsertReplies(cfg, z, u, fingerprint, "", row.family, Some(h), net);
    } else {
      IssueReplies(cfg, w, u, row.device, row.family, Some(h), net);
      device, at := row.device, w.now + net(SignJwt).delay;
    }
  }

  /** Refresh of an unknown or expired token is refused and stores nothing; of a
      live one it revokes that row alone and issues its successor in the same
      family to the same user, even one deactivated since. */
  lemma RefreshReplies(cfg: Config, s: Store, raw: nat, fingerprint: string, net: Stage -> Wire)
      returns (device: Option<Id>, at: int)
    requires TablesOk(s) && Healthy(net)
    ensures var (t, r) := RunCall(cfg, s, Find(raw, fingerprint), net);
            var h := Sha256(raw);
            && (h !in s.tokens ==> r == Refused(TokenNotFound) && t.tokens == s.tokens)
            && (h in s.tokens && s.tokens[h].revokedAt.None? ==>
                  if s.now + net(FindToken).delay > s.tokens[h].expiresAt then r == Refused(TokenExpired) && t.tokens == s.tokens
                  else
                    var row := s.tokens[h];
                    var base := s.tokens[h := row.(revokedAt := Some(s.now + net(FindToken).delay + net(Token).delay))];
                    && row.user in s.users
                    && Issued(cfg, base, t, r, s.users[row.user], row.family, device, at) && s.now <= at <= t.now
                    && DeviceIs(t, row.user, fingerprint, device, row.device))
  {
    device, at := None, 0;
    var h, b := Sha256(raw), Elapse(s, net(FindToken).delay);
    if FindRefreshToken(b, h).Live? {
      assert RowOk(s, h, s.tokens[h]);
      LaterTablesOk(s, b);
      assert RunCall(cfg, s, Find(raw, fingerprint), net) == RunCall(cfg, b, Spend(h, s.tokens[h], fingerprint), net);
      device, at := SpendReplies(cfg, b, h, s.tokens[h], fingerprint, net);
    }
  }

  lemma ExecKeepsRows(s: Store, q: Statement)
    ensures forall h :: h in s.tokens ==> h in Exec(s, q).tokens && Kept(s.tokens[h], Exec(s, q).tokens[h])
  {
  }

  lemma EffectKeepsRows(s: Store, c: Call, o: Outcome)
    ensures forall h :: h in s.tokens ==> h in Effect(s, c, o).tokens && Kept(s.tokens[h], Effect(s, c, o).tokens[h])
  {
    if o.Effective() {
      ExecKeepsRows(s, StatementOf(c));
    }
  }

  /** Rows are only ever revoked, and a pair is returned only after a new one. */
  lemma {:induction false} CallKeepsRows(cfg: Config, s: Store, c: Call, net: Stage -> Wire)
    ensures var (t, r) := RunCall(cfg, s, c, net);
            && (forall h :: h in s.tokens ==> h in t.tokens && Kept(s.tokens[h], t.tokens[h]))
            && (r.Pair? ==> t.tokens.Keys != s.tokens.Keys)
    decreases Remaining(c)
  {
    var w := net(StageOf(c));
    var b := Elapse(s, w.delay);
    var v, n := Effect(b, c, w.outcome), Then(cfg, b, c, w.outcome);
    EffectKeepsRows(b, c, w.outcome);
    match n {
      case Continue(d) =>
        CallKeepsRows(cfg, v, d, net);
      case Return(r) =>
        assert r.Pair? ==> c.Save? && Sha256(b.supply) in v.tokens && Sha256(b.supply) !in s.tokens;
    }
  }

  /** A Refresh that revokes the presented token and then fails to store its
      successor leaves the family without a live row, and the client's retry of the
      same token is answered as a replay. */
  lemma LostRefreshLocksOut(cfg: Config, s: Store, raw: nat, fingerprint: string, net: Stage -> Wire, retry: Stage -> Wire)
    requires TokenSafety.OneLive(s) && TokenSafety.IsLive(s, Sha256(raw)) && Healthy(retry)
    requires net(FindToken).outcome.Done? && s.now + net(FindToken).delay <= s.tokens[Sha256(raw)].expiresAt
    requires net(Token).outcome.Effective()
    requires RunCall(cfg, s, Find(raw, fingerprint), net).0.tokens.Keys == s.tokens.Keys
    ensures var (t, r) := RunCall(cfg, s, Find(raw, fingerprint), net);
            && r.Refused? && AllRevoked(t, s.tokens[Sha256(raw)].family)
            && RunCall(cfg, t, Find(raw, fingerprint), retry).1 == Refused(TokenReuse)
  {
    var h, row, b := Sha256(raw), s.tokens[Sha256(raw)], Elapse(s, net(FindToken).delay);
    var t := RunCall(cfg, s, Find(raw, fingerprint), net).0;
    SpendRevokesFirst(cfg, b, h, row, fingerprint, net);
    assert RunCall(cfg, s, Find(raw, fingerprint), net) == RunCall(cfg, b, Spend(h, row, fingerprint), net);
    CallKeepsRows(cfg, s, Find(raw, fingerprint), net);
    forall g | g in t.tokens && t.tokens[g].family == row.family ensures t.tokens[g].revokedAt.Some? {
      assert Kept(s.tokens[g], t.tokens[g]) && (TokenSafety.IsLive(s, g) ==> g == h);
    }
    ReplayReplies(cfg, t, raw, fingerprint, retry);
    FindNeverLogsOut(cfg, s, Find(raw, fingerprint), net);
  }

  lemma {:induction false} FindNeverLogsOut(cfg: Config, s: Store, c: Call, net: Stage -> Wire)
    requires !c.Logout?
    ensures !RunCall(cfg, s, c, net).1.LoggedOut?
    decreases Remaining(c)
  {
    var w := net(StageOf(c));
    var b := Elapse(s, w.delay);
    var n := Then(cfg, b, c, w.outcome);
    if n.Continue? {
      FindNeverLogsOut(cfg, Effect(b, c, w.outcome), n.call, net);
    }
  }

  lemma SpendRevokesFirst(cfg: Config, s: Store, h: Hash, row: Row, fingerprint: string, net: Stage -> Wire)
    requires h in s.tokens && net(Token).outcome.Effective()
    ensures var t := RunCall(cfg, s, Spend(h, row, fingerprint), net).0; h in t.tokens && t.tokens[h].revokedAt.Some?
  {
    var v := RevokeToken(Elapse(s, net(Token).delay), h);
    if net(Token).outcome.Done? {
      assert RunCall(cfg, s, Spend(h, row, fingerprint), net) == RunCall(cfg, v, RefreshUser(h, row, fingerprint), net);
      CallKeepsRows(cfg, v, RefreshUser(h, row, fingerprint), net);
    }
  }

  /** Logout revokes the presented token and no other, and replies alike whether
      or not the token is known. */
  lemma LogoutReplies(cfg: Config, s: Store, raw: nat, net: Stage -> Wire)
    requires Healthy(net)
    ensures var (t, r) := RunCall(cfg, s, Logout(raw), net);
            && r == LoggedOut && t.tokens.Keys == s.tokens.Keys
            && (forall h :: h in s.tokens && h != Sha256(raw) ==> t.tokens[h] == s.tokens[h])
            && (Sha256(raw) in s.tokens ==>
                  var row := s.tokens[Sha256(raw)];
                  t.tokens[Sha256(raw)] == if row.revokedAt.Some? then row else row.(revokedAt := Some(t.now)))
  {
  }

  /** The statements a call still has to make before it can return a pair. */
  ghost function Path(c: Call): set<Stage> {
    match c
    case LoginUser(_, _, fp, _) => {GetUser, SignJwt, StoreToken} + (if fp == "" then {} else {GetDevice})
    case LoginDevice(_, _, _, _) => {GetDevice, SignJwt, StoreToken}
    case Find(_, fp) => {FindToken, Token, GetUser, SignJwt, StoreToken} + (if fp == "" then {} else {GetDevice})
    case Kill(_) => {Family}
    case Spend(_, _, fp) => {Token, GetUser, SignJwt, StoreToken} + (if fp == "" then {} else {GetDevice})
    case RefreshUser(_, _, fp) => {GetUser, SignJwt, StoreToken} + (if fp == "" then {} else {GetDevice})
    case RefreshDevice(_, _, _, _) => {GetDevice, SignJwt, StoreToken}
    case Sign(_, _, _, _) => {SignJwt, StoreToken}
    case Save(_, _, _, _, _, _) => {StoreToken}
    case Logout(_) => {Token}
  }

  lemma {:induction false} PairNeedsPath(cfg: Config, s: Store, c: Call, net: Stage -> Wire)
    ensures RunCall(cfg, s, c, net).1.Pair? ==> forall g :: g in Path(c) ==> net(g).outcome == Done
    decreases Remaining(c)
  {
    var w := net(StageOf(c));
    var b := Elapse(s, w.delay);
    var n := Then(cfg, b, c, w.outcome);
    if n.Continue? {
      PairNeedsPath(cfg, Effect(b, c, w.outcome), n.call, net);
      assert n.call.Kill? || Path(c) <= Path(n.call) + {StageOf(c)};
      if n.call.Kill? { NoPairAfterKill(cfg, Effect(b, c, w.outcome), n.call.family, net); }
    }
  }

  lemma NoPairAfterKill(cfg: Config, s: Store, family: Id, net: Stage -> Wire)
    ensures !RunCall(cfg, s, Kill(family), net).1.Pair?
  {
  }

  /** No failure is swallowed: a pair is only returned when every statement of the
      call went through, the device's too when a fingerprint was sent; a failed
      lookup is an error of its own; and Logout succeeds exactly when its statement
      does. */
  lemma SuccessNeedsAll(cfg: Config, s: Store, email: string, password: string, fingerprint: string, name: string, raw: nat, net: Stage -> Wire)
    ensures RunCall(cfg, s, LoginUser(email, password, fingerprint, name), net).1.Pair? ==>
              && net(GetUser).outcome == Done && net(SignJwt).outcome == Done && net(StoreToken).outcome == Done
              && (fingerprint != "" ==> net(GetDevice).outcome == Done)
    ensures RunCall(cfg, s, Find(raw, fingerprint), net).1.Pair? ==>
              && net(FindToken).outcome == Done && net(Token).outcome == Done && net(GetUser).outcome == Done
              && net(SignJwt).outcome == Done && net(StoreToken).outcome == Done
              && (fingerprint != "" ==> net(GetDevice).outcome == Done)
    ensures net(GetUser).outcome != Done ==> RunCall(cfg, s, LoginUser(email, password, fingerprint, name), net).1 == Refused(Internal)
    ensures net(FindToken).outcome != Done ==> RunCall(cfg, s, Find(raw, fingerprint), net).1 == Refused(Internal)
    ensures RunCall(cfg, s, Logout(raw), net).1 == if net(Token).outcome == Done then LoggedOut else Refused(Internal)
  {
    PairNeedsPath(cfg, s, LoginUser(email, password, fingerprint, name), net);
    PairNeedsPath(cfg, s, Find(raw, fingerprint), net);
    assert {FindToken, Token, GetUser, SignJwt, StoreToken} <= Path(Find(raw, fingerprint));
    assert {GetUser, SignJwt, StoreToken} <= Path(LoginUser(email, password, fingerprint, name));
  }
}
