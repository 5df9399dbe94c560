/** The repository and the service as the code has them: an object over the
    tables, and calls that run statement by statement with early returns. */
module IamService {
  import opened Common
  import opened TokenStore
  import opened TokenFamilies
  import Jwt

  datatype Stage = GetUser | GetDevice | FindToken | Family | Token | SignJwt | StoreToken

  function StageOf(c: Call): Stage {
    match c
    case LoginUser(_, _, _, _) => GetUser
    case RefreshUser(_, _, _) => GetUser
    case LoginDevice(_, _, _, _) => GetDevice
    case RefreshDevice(_, _, _, _) => GetDevice
    case Find(_, _) => FindToken
    case Kill(_) => Family
    case Spend(_, _, _) => Token
    case Logout(_) => Token
    case Sign(_, _, _, _) => SignJwt
    case Save(_, _, _, _, _, _) => StoreToken
  }

  function Remaining(c: Call): nat {
    match c
    case LoginUser(_, _, _, _) => 4
    case LoginDevice(_, _, _, _) => 3
    case Find(_, _) => 6
    case Kill(_) => 1
    case Spend(_, _, _) => 5
    case RefreshUser(_, _, _) => 4
    case RefreshDevice(_, _, _, _) => 3
    case Sign(_, _, _, _) => 2
    case Save(_, _, _, _, _, _) => 1
    case Logout(_) => 1
  }

  /** A call run from its first statement to its reply with nothing in between. */
  function RunCall(cfg: Config, s: Store, c: Call, net: Stage -> Wire): (Store, Reply)
    decreases Remaining(c)
  {
    var w := net(StageOf(c));
    var b := Elapse(s, w.delay);
    match Then(cfg, b, c, w.outcome)
    case Return(r) => (Effect(b, c, w.outcome), r)
    case Continue(d) => RunCall(cfg, Effect(b, c, w.outcome), d, net)
  }

  /** Such a run is a run of the machine: call id leaves it, other calls stay,
      and the tables are those RunCall gives. */
  lemma {:induction false} UninterruptedRun(cfg: Config, s: Sys, id: nat, net: Stage -> Wire) returns (acts: seq<Action>)
    requires id in s.calls
    ensures forall a :: a in acts ==> a.Go? && a.id == id
    ensures var t := Run(cfg, s, acts);
            t.store == RunCall(cfg, s.store, s.calls[id], net).0 && t.calls == s.calls - {id}
    decreases Remaining(s.calls[id])
  {
    var w := net(StageOf(s.calls[id]));
    var a := Go(id, w.delay, w.outcome);
    var t := Apply(cfg, s, a);
    if id in t.calls {
      var rest := UninterruptedRun(cfg, t, id, net);
      acts := [a] + rest;
      assert acts[1..] == rest && t.calls - {id} == s.calls - {id};
    } else {
      acts := [a];
      assert Run(cfg, t, []) == t;
    }
  }

  /** The two steps of issuing a pair. */
  lemma SignSteps(cfg: Config, s: Store, u: User, device: Option<Id>, family: Id, parent: Option<Hash>, net: Stage -> Wire)
    ensures var b := Elapse(s, net(SignJwt).delay);
            RunCall(cfg, s, Sign(u, device, family, parent), net)
            == if net(SignJwt).outcome.Failed? then (b, Refused(Internal))
               else RunCall(cfg, b, Save(u, device, family, parent, cfg.issuer.Sign(ClaimsOf(u, device), b.now), b.now + cfg.refreshTTL), net)
  {
  }

  lemma SaveSteps(cfg: Config, s: Store, u: User, device: Option<Id>, family: Id, parent: Option<Hash>, access: Jwt.Token, end: int, net: Stage -> Wire)
    ensures var b := Elapse(s, net(StoreToken).delay);
            var o := net(StoreToken).outcome;
            RunCall(cfg, s, Save(u, device, family, parent, access, end), net)
            == (if o.Effective() then StoreRefreshToken(b, Row(u.id, device, family, end, None)) else b,
                if o.Failed? || Sha256(b.supply) in b.tokens then Refused(Internal) else Pair(access, b.supply, end, u))
  {
  }

  /** The pgx repository. */
  class Postgres {
    var users: map<Id, User>
    var byEmail: map<string, Id>
    var devices: map<Id, Device>
    var deviceIndex: map<DeviceKey, Id>
    var tokens: map<Hash, Row>
    var supply: nat
    var now: int

    constructor ()
      ensures Snapshot() == Store(map[], map[], map[], map[], map[], 0, 0)
    {
      users, byEmail, devices, deviceIndex, tokens, supply, now := map[], map[], map[], map[], map[], 0, 0;
    }

    function Snapshot(): Store
      reads this
    {
      Store(users, byEmail, devices, deviceIndex, tokens, supply, now)
    }

    method Wait(delay: nat)
      modifies this`now
      ensures Snapshot() == Elapse(old(Snapshot()), delay)
    {
      now := now + delay;
    }

    method NewUuid(o: Outcome) returns (id: Id)
      modifies this`supply
      ensures Snapshot() == if o.Effective() then Exec(old(Snapshot()), SelectAndDraw) else old(Snapshot())
      ensures id == old(supply)
    {
      id := supply;
      if o.Effective() { supply := supply + 1; }
    }

    method FindRefreshToken(h: Hash) returns (r: Lookup)
      ensures r == TokenStore.FindRefreshToken(Snapshot(), h)
    {
      if h !in tokens { return Missing; }
      var row := tokens[h];
      if row.revokedAt.Some? { return Revoked(row); }
      if now > row.expiresAt { return Expired(row); }
      return Live(row);
    }

    method RevokeToken(h: Hash, o: Outcome)
      modifies this`tokens
      ensures Snapshot() == if o.Effective() then TokenStore.RevokeToken(old(Snapshot()), h) else old(Snapshot())
    {
      if o.Effective() && h in tokens && tokens[h].revokedAt.None? {
        tokens := tokens[h := tokens[h].(revokedAt := Some(now))];
      }
      assert old(h in tokens && tokens[h].revokedAt.Some?) ==> old(tokens[h := tokens[h]]) == tokens;
    }

    method RevokeFamily(family: Id, o: Outcome)
      modifies this`tokens
      ensures Snapshot() == if o.Effective() then TokenStore.RevokeFamily(old(Snapshot()), family) else old(Snapshot())
    {
      if o.Effective() {
        tokens := map h | h in tokens :: if tokens[h].family == family then Revoke(tokens[h], now) else tokens[h];
      }
    }

    method UpsertDevice(user: Id, fingerprint: string, name: string, o: Outcome) returns (id: Id)
      modifies this`devices, this`deviceIndex, this`supply
      ensures Snapshot() == if o.Effective() then TokenStore.UpsertDevice(old(Snapshot()), user, fingerprint, name).0 else old(Snapshot())
      ensures o.Done? ==> id == TokenStore.UpsertDevice(old(Snapshot()), user, fingerprint, name).1
    {
      id := 0;
      if o.Effective() {
        var k := DeviceKey(user, fingerprint);
        if k in deviceIndex && deviceIndex[k] in devices {
          id := deviceIndex[k];
          devices := devices[id := devices[id].(lastSeen := now)];
        } else {
          id := supply;
          devices, deviceIndex, supply := devices[id := Device(k, name, now)], deviceIndex[k := id], supply + 1;
        }
      }
    }

    /** Stores the row under a freshly drawn token; false on a duplicate hash. */
    method StoreRefreshToken(r: Row, o: Outcome) returns (raw: nat, stored: bool)
      modifies this`tokens, this`supply
      ensures Snapshot() == if o.Effective() then TokenStore.StoreRefreshToken(old(Snapshot()), r) else old(Snapshot())
      ensures raw == old(supply) && (stored <==> Sha256(raw) !in old(tokens))
    {
      raw, stored := supply, Sha256(supply) !in tokens;
      if o.Effective() {
        if stored { tokens := tokens[Sha256(raw) := r]; }
        supply := supply + 1;
      }
    }
  }

  class IAM {
    const repo: Postgres
    const cfg: Config

    constructor (repo: Postgres, cfg: Config)
      ensures this.repo == repo && this.cfg == cfg
    {
      this.repo, this.cfg := repo, cfg;
    }

    method Login(email: string, password: string, fingerprint: string, deviceName: string, net: Stage -> Wire) returns (r: Reply)
      modifies repo
      ensures (repo.Snapshot(), r) == RunCall(cfg, old(repo.Snapshot()), LoginUser(email, password, fingerprint, deviceName), net)
      ensures r.Pair? ==>
                && r.access.claims.user == r.user.id && r.access.claims.org == r.user.org
                && r.access.claims.email == r.user.email && r.access.claims.role == r.user.role
    {
      var w := net(GetUser);
      repo.Wait(w.delay);
      var found := GetUserByEmail(repo.Snapshot(), email);
      var family := repo.NewUuid(w.outcome);
      if w.outcome.Failed? { return Refused(Internal); }
      if found.None? { return Refused(BadCredentials); }
      var u := found.value;
      if !u.active { return Refused(BadCredentials); }
      if u.password != Bcrypt(password) { return Refused(BadCredentials); }
      var device := None;
      if fingerprint != "" {
        w := net(GetDevice);
        repo.Wait(w.delay);
        var d := repo.UpsertDevice(u.id, fingerprint, deviceName, w.outcome);
        if w.outcome.Failed? { return Refused(Internal); }
        device := Some(d);
      }
      r := IssueTokens(u, device, family, None, net);
    }

    method Refresh(raw: nat, fingerprint: string, net: Stage -> Wire) returns (r: Reply)
      modifies repo
      ensures (repo.Snapshot(), r) == RunCall(cfg, old(repo.Snapshot()), Find(raw, fingerprint), net)
      ensures r.Pair? ==>
                && r.access.claims.user == r.user.id && r.access.claims.org == r.user.org
                && r.access.claims.email == r.user.email && r.access.claims.role == r.user.role
    {
      var h := Sha256(raw);
      var w := net(FindToken);
      repo.Wait(w.delay);
      if w.outcome.Failed? { return Refused(Internal); }
      var found := repo.FindRefreshToken(h);
      ghost var start := RunCall(cfg, old(repo.Snapshot()), Find(raw, fingerprint), net);
      if found.Revoked? {
        assert start == RunCall(cfg, repo.Snapshot(), Kill(found.row.family), net);
        w := net(Family);
        repo.Wait(w.delay);
        repo.RevokeFamily(found.row.family, w.outcome);
        if w.outcome.Failed? { return Refused(ReuseRevokeFailed); }
        return Refused(TokenReuse);
      }
      if found.Missing? { return Refused(TokenNotFound); }
      if found.Expired? { return Refused(TokenExpired); }
      var rt := found.row;
      assert start == RunCall(cfg, repo.Snapshot(), Spend(h, rt, fingerprint), net);
      w := net(Token);
      repo.Wait(w.delay);
      repo.RevokeToken(h, w.outcome);
      if w.outcome.Failed? { return Refused(Internal); }
      assert start == RunCall(cfg, repo.Snapshot(), RefreshUser(h, rt, fingerprint), net);
      w := net(GetUser);
      repo.Wait(w.delay);
      if w.outcome.Failed? { return Refused(Internal); }
      var u := GetUserByID(repo.Snapshot(), rt.user);
      if u.None? { return Refused(UserNotFound); }
      var device := rt.device;
      if fingerprint != "" {
        assert start == RunCall(cfg, repo.Snapshot(), RefreshDevice(h, rt, u.value, fingerprint), net);
        w := net(GetDevice);
        repo.Wait(w.delay);
        var d := repo.UpsertDevice(u.value.id, fingerprint, "", w.outcome);
        if w.outcome.Failed? { return Refused(Internal); }
        device := Some(d);
      }
      r := IssueTokens(u.value, device, rt.family, Some(h), net);
    }

    method Logout(raw: nat, net: Stage -> Wire) returns (r: Reply)
      modifies repo
      ensures (repo.Snapshot(), r) == RunCall(cfg, old(repo.Snapshot()), TokenFamilies.Logout(raw), net)
    {
      var w := net(Token);
      repo.Wait(w.delay);
      repo.RevokeToken(Sha256(raw), w.outcome);
      return if w.outcome.Failed? then Refused(Internal) else LoggedOut;
    }

    method IssueTokens(u: User, device: Option<Id>, family: Id, ghost parent: Option<Hash>, net: Stage -> Wire) returns (r: Reply)
      modifies repo
      ensures (repo.Snapshot(), r) == RunCall(cfg, old(repo.Snapshot()), Sign(u, device, family, parent), net)
      ensures r.Pair? ==>
                && r.access.claims.user == u.id && r.access.claims.org == u.org
                && r.access.claims.email == u.email && r.access.claims.role == u.role
                && r.access.claims.device == device && r.user == u
    {
      SignSteps(cfg, repo.Snapshot(), u, device, family, parent, net);
      var w := net(SignJwt);
      repo.Wait(w.delay);
      if w.outcome.Failed? { return Refused(Internal); }
      var access := cfg.issuer.Sign(ClaimsOf(u, device), repo.now);
      var expiresAt := repo.now + cfg.refreshTTL;
      SaveSteps(cfg, repo.Snapshot(), u, device, family, parent, access, expiresAt, net);
      w := net(StoreToken);
      repo.Wait(w.delay);
      var raw, stored := repo.StoreRefreshToken(Row(u.id, device, family, expiresAt, None), w.outcome);
      if w.outcome.Failed? || !stored { return Refused(Internal); }
      return Pair(access, raw, expiresAt, u);
    }
  }
}
