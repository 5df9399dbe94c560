/** The IAM tables and the effect of each repository statement on them
    (`svc-aerial-iam/internal/repository/postgres.go`). Rows are keyed by their
    UNIQUE columns. One supply numbers every generated value (device ids,
    family ids, refresh tokens), so generated values are distinct. */
module TokenStore {
  import opened Common

  type Id = nat

  /** SHA-256, taken as injective: a digest names its preimage. */
  datatype Hash = Sha256(raw: nat)

  /** bcrypt, taken as ideal: a hash accepts the password it was made from. */
  datatype PasswordHash = Bcrypt(password: string)

  datatype User = User(id: Id, org: Id, email: string, role: string, active: bool, password: PasswordHash)

  datatype DeviceKey = DeviceKey(user: Id, fingerprint: string)

  datatype Device = Device(key: DeviceKey, name: string, lastSeen: int)

  datatype Row = Row(user: Id, device: Option<Id>, family: Id, expiresAt: int, revokedAt: Option<int>)

  datatype Store = Store(
    users: map<Id, User>, byEmail: map<string, Id>,
    devices: map<Id, Device>, deviceIndex: map<DeviceKey, Id>, tokens: map<Hash, Row>,
    supply: nat, now: int)

  datatype Lookup = Missing | Revoked(row: Row) | Expired(row: Row) | Live(row: Row)

  function FindRefreshToken(s: Store, h: Hash): Lookup {
    if h !in s.tokens then Missing
    else if s.tokens[h].revokedAt.Some? then Revoked(s.tokens[h])
    else if s.now > s.tokens[h].expiresAt then Expired(s.tokens[h])
    else Live(s.tokens[h])
  }

  function GetUserByEmail(s: Store, email: string): Option<User> {
    if email in s.byEmail && s.byEmail[email] in s.users then Some(s.users[s.byEmail[email]]) else None
  }

  function GetUserByID(s: Store, id: Id): Option<User> {
    if id in s.users then Some(s.users[id]) else None
  }

  function Revoke(r: Row, now: int): Row {
    if r.revokedAt.None? then r.(revokedAt := Some(now)) else r
  }

  function RevokeToken(s: Store, h: Hash): Store {
    if h in s.tokens then s.(tokens := s.tokens[h := Revoke(s.tokens[h], s.now)]) else s
  }

  function RevokeFamily(s: Store, family: Id): Store {
    s.(tokens := map h | h in s.tokens ::
         if s.tokens[h].family == family then Revoke(s.tokens[h], s.now) else s.tokens[h])
  }

  /** The devices table is UNIQUE on (user_id, fingerprint); the result is the id. */
  function UpsertDevice(s: Store, user: Id, fingerprint: string, name: string): (Store, Id) {
    var k := DeviceKey(user, fingerprint);
    if k in s.deviceIndex && s.deviceIndex[k] in s.devices then
      var id := s.deviceIndex[k];
      (s.(devices := s.devices[id := s.devices[id].(lastSeen := s.now)]), id)
    else
      (s.(devices := s.devices[s.supply := Device(k, name, s.now)],
          deviceIndex := s.deviceIndex[k := s.supply], supply := s.supply + 1), s.supply)
  }

  /** The INSERT of a freshly drawn refresh token; token_hash is UNIQUE. */
  function StoreRefreshToken(s: Store, r: Row): Store {
    var h := Sha256(s.supply);
    s.(tokens := if h in s.tokens then s.tokens else s.tokens[h := r], supply := s.supply + 1)
  }

  /** What a call asks of the database in one round trip. A login draws its
      family id while it looks its user up. */
  datatype Statement =
    | Select
    | SelectAndDraw
    | Upsert(user: Id, fingerprint: string, name: string)
    | Revoke1(hash: Hash)
    | RevokeAll(family: Id)
    | Insert(row: Row)

  function Exec(s: Store, q: Statement): Store {
    match q
    case Select => s
    case SelectAndDraw => s.(supply := s.supply + 1)
    case Upsert(user, fingerprint, name) => UpsertDevice(s, user, fingerprint, name).0
    case Revoke1(h) => RevokeToken(s, h)
    case RevokeAll(f) => RevokeFamily(s, f)
    case Insert(r) => StoreRefreshToken(s, r)
  }

  function Elapse(s: Store, delay: nat): Store {
    s.(now := s.now + delay)
  }

  ghost function RowsOf(s: Store, family: Id): set<Hash> {
    set h | h in s.tokens && s.tokens[h].family == family
  }

  ghost predicate AllRevoked(s: Store, family: Id) {
    forall h :: h in s.tokens && s.tokens[h].family == family ==> s.tokens[h].revokedAt.Some?
  }

  predicate Owns(s: Store, user: Id, device: Id) {
    device in s.devices && s.devices[device].key.user == user
  }

  /** The only change a row undergoes: revoked_at is set, once. */
  predicate Kept(a: Row, b: Row) {
    b == a || (a.revokedAt.None? && b.revokedAt.Some? && b == a.(revokedAt := b.revokedAt))
  }

  /** What every statement preserves: rows are never deleted, only revoked_at of
      an unrevoked row changes, device ids are stable and users are untouched. */
  ghost predicate Grows(s: Store, t: Store) {
    && s.users == t.users && s.byEmail == t.byEmail
    && s.supply <= t.supply && s.now <= t.now
    && (forall d :: d in s.devices ==>
          d in t.devices && t.devices[d].key == s.devices[d].key)
    && (forall h :: h in s.tokens ==> h in t.tokens && Kept(s.tokens[h], t.tokens[h]))
  }

  lemma GrowsTransitive(s: Store, t: Store, u: Store)
    requires Grows(s, t) && Grows(t, u)
    ensures Grows(s, u)
  {
  }

  ghost predicate DevicesOk(s: Store) {
    && (forall d :: d in s.devices ==> d < s.supply)
    && (forall k :: k in s.deviceIndex ==>
          s.deviceIndex[k] in s.devices && s.devices[s.deviceIndex[k]].key == k)
  }

  ghost predicate RowOk(s: Store, h: Hash, r: Row) {
    && h.raw < s.supply && r.family < s.supply && r.user in s.users
    && (r.device.Some? ==> Owns(s, r.user, r.device.value))
  }

  /** Keys and references of the tables. */
  ghost predicate TablesOk(s: Store) {
    && (forall id :: id in s.users ==> s.users[id].id == id)
    && DevicesOk(s)
    && (forall h :: h in s.tokens ==> RowOk(s, h, s.tokens[h]))
  }

  /** All rows of a family belong to one user. */
  ghost predicate OneUser(s: Store) {
    forall h, g :: h in s.tokens && g in s.tokens && s.tokens[h].family == s.tokens[g].family ==>
      s.tokens[h].user == s.tokens[g].user
  }

  ghost predicate StoreOk(s: Store) {
    TablesOk(s) && OneUser(s)
  }

  lemma OneUserKept(s: Store, t: Store)
    requires OneUser(s) && Grows(s, t) && t.tokens.Keys == s.tokens.Keys
    ensures OneUser(t)
  {
    forall h, g | h in t.tokens && g in t.tokens && t.tokens[h].family == t.tokens[g].family
      ensures t.tokens[h].user == t.tokens[g].user
    {
      assert Kept(s.tokens[h], t.tokens[h]) && Kept(s.tokens[g], t.tokens[g]);
    }
  }

  lemma UpsertDevicesOk(s: Store, user: Id, fingerprint: string, name: string)
    requires DevicesOk(s)
    ensures var (t, d) := UpsertDevice(s, user, fingerprint, name);
            && DevicesOk(t) && Owns(t, user, d)
            && (forall d :: d in s.devices ==> d in t.devices && t.devices[d].key == s.devices[d].key)
  {
  }

  /** A known device keeps its id, key and name and is seen now; an unknown one is
      added with that name, under a new id. No other device changes. */
  lemma UpsertExact(s: Store, user: Id, fingerprint: string, name: string)
    requires DevicesOk(s)
    ensures var (t, d) := UpsertDevice(s, user, fingerprint, name);
            var k := DeviceKey(user, fingerprint);
            && d in t.devices && t.devices[d].key == k && t.devices[d].lastSeen == s.now
            && t.deviceIndex == s.deviceIndex[k := d] && t.devices == s.devices[d := t.devices[d]]
            && (if k in s.deviceIndex then d == s.deviceIndex[k] && t.devices[d].name == s.devices[d].name
                else d !in s.devices && t.devices[d].name == name)
            && t.tokens == s.tokens && t.users == s.users
  {
    assert DeviceKey(user, fingerprint) in s.deviceIndex ==>
      s.deviceIndex[DeviceKey(user, fingerprint) := s.deviceIndex[DeviceKey(user, fingerprint)]] == s.deviceIndex;
  }

  /** The references of a row inserted by a statement. */
  predicate InsertOk(s: Store, r: Row) {
    r.family < s.supply && r.user in s.users && (r.device.Some? ==> Owns(s, r.user, r.device.value))
  }

  /** Statements only add to the tables. */
  lemma ExecGrows(s: Store, q: Statement)
    requires TablesOk(s)
    ensures Grows(s, Exec(s, q))
  {
    var t := Exec(s, q);
    if q.Upsert? {
      UpsertDevicesOk(s, q.user, q.fingerprint, q.name);
    }
    forall h | h in s.tokens ensures h in t.tokens && Kept(s.tokens[h], t.tokens[h]) {}
  }

  lemma ExecTablesOk(s: Store, q: Statement)
    requires TablesOk(s) && (q.Insert? ==> InsertOk(s, q.row))
    ensures TablesOk(Exec(s, q))
  {
    var t := Exec(s, q);
    if q.Upsert? {
      UpsertDevicesOk(s, q.user, q.fingerprint, q.name);
    }
    forall h | h in t.tokens ensures RowOk(t, h, t.tokens[h]) {
      if h in s.tokens {
        assert RowOk(s, h, s.tokens[h]);
      }
    }
  }

  /** A statement touches no row outside the family it is about, and only an
      INSERT adds one. */
  lemma ExecLocal(s: Store, q: Statement, f: Option<Id>)
    requires TablesOk(s)
    requires q.Insert? ==> f == Some(q.row.family)
    requires q.RevokeAll? ==> f == Some(q.family)
    requires q.Revoke1? && q.hash in s.tokens ==> f == Some(s.tokens[q.hash].family)
    ensures var t := Exec(s, q);
            && (forall h :: h in s.tokens && Some(s.tokens[h].family) != f ==> h in t.tokens && t.tokens[h] == s.tokens[h])
            && (if q.Insert? then Sha256(s.supply) !in s.tokens && t.tokens == s.tokens[Sha256(s.supply) := q.row]
                else t.tokens.Keys == s.tokens.Keys)
  {
    assert forall h :: h in s.tokens ==> RowOk(s, h, s.tokens[h]);
    assert Sha256(s.supply).raw == s.supply;
  }

  lemma ExecOneUser(s: Store, q: Statement)
    requires StoreOk(s) && (q.Insert? ==> InsertOk(s, q.row))
    requires q.Insert? ==> forall h :: h in s.tokens && s.tokens[h].family == q.row.family ==> s.tokens[h].user == q.row.user
    ensures OneUser(Exec(s, q))
  {
    ExecGrows(s, q);
    if q.Insert? {
      forall h | h in s.tokens ensures RowOk(s, h, s.tokens[h]) {}
      InsertOneUser(s, q.row);
    } else {
      assert Exec(s, q).tokens.Keys == s.tokens.Keys;
      OneUserKept(s, Exec(s, q));
    }
  }

  lemma InsertOneUser(s: Store, r: Row)
    requires TablesOk(s) && OneUser(s)
    requires forall h :: h in s.tokens && s.tokens[h].family == r.family ==> s.tokens[h].user == r.user
    ensures OneUser(StoreRefreshToken(s, r))
  {
  }
}
