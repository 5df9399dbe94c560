/** Why the single-live-token law needs calls on one family not to overlap:
    RevokeToken does not look at the number of rows it changed. */
module TokenOverlap {
  import opened Common
  import opened TokenStore
  import opened TokenFamilies
  import opened TokenSafety
  import Jwt

  const ALICE := User(0, 0, "alice", "user", true, Bcrypt("pw"))

  const START := Sys(Store(map[0 := ALICE], map["alice" := 0], map[], map[], map[], 1, 0), map[], [], {})

  function Step(id: nat): Action {
    Go(id, 0, Done)
  }

  /** Login, then two Refresh calls with the same token that both look it up
      before either revokes it. The login draws family 1 and token 2. */
  const LOGIN := [Begin(0, LoginUser("alice", "pw", "", "")), Step(0), Step(0), Step(0)]
  const LOOKUPS := [Begin(1, Find(2, "")), Begin(2, Find(2, "")), Step(1), Step(2)]
  const FIRST := [Step(1), Step(1), Step(1), Step(1)]
  const SECOND := [Step(2), Step(2), Step(2), Step(2)]

  lemma Run2(cfg: Config, s: Sys, a: Action, b: Action)
    ensures Run(cfg, s, [a, b]) == Apply(cfg, Apply(cfg, s, a), b)
  {
    assert [a, b][1..] == [b] && [b][1..] == [];
    assert Run(cfg, Apply(cfg, s, a), [b]) == Run(cfg, Apply(cfg, Apply(cfg, s, a), b), []);
  }

  lemma Run4(cfg: Config, s: Sys, a: Action, b: Action, c: Action, d: Action)
    ensures Run(cfg, s, [a, b, c, d]) == Apply(cfg, Apply(cfg, Apply(cfg, Apply(cfg, s, a), b), c), d)
  {
    assert [a, b, c, d] == [a, b] + [c, d];
    RunConcat(cfg, s, [a, b], [c, d]);
    Run2(cfg, s, a, b);
    Run2(cfg, Run(cfg, s, [a, b]), c, d);
  }

  function LoginRow(cfg: Config): Row {
    Row(0, None, 1, cfg.refreshTTL, None)
  }

  lemma AfterLogin(cfg: Config)
    ensures var t := Run(cfg, START, LOGIN);
            && t.store == START.store.(tokens := map[Sha256(2) := LoginRow(cfg)], supply := 3)
            && t.calls == map[] && t.log == [Issued(1, None, Sha256(2), true)]
  {
    Run4(cfg, START, Begin(0, LoginUser("alice", "pw", "", "")), Step(0), Step(0), Step(0));
    var s1 := Apply(cfg, START, Begin(0, LoginUser("alice", "pw", "", "")));
    var s2 := Apply(cfg, s1, Step(0));
    assert s2.calls[0] == Sign(ALICE, None, 1, None);
    var s3 := Apply(cfg, s2, Step(0));
    assert s3.calls[0].Save?;
    var s4 := Apply(cfg, s3, Step(0));
    assert s4.calls == map[];
  }

  lemma AfterLookups(cfg: Config, s: Sys)
    requires cfg.refreshTTL >= 0
    requires s.store == START.store.(tokens := map[Sha256(2) := LoginRow(cfg)], supply := 3) && s.calls == map[]
    ensures var t := Run(cfg, s, LOOKUPS);
            && t.store == s.store && t.log == s.log
            && t.calls == map[1 := Spend(Sha256(2), LoginRow(cfg), ""), 2 := Spend(Sha256(2), LoginRow(cfg), "")]
  {
    Run4(cfg, s, Begin(1, Find(2, "")), Begin(2, Find(2, "")), Step(1), Step(2));
    var s1 := Apply(cfg, s, Begin(1, Find(2, "")));
    var s2 := Apply(cfg, s1, Begin(2, Find(2, "")));
    var s3 := Apply(cfg, s2, Step(1));
    assert s3.calls[2] == Find(2, "");
  }

  /** A Refresh past its lookup stores a live successor, whatever has happened to
      the token it presented. */
  lemma FinishOne(cfg: Config, s: Sys, id: nat, h: Hash, row: Row)
    requires id in s.calls && s.calls[id] == Spend(h, row, "") && h in s.store.tokens
    requires row.user in s.store.users && Sha256(s.store.supply) !in s.store.tokens
    ensures var t := Run(cfg, s, [Step(id), Step(id), Step(id), Step(id)]);
            && t.calls == s.calls - {id} && t.store.supply == s.store.supply + 1
            && t.store.users == s.store.users
            && t.store.tokens.Keys == s.store.tokens.Keys + {Sha256(s.store.supply)}
            && IsLive(t.store, Sha256(s.store.supply)) && t.store.tokens[Sha256(s.store.supply)].family == row.family
            && (forall g :: g in s.store.tokens && g != h ==> t.store.tokens[g] == s.store.tokens[g])
            && t.log == s.log + [Issued(row.family, Some(h), Sha256(s.store.supply), true)]
  {
    Run4(cfg, s, Step(id), Step(id), Step(id), Step(id));
    var s1 := Apply(cfg, s, Step(id));
    assert s1.calls[id] == RefreshUser(h, row, "");
    var s2 := Apply(cfg, s1, Step(id));
    assert s2.calls[id] == Sign(s.store.users[row.user], row.device, row.family, Some(h));
    var s3 := Apply(cfg, s2, Step(id));
    assert s3.calls[id].Save?;
    var s4 := Apply(cfg, s3, Step(id));
    assert s4.calls == s.calls - {id};
  }

  lemma AfterFirst(cfg: Config, s: Sys)
    requires s.store == START.store.(tokens := map[Sha256(2) := LoginRow(cfg)], supply := 3)
    requires s.calls == map[1 := Spend(Sha256(2), LoginRow(cfg), ""), 2 := Spend(Sha256(2), LoginRow(cfg), "")]
    requires |s.log| == 1
    ensures var t := Run(cfg, s, FIRST);
            && t.calls == map[2 := Spend(Sha256(2), LoginRow(cfg), "")]
            && t.store.supply == 4 && t.store.users == START.store.users
            && t.store.tokens.Keys == {Sha256(2), Sha256(3)}
            && IsLive(t.store, Sha256(3)) && t.store.tokens[Sha256(3)].family == 1
            && |t.log| == 2 && t.log[1] == Issued(1, Some(Sha256(2)), Sha256(3), true)
  {
    FinishOne(cfg, s, 1, Sha256(2), LoginRow(cfg));
  }

  lemma AfterSecond(cfg: Config, s: Sys)
    requires s.calls == map[2 := Spend(Sha256(2), LoginRow(cfg), "")]
    requires s.store.supply == 4 && s.store.users == START.store.users
    requires s.store.tokens.Keys == {Sha256(2), Sha256(3)}
    requires IsLive(s.store, Sha256(3)) && s.store.tokens[Sha256(3)].family == 1
    requires |s.log| == 2
    ensures var t := Run(cfg, s, SECOND);
            && IsLive(t.store, Sha256(3)) && IsLive(t.store, Sha256(4))
            && t.store.tokens[Sha256(3)].family == t.store.tokens[Sha256(4)].family
            && t.log == s.log + [Issued(1, Some(Sha256(2)), Sha256(4), true)]
  {
    FinishOne(cfg, s, 2, Sha256(2), LoginRow(cfg));
  }

  const OVERLAP := LOGIN + (LOOKUPS + (FIRST + SECOND))

  lemma RunParts(cfg: Config, s: Sys, a: seq<Action>, b: seq<Action>, c: seq<Action>, d: seq<Action>)
    ensures Run(cfg, s, a + (b + (c + d))) == Run(cfg, Run(cfg, Run(cfg, Run(cfg, s, a), b), c), d)
  {
    var s1 := Run(cfg, s, a);
    var s2 := Run(cfg, s1, b);
    RunConcat(cfg, s2, c, d);
    RunConcat(cfg, s1, b, c + d);
    RunConcat(cfg, s, a, b + (c + d));
  }

  /** Two overlapping Refresh calls exchange one token twice and leave two live
      rows in its family. */
  lemma OverlapIssuesTwice(cfg: Config)
    requires cfg.refreshTTL >= 0
    ensures var t := Run(cfg, START, OVERLAP);
            && IsLive(t.store, Sha256(3)) && IsLive(t.store, Sha256(4))
            && t.store.tokens[Sha256(3)].family == t.store.tokens[Sha256(4)].family
            && |t.log| == 3 && t.log[1].parent == t.log[2].parent == Some(Sha256(2)) && t.log[1].acked && t.log[2].acked
  {
    AfterLogin(cfg);
    var s1 := Run(cfg, START, LOGIN);
    AfterLookups(cfg, s1);
    var s2 := Run(cfg, s1, LOOKUPS);
    AfterFirst(cfg, s2);
    AfterSecond(cfg, Run(cfg, s2, FIRST));
    RunParts(cfg, START, LOGIN, LOOKUPS, FIRST, SECOND);
  }

  lemma OverlapBreaksSingleLive(cfg: Config)
    requires cfg.refreshTTL >= 0
    ensures exists s, acts :: Initial(s) && !OneLive(Run(cfg, s, acts).store) && !ExchangedOnce(Run(cfg, s, acts).log)
  {
    OverlapIssuesTwice(cfg);
    assert Initial(START);
    assert !OneLive(Run(cfg, START, OVERLAP).store);
  }
}
