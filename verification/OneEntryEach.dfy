/**
 * Does the pool keep one entry per principal, and does a mismatch mean another principal? Both hold
 * of sequential runs exactly when no principal can be divided between two routing keys.
 */
module OneEntryEach {
  import opened Wrappers
  import opened Text
  import opened Grants
  import opened Routing
  import opened PoolSpec
  import opened PoolInvariants
  import opened Sequential
  import opened SequentialSpec
  import opened SequentialRuns
  import opened RoutingAndSessions

  /** Entry e is live, and p's. */
  predicate Lives(s: State, e: nat, p: Principal) {
    e < |s.info| && s.info[e].build == Ready(p, true)
  }

  /** No run ever has two live entries of one principal. */
  ghost predicate OneEntryPerPrincipal(cfg: Config) {
    forall ops: seq<Op>, p: Principal, e: nat, f: nat ::
      Lives(RunOps(cfg, EMPTY, ops), e, p) && Lives(RunOps(cfg, EMPTY, ops), f, p) ==> e == f
  }

  /** No run ever answers a mismatch to a bearer whose owner is the principal of the entry the session is bound to. */
  ghost predicate MismatchMeansAnother(cfg: Config) {
    forall ops: seq<Op>, b: string, sid: string, first: Fate, second: Fate ::
      var s := RunOps(cfg, EMPTY, ops);
      Closed(s) && Resolve(cfg, s, b, sid, first, second).verdict.Mismatch? ==>
        && sid in s.sessions && s.info[s.sessions[sid]].build.Ready?
        && cfg.owner(b) != Some(s.info[s.sessions[sid]].build.who)
  }

  /** A principal with several bearers has them all on one hint, and shares it with no other principal. */
  ghost predicate Undivided(cfg: Config) {
    forall b, c | cfg.owner(b).Some? && cfg.owner(c) == cfg.owner(b) && b != c ::
      && cfg.hint(b) == cfg.hint(c)
      && forall q | cfg.owner(q).Some? && cfg.hint(q) == cfg.hint(b) :: cfg.owner(q) == cfg.owner(b)
  }

  // ---- when no principal is divided ----

  /** An indexed entry of a principal with several bearers sits under the hint of each of them. */
  lemma UnderItsHint(cfg: Config, s: State, e: nat, b: string, c: string)
    requires Sound(cfg) && Undivided(cfg) && SeqInv(cfg, s) && Indexed(s, e) && s.info[e].build.Ready?
    requires cfg.owner(b) == Some(s.info[e].build.who) && cfg.owner(c) == cfg.owner(b) && b != c
    ensures s.info[e].keys[0] == cfg.hint(b)
  {
    hide IndexInv, Agree, Trusted, LandsRight;
    var k, p := s.info[e].keys[0], s.info[e].build.who;
    assert EntryInv(cfg, s.info[e], Possible(cfg)) && Detoured(cfg, s.info[e]);
    if HasPrefix(k, "pri:") {
      assert k in s.info[e].keys;
      NotContested(cfg, b, c);
      assert false;
    } else {
      assert k in s.info[e].keys;
      var x :| cfg.hint(x) == k && cfg.owner(x) == Some(p);
    }
  }

  lemma NotContested(cfg: Config, b: string, c: string)
    requires Undivided(cfg) && cfg.owner(b).Some? && cfg.owner(c) == cfg.owner(b) && b != c
    ensures !Contested(cfg, cfg.owner(b).value)
  {
    forall z, q | cfg.owner(z) == cfg.owner(b) && cfg.owner(q).Some? && cfg.hint(q) == cfg.hint(z)
      ensures cfg.owner(q) == cfg.owner(z)
    {
    }
  }

  /** Two indexed entries of one principal, dead or alive, are the same. */
  lemma OneIndexedEach(cfg: Config, s: State, e: nat, f: nat)
    requires Sound(cfg) && Undivided(cfg) && SeqInv(cfg, s) && Indexed(s, e) && Indexed(s, f)
    requires s.info[e].build.Ready? && s.info[f].build.Ready? && s.info[e].build.who == s.info[f].build.who
    ensures e == f
  {
    hide LandsRight, Rooted, Undivided, Detoured;
    var b, c := s.info[e].latest, s.info[f].latest;
    assert Settled(s, e) && Settled(s, f);
    assert EntryInv(cfg, s.info[e], Possible(cfg)) && EntryInv(cfg, s.info[f], Possible(cfg));
    assert s.byBearer[b] == e && s.byBearer[c] == f;
    if b != c {
      UnderItsHint(cfg, s, e, b, c);
      UnderItsHint(cfg, s, f, b, c);
    }
  }

  lemma UndividedKeepsOne(cfg: Config)
    requires Sound(cfg) && Unconfused(cfg) && Undivided(cfg)
    ensures OneEntryPerPrincipal(cfg)
  {
    hide SeqInv, Undivided;
    forall ops: seq<Op>, p: Principal, e: nat, f: nat
      | Lives(RunOps(cfg, EMPTY, ops), e, p) && Lives(RunOps(cfg, EMPTY, ops), f, p)
      ensures e == f
    {
      EmptySeqInv(cfg);
      RunKeepsSeqInv(cfg, EMPTY, ops);
      var s := RunOps(cfg, EMPTY, ops);
      LiveIsSettled(cfg, s, e);
      LiveIsSettled(cfg, s, f);
      OneIndexedEach(cfg, s, e, f);
    }
  }

  lemma UndividedMismatch(cfg: Config, s: State, b: string, sid: string, first: Fate, second: Fate)
    requires Sound(cfg) && Unconfused(cfg) && Undivided(cfg) && SeqInv(cfg, s) && Closed(s)
    requires Resolve(cfg, s, b, sid, first, second).verdict.Mismatch?
    ensures sid in s.sessions && s.info[s.sessions[sid]].build.Ready?
    ensures cfg.owner(b) != Some(s.info[s.sessions[sid]].build.who)
  {
    hide SeqInv, Undivided, Resolve;
    MismatchExactly(cfg, s, b, sid, first, second);
    var e := s.sessions[sid];
    if b in s.byBearer && cfg.owner(b) == Some(s.info[e].build.who) {
      LiveIsSettled(cfg, s, e);
      var f := FiledAt(cfg, s, b);
      OneIndexedEach(cfg, s, e, f);
    }
  }

  lemma FiledAt(cfg: Config, s: State, b: string) returns (f: nat)
    requires SeqInv(cfg, s) && b in s.byBearer
    ensures f == s.byBearer[b] && Indexed(s, f) && b in s.info[f].admitted
    ensures s.info[f].build.Ready? && cfg.owner(b) == Some(s.info[f].build.who)
  {
    f := s.byBearer[b];
    assert Settled(s, f) && EntryInv(cfg, s.info[f], Possible(cfg));
  }

  // ---- when one is ----

  /** Two live entries of one principal: the one sid is bound to, and the one c is filed under. */
  ghost predicate Torn(cfg: Config, s: State, sid: string, c: string, p: Principal) {
    && Closed(s) && sid != "" && sid in s.sessions && c in s.byBearer && cfg.owner(c) == Some(p)
    && s.sessions[sid] != s.byBearer[c]
    && Lives(s, s.sessions[sid], p) && Lives(s, s.byBearer[c], p)
    && c !in s.info[s.sessions[sid]].admitted
  }

  lemma TornMismatches(cfg: Config, ops: seq<Op>, sid: string, c: string, p: Principal)
    requires Torn(cfg, RunOps(cfg, EMPTY, ops), sid, c, p)
    ensures !OneEntryPerPrincipal(cfg) && !MismatchMeansAnother(cfg)
  {
    var s := RunOps(cfg, EMPTY, ops);
    assert Lives(s, s.sessions[sid], p) && Lives(s, s.byBearer[c], p);
    assert Resolve(cfg, s, c, sid, Fine, Fine).verdict.Mismatch?;
  }

  /** A run, one operation at a time. */
  lemma Then(cfg: Config, s: State, op: Op, s1: State, rest: seq<Op>)
    requires Closed(s) && Do(cfg, s, op) == s1
    ensures RunOps(cfg, s, [op] + rest) == RunOps(cfg, s1, rest)
  {
    assert ([op] + rest)[1..] == rest;
  }

  /** Two hints: each bearer founds an entry of its own. */
  lemma TornByHints(cfg: Config, b: string, c: string) returns (ops: seq<Op>)
    requires Sound(cfg) && cfg.owner(b).Some? && cfg.owner(c) == cfg.owner(b) && cfg.hint(b) != cfg.hint(c)
    ensures Torn(cfg, RunOps(cfg, EMPTY, ops), "s", c, cfg.owner(b).value) && Shutdown !in ops
  {
    var p := cfg.owner(b).value;
    var s1 := Bind(Founded(EMPTY, cfg.hint(b), b, p), "s", 0);
    var s2 := Founded(s1, cfg.hint(c), c, p);
    FreshFounds(cfg, EMPTY, b, p);
    FreshDo(cfg, s1, c, p);
    var first, second := Op.Request(b, "", Fine, Fine, "s"), Op.Request(c, "", Fine, Fine, "");
    ops := [first] + ([second] + []);
    Then(cfg, EMPTY, first, s1, [second] + []);
    Then(cfg, s1, second, s2, []);
    assert RunOps(cfg, s2, []) == s2;
  }

  /** A bearer diverted from a live entry founds one at its principal key. */
  lemma DivertedFounds(cfg: Config, s: State, b: string, who: Principal)
    requires Regular(cfg) && Closed(s) && cfg.owner(b) == Some(who) && b !in s.byBearer && cfg.hint(b) in s.entries
    requires var e := s.entries[cfg.hint(b)]; AliveAt(s, e) && s.info[e].latest != b && !s.info[e].Is(who)
    requires PrincipalKey(who) !in s.entries
    ensures Resolve(cfg, s, b, "", Fine, Fine)
            == Outcome(Founded(s, PrincipalKey(who), b, who), Served(|s.info|), 1, 1)
  {
    hide Founded;
    BuildFounds(cfg, s, PrincipalKey(who), b, Fine);
    var s' := Founded(s, PrincipalKey(who), b, who);
    assert Adopt(s', |s.info|, b) == s' by { FoundedPresents(s, PrincipalKey(who), b, who); }
  }

  lemma FoundedPresents(s: State, key: string, b: string, who: Principal)
    ensures |Founded(s, key, b, who).info| == |s.info| + 1
    ensures Adopt(Founded(s, key, b, who), |s.info|, b) == Founded(s, key, b, who)
  {
    var s' := Founded(s, key, b, who);
    assert Adopt(s', |s.info|, b).info == s'.info;
  }

  /** A bearer that finds a corpse under its hint replaces it. */
  lemma ReplacingFounds(cfg: Config, s: State, b: string, who: Principal)
    requires Regular(cfg) && Closed(s) && cfg.owner(b) == Some(who) && b !in s.byBearer && cfg.hint(b) in s.entries
    requires !AliveAt(s, s.entries[cfg.hint(b)])
    ensures Resolve(cfg, s, b, "", Fine, Fine)
            == Outcome(Founded(Evict(s, s.entries[cfg.hint(b)]), cfg.hint(b), b, who), Served(|s.info|), 0, 1)
  {
    BuildFounds(cfg, Evict(s, s.entries[cfg.hint(b)]), cfg.hint(b), b, Fine);
  }

  /** What b's diverted request, and the one that replaces a corpse, do to the pool. */
  lemma DivertedDo(cfg: Config, s: State, b: string, who: Principal, minted: string)
    requires Sound(cfg) && Closed(s) && cfg.owner(b) == Some(who) && b !in s.byBearer && cfg.hint(b) in s.entries
    requires var e := s.entries[cfg.hint(b)]; AliveAt(s, e) && s.info[e].latest != b && !s.info[e].Is(who)
    requires PrincipalKey(who) !in s.entries
    ensures Do(cfg, s, Op.Request(b, "", Fine, Fine, minted))
            == Bind(Founded(s, PrincipalKey(who), b, who), minted, |s.info|)
  {
    hide Resolve, Founded;
    DivertedFounds(cfg, s, b, who);
  }

  lemma ReplacingDo(cfg: Config, s: State, b: string, who: Principal)
    requires Sound(cfg) && Closed(s) && cfg.owner(b) == Some(who) && b !in s.byBearer && cfg.hint(b) in s.entries
    requires !AliveAt(s, s.entries[cfg.hint(b)])
    ensures Do(cfg, s, Op.Request(b, "", Fine, Fine, ""))
            == Founded(Evict(s, s.entries[cfg.hint(b)]), cfg.hint(b), b, who)
  {
    hide Resolve, Founded;
    ReplacingFounds(cfg, s, b, who);
  }

  lemma FreshDo(cfg: Config, s: State, b: string, who: Principal)
    requires Sound(cfg) && Closed(s) && cfg.owner(b) == Some(who) && b !in s.byBearer && cfg.hint(b) !in s.entries
    ensures Do(cfg, s, Op.Request(b, "", Fine, Fine, "")) == Founded(s, cfg.hint(b), b, who)
  {
    hide Resolve, Founded;
    FreshFounds(cfg, s, b, who);
  }

  /** The pool when b has been diverted to p's key, on session "s", and o's entry on the hint has died. */
  function Vacated(h: string, q: string, o: Principal, b: string, p: Principal): State {
    State(map[h := 0, PrincipalKey(p) := 1], map[q := 0, b := 1], map["s" := 1],
          [EntryState([h], q, [q], Ready(o, false)), EntryState([PrincipalKey(p)], b, [b], Ready(p, true))])
  }

  lemma Vacates(cfg: Config, q: string, o: Principal, b: string, p: Principal) returns (ops: seq<Op>)
    requires Sound(cfg) && cfg.owner(b) == Some(p) && cfg.owner(q) == Some(o) && o != p && cfg.hint(q) == cfg.hint(b)
    ensures forall rest :: RunOps(cfg, EMPTY, ops + rest) == RunOps(cfg, Vacated(cfg.hint(b), q, o, b, p), rest)
  {
    hide Do, Founded, Vacated;
    var h := cfg.hint(b);
    PrincipalKeyIsPrefixed(p);
    var s1 := Founded(EMPTY, h, q, o);
    var s2 := Bind(Founded(s1, PrincipalKey(p), b, p), "s", 1);
    FreshDo(cfg, EMPTY, q, o);
    FoundedAlone(h, q, o);
    DivertedDo(cfg, s1, b, p, "s");
    VacatedIs(h, q, o, b, p);
    var one, two := Op.Request(q, "", Fine, Fine, ""), Op.Request(b, "", Fine, Fine, "s");
    assert Do(cfg, s2, Death(0)) == Vacated(h, q, o, b, p) by { DeathOfFirst(cfg, s2, o); }
    ops := [one, two, Death(0)];
    forall rest
      ensures RunOps(cfg, EMPTY, ops + rest) == RunOps(cfg, Vacated(h, q, o, b, p), rest)
    {
      assert ops + rest == [one] + ([two] + ([Death(0)] + rest));
      Then(cfg, EMPTY, one, s1, [two] + ([Death(0)] + rest));
      Then(cfg, s1, two, s2, [Death(0)] + rest);
      Then(cfg, s2, Death(0), Vacated(h, q, o, b, p), rest);
    }
  }

  lemma FoundedAlone(h: string, q: string, o: Principal)
    ensures Founded(EMPTY, h, q, o) == State(map[h := 0], map[q := 0], map[], [EntryState([h], q, [q], Ready(o, true))])
  {
  }

  lemma VacatedIs(h: string, q: string, o: Principal, b: string, p: Principal)
    requires h != PrincipalKey(p) && b != q
    ensures var s2 := Bind(Founded(Founded(EMPTY, h, q, o), PrincipalKey(p), b, p), "s", 1);
            Closed(s2) && |s2.info| == 2 && s2.info[0].build == Ready(o, true)
            && SetBuild(s2, 0, Ready(o, false)) == Vacated(h, q, o, b, p)
  {
  }

  lemma DeathOfFirst(cfg: Config, s: State, o: Principal)
    requires Closed(s) && |s.info| > 0 && s.info[0].build == Ready(o, true)
    ensures Do(cfg, s, Death(0)) == SetBuild(s, 0, Ready(o, false))
  {
  }

  lemma VacatedIsTorn(cfg: Config, h: string, q: string, o: Principal, b: string, c: string, p: Principal)
    requires h != PrincipalKey(p) && b != q && b != c && q != c && cfg.owner(c) == Some(p)
    ensures var s := Vacated(h, q, o, b, p);
            && Closed(s) && c !in s.byBearer && h in s.entries && s.entries[h] == 0 && |s.info| == 2 && !AliveAt(s, 0)
            && Torn(cfg, Founded(Evict(s, 0), h, c, p), "s", c, p)
  {
  }

  /** One hint shared with another principal: b is diverted, the other's entry dies, and c takes its place. */
  lemma TornByDiversion(cfg: Config, q: string, b: string, c: string) returns (ops: seq<Op>)
    requires Sound(cfg) && cfg.owner(b).Some? && cfg.owner(c) == cfg.owner(b) && b != c
    requires cfg.owner(q).Some? && cfg.owner(q) != cfg.owner(b) && cfg.hint(q) == cfg.hint(b) == cfg.hint(c)
    ensures Torn(cfg, RunOps(cfg, EMPTY, ops), "s", c, cfg.owner(b).value)
  {
    hide Do, Torn, Vacated, Founded, Evict;
    var h, o, p := cfg.hint(b), cfg.owner(q).value, cfg.owner(b).value;
    PrincipalKeyIsPrefixed(p);
    var vacated := Vacates(cfg, q, o, b, p);
    var s := Vacated(h, q, o, b, p);
    VacatedIsTorn(cfg, h, q, o, b, c, p);
    ReplacingDo(cfg, s, c, p);
    var last := Op.Request(c, "", Fine, Fine, "");
    var s' := Founded(Evict(s, 0), h, c, p);
    Then(cfg, s, last, s', []);
    assert RunOps(cfg, s', []) == s';
    ops := vacated + ([last] + []);
  }

  lemma DividedIsTorn(cfg: Config)
    requires Sound(cfg) && !Undivided(cfg)
    ensures !OneEntryPerPrincipal(cfg) && !MismatchMeansAnother(cfg)
  {
    hide Torn, OneEntryPerPrincipal, MismatchMeansAnother;
    var b, c :| && cfg.owner(b).Some? && cfg.owner(c) == cfg.owner(b) && b != c
                && !(cfg.hint(b) == cfg.hint(c) &&
                     forall q | cfg.owner(q).Some? && cfg.hint(q) == cfg.hint(b) :: cfg.owner(q) == cfg.owner(b));
    var p := cfg.owner(b).value;
    if cfg.hint(b) != cfg.hint(c) {
      var ops := TornByHints(cfg, b, c);
      TornMismatches(cfg, ops, "s", c, p);
    } else {
      var q :| cfg.owner(q).Some? && cfg.hint(q) == cfg.hint(b) && cfg.owner(q) != cfg.owner(b);
      var ops := TornByDiversion(cfg, q, b, c);
      TornMismatches(cfg, ops, "s", c, p);
    }
  }

  /** The pool keeps one live entry per principal over all sequential runs if and only if no principal is divided. */
  lemma OneEntryIffUndivided(cfg: Config)
    requires Sound(cfg) && Unconfused(cfg)
    ensures OneEntryPerPrincipal(cfg) <==> Undivided(cfg)
  {
    if Undivided(cfg) {
      UndividedKeepsOne(cfg);
    } else {
      DividedIsTorn(cfg);
    }
  }

  /** A mismatch means another principal over all sequential runs if and only if no principal is divided. */
  lemma MismatchMeansAnotherIffUndivided(cfg: Config)
    requires Sound(cfg) && Unconfused(cfg)
    ensures MismatchMeansAnother(cfg) <==> Undivided(cfg)
  {
    if Undivided(cfg) {
      forall ops: seq<Op>, b: string, sid: string, first: Fate, second: Fate
        | Closed(RunOps(cfg, EMPTY, ops)) &&
          Resolve(cfg, RunOps(cfg, EMPTY, ops), b, sid, first, second).verdict.Mismatch?
        ensures var s := RunOps(cfg, EMPTY, ops);
                && sid in s.sessions && s.info[s.sessions[sid]].build.Ready?
                && cfg.owner(b) != Some(s.info[s.sessions[sid]].build.who)
      {
        EmptySeqInv(cfg);
        RunKeepsSeqInv(cfg, EMPTY, ops);
        UndividedMismatch(cfg, RunOps(cfg, EMPTY, ops), b, sid, first, second);
      }
    } else {
      DividedIsTorn(cfg);
    }
  }
}
