/**
 * Isolation rests on principal keys telling principals apart where it matters: the node isolates
 * principals exactly when no two that share a principal key both have a bearer that can be steered there.
 */
module KeyCollisions {
  import opened Wrappers
  import opened Grants
  import opened Routing
  import opened PoolSpec
  import opened PoolInvariants
  import opened Interleaving
  import opened Isolation
  import opened SoloRuns
  import S = Sequential

  // ---- composing runs ----

  /** A new request arrives and stands at the start of its solo run. */
  lemma Arrives(cfg: Config, events: seq<Event>, sys: Sys, t: nat, bearer: string)
    returns (events': seq<Event>, sys': Sys)
    requires Exec(cfg, INIT, events) == sys && Closed(sys.pool) && t !in sys.requests && bearer != ""
    ensures events' == events + [Arrive(t, bearer, "")]
    ensures Exec(cfg, INIT, events') == sys' && sys'.requests == sys.requests[t := Request(bearer, "", Entering)]
    ensures Solo(cfg, sys', t, [], sys', sys.pool, Entering)
  {
    events' := events + [Arrive(t, bearer, "")];
    ExecSnoc(cfg, INIT, events, Arrive(t, bearer, ""));
    sys' := Exec(cfg, INIT, events');
  }

  /** A solo run of a request extends the run that led to it. */
  lemma Joins(cfg: Config, events: seq<Event>, start: Sys, t: nat, more: seq<Event>, sys: Sys, s: State, pc: Pc)
    requires Exec(cfg, INIT, events) == start && Solo(cfg, start, t, more, sys, s, pc)
    ensures Exec(cfg, INIT, events + more) == sys && sys.pool == s
    ensures Close !in events ==> Close !in events + more
    ensures t in start.requests && sys.requests == start.requests[t := start.requests[t].(pc := pc)]
  {
    ExecAppend(cfg, INIT, events, more);
  }

  /** First sight of a hint founds an entry. */
  lemma EntersBuild(s: State, b: string, hint: string)
    requires Closed(s) && b !in s.byBearer && hint !in s.entries
    ensures Enter(s, b, "", hint) == (NewEntry(s, hint, b), ToBuild(|s.info|))
  {
  }

  lemma LocateFinds(s: State, key: string, b: string)
    requires Closed(s) && key in s.entries && AliveAt(s, s.entries[key])
    ensures Locate(s, key, b) == (s, s.entries[key])
  {
  }

  /** The bearer meets a live entry it is not the latest bearer of. */
  lemma EntersProbe(s: State, b: string, hint: string)
    requires Closed(s) && b !in s.byBearer && hint in s.entries
    requires AliveAt(s, s.entries[hint]) && s.info[s.entries[hint]].latest != b
    ensures Enter(s, b, "", hint) == (s, ToProbe(s.entries[hint]))
  {
  }

  /** A dead entry under the hint is replaced. */
  lemma EntersReplacing(s: State, b: string, hint: string)
    requires Closed(s) && b !in s.byBearer && hint in s.entries && !AliveAt(s, s.entries[hint])
    ensures Enter(s, b, "", hint) == (NewEntry(Evict(s, s.entries[hint]), hint, b), ToBuild(|s.info|))
  {
  }

  /** A request goes on from where it stands. */
  lemma Resumes(cfg: Config, sys: Sys, t: nat)
    requires t in sys.requests
    ensures Solo(cfg, sys, t, [], sys, sys.pool, sys.requests[t].pc)
  {
  }

  /** An unbuilt entry sits on the hint, so the bearer probes, is diverted, and lands at its principal key. */
  lemma Diverted(cfg: Config, start: Sys, t: nat, s: State, bearer: string, who: Principal)
    returns (more: seq<Event>, sys: Sys)
    requires Regular(cfg) && cfg.owner(bearer) == Some(who) && Closed(s)
    requires Solo(cfg, start, t, [], start, s, Entering) && t in start.requests
    requires start.requests[t] == Request(bearer, "", Entering)
    requires bearer !in s.byBearer && cfg.hint(bearer) in s.entries
    requires var e := s.entries[cfg.hint(bearer)]; s.info[e].build.Pending? && s.info[e].latest != bearer
    ensures var (s', e) := Locate(s, PrincipalKey(who), bearer);
            Solo(cfg, start, t, more, sys, s', Building(e, Some(who)))
  {
    hide Solo, Enter, Locate;
    var met := s.entries[cfg.hint(bearer)];
    EntersProbe(s, bearer, cfg.hint(bearer));
    var (s', e) := Locate(s, PrincipalKey(who), bearer);
    more, sys := Continue(cfg, start, t, [], start, s, Entering, Fine, s, Probing(met, false));
    more, sys := Continue(cfg, start, t, more, sys, s, Probing(met, false), Fine, s, Comparing(met, false, who));
    more, sys := Continue(cfg, start, t, more, sys, s, Comparing(met, false, who), Fine, s, Ensuring(who));
    more, sys := Continue(cfg, start, t, more, sys, s, Ensuring(who), Fine, s', Building(e, Some(who)));
  }

  // ---- two principals with one key ----

  /** The pool after b's entry has been built at its principal key, with x's unbuilt one on the hint they share. */
  function Landed(hint: string, x: string, b: string, p: Principal): State {
    State(map[hint := 0, PrincipalKey(p) := 1], map[], map[],
          [EntryState([hint], x, [], Pending), EntryState([PrincipalKey(p)], b, [], Ready(p, true))])
  }

  lemma LandedIs(cfg: Config, x: string, b: string, p: Principal)
    requires Regular(cfg) && cfg.owner(b) == Some(p)
    ensures var s1 := NewEntry(EMPTY, cfg.hint(b), x);
            var (s2, e) := Locate(s1, PrincipalKey(p), b);
            && e == 1 && Closed(s1) && Closed(s2) && s2.info[1].build.Pending? && s2.info[1].latest == b
            && S.Connect(cfg, s2, 1, Fine) == Landed(cfg.hint(b), x, b, p)
  {
    PrincipalKeyIsPrefixed(p);
  }

  /** A schedule that leads there. */
  lemma FirstLands(cfg: Config, x: string, b: string, p: Principal) returns (events: seq<Event>, sys: Sys)
    requires Regular(cfg) && cfg.hint(x) == cfg.hint(b) && x != "" && x != b && cfg.owner(b) == Some(p)
    ensures Exec(cfg, INIT, events) == sys && sys.requests.Keys == {0, 1} && sys.pool == Landed(cfg.hint(b), x, b, p)
    ensures sys.requests[0] == Request(x, "", Building(0, None))
    ensures sys.requests[1] == Request(b, "", Building(1, Some(p))) && Close !in events
  {
    hide Solo, Enter, Locate, Landed, S.Connect;
    var hint := cfg.hint(b);
    LandedIs(cfg, x, b, p);
    EntersBuild(EMPTY, x, hint);
    var s1 := NewEntry(EMPTY, hint, x);
    events, sys := Arrives(cfg, [], INIT, 0, x);
    var more, sys1 := Continue(cfg, sys, 0, [], sys, EMPTY, Entering, Fine, s1, Building(0, None));
    Joins(cfg, events, sys, 0, more, sys1, s1, Building(0, None));
    events, sys := Arrives(cfg, events + more, sys1, 1, b);
    more, sys1 := Diverted(cfg, sys, 1, s1, b, p);
    var s2 := Locate(s1, PrincipalKey(p), b).0;
    more, sys1 := SoloBuild(cfg, sys, 1, more, sys1, s2, 1, Some(p), Fine);
    Joins(cfg, events, sys, 1, more, sys1, Landed(hint, x, b, p), Building(1, Some(p)));
    events, sys := events + more, sys1;
  }

  /** p's entry is built at its key, nobody is admitted yet, and another's unbuilt entry sits on c's hint. */
  ghost predicate AwaitsSecond(cfg: Config, s: State, p: Principal, c: string) {
    && Closed(s) && s.byBearer == map[]
    && PrincipalKey(p) in s.entries && AliveAt(s, s.entries[PrincipalKey(p)])
    && s.info[s.entries[PrincipalKey(p)]].build == Ready(p, true) && s.info[s.entries[PrincipalKey(p)]].admitted == []
    && cfg.hint(c) in s.entries
    && s.info[s.entries[cfg.hint(c)]].build.Pending? && s.info[s.entries[cfg.hint(c)]].latest != c
  }

  /** From there c is diverted to the same key and served from p's entry. */
  lemma SecondLands(cfg: Config, events: seq<Event>, sys: Sys, p: Principal, c: string, q: Principal)
    requires Regular(cfg) && Exec(cfg, INIT, events) == sys && 3 !in sys.requests
    requires AwaitsSecond(cfg, sys.pool, p, c)
    requires cfg.owner(c) == Some(q) && p != q && PrincipalKey(p) == PrincipalKey(q)
    ensures !Isolated(cfg) && !TrustHolds(cfg)
  {
    hide Solo, Enter, Locate, Admit, Isolated, TrustHolds;
    var s := sys.pool;
    var e := s.entries[PrincipalKey(p)];
    var events', start := Arrives(cfg, events, sys, 3, c);
    var more, sys' := Diverted(cfg, start, 3, s, c, q);
    LocateFinds(s, PrincipalKey(q), c);
    more, sys' := Continue(cfg, start, 3, more, sys', s, Building(e, Some(q)), Fine, s, Admitting(e, false));
    more, sys' := SoloAdmit(cfg, start, 3, more, sys', s, e, false);
    AdmitEffect(s, e, c);
    var s' := Adopt(Bind(Admit(s, e, c), "", e), e, c);
    Joins(cfg, events', start, 3, more, sys', s', Served(e));
    assert s'.info[e].build == Ready(p, true) && c in s'.info[e].admitted;
    ServedWrongly(cfg, events' + more, 3);
    AdmittedWrongly(cfg, events' + more, e, c);
  }

  lemma AwaitsOnTwoHints(cfg: Config, x: string, b: string, p: Principal, y: string, c: string)
    requires HintsAvoidPrincipals(cfg.hint) && cfg.hint(b) != cfg.hint(c) && y != c
    ensures var s := Landed(cfg.hint(b), x, b, p);
            Closed(s) && |s.info| == 2 && s.byBearer == map[] && cfg.hint(c) !in s.entries
            && Closed(NewEntry(s, cfg.hint(c), y)) && AwaitsSecond(cfg, NewEntry(s, cfg.hint(c), y), p, c)
  {
    PrincipalKeyIsPrefixed(p);
  }

  lemma AwaitsOnOneHint(cfg: Config, b: string, p: Principal, c: string)
    requires HintsAvoidPrincipals(cfg.hint) && cfg.hint(b) == cfg.hint(c) && b != c
    ensures var s := Landed(cfg.hint(b), c, b, p);
            var s1 := SetBuild(s, 0, Failed);
            && Closed(s) && |s.info| == 2 && s.info[0].build.Pending? && S.Connect(cfg, s, 0, DialRefused) == s1
            && Closed(s1) && |s1.info| == 2 && s1.byBearer == map[]
            && cfg.hint(b) in s1.entries && s1.entries[cfg.hint(b)] == 0 && !AliveAt(s1, 0)
            && AwaitsSecond(cfg, NewEntry(Evict(s1, 0), cfg.hint(b), b), p, c)
  {
    PrincipalKeyIsPrefixed(p);
  }

  /** On two hints: another bearer founds an unbuilt entry on c's hint. */
  lemma CollisionOnTwoHints(cfg: Config, x: string, b: string, p: Principal, y: string, c: string, q: Principal)
    requires Regular(cfg) && cfg.owner(b) == Some(p) && cfg.owner(c) == Some(q)
    requires p != q && PrincipalKey(p) == PrincipalKey(q) && cfg.hint(b) != cfg.hint(c)
    requires x != "" && x != b && cfg.hint(x) == cfg.hint(b) && y != "" && y != c && cfg.hint(y) == cfg.hint(c)
    ensures !Isolated(cfg) && !TrustHolds(cfg)
  {
    hide Solo, Enter, Isolated, TrustHolds, Landed, AwaitsSecond;
    AwaitsOnTwoHints(cfg, x, b, p, y, c);
    var events, sys := FirstLands(cfg, x, b, p);
    var s := sys.pool;
    var start: Sys;
    events, start := Arrives(cfg, events, sys, 2, y);
    EntersBuild(s, y, cfg.hint(c));
    var s' := NewEntry(s, cfg.hint(c), y);
    var more, sys' := Continue(cfg, start, 2, [], start, s, Entering, Fine, s', Building(2, None));
    Joins(cfg, events, start, 2, more, sys', s', Building(2, None));
    SecondLands(cfg, events + more, sys', p, c, q);
  }

  /**
   * On one hint: c itself founds the entry that diverts b; its build is refused, and when b is sent
   * again the corpse is replaced by an unbuilt entry that diverts c.
   */
  lemma CollisionOnOneHint(cfg: Config, b: string, p: Principal, c: string, q: Principal)
    requires Regular(cfg) && cfg.owner(b) == Some(p) && cfg.owner(c) == Some(q)
    requires p != q && PrincipalKey(p) == PrincipalKey(q) && cfg.hint(b) == cfg.hint(c)
    ensures !Isolated(cfg) && !TrustHolds(cfg)
  {
    hide Solo, Enter, Isolated, TrustHolds, Landed, AwaitsSecond, SetBuild, Evict, S.Connect;
    AwaitsOnOneHint(cfg, b, p, c);
    var hint := cfg.hint(b);
    var events, sys := FirstLands(cfg, c, b, p);
    Resumes(cfg, sys, 0);
    var more, sys1 := SoloBuild(cfg, sys, 0, [], sys, sys.pool, 0, None, DialRefused);
    var s1 := SetBuild(Landed(hint, c, b, p), 0, Failed);
    Joins(cfg, events, sys, 0, more, sys1, s1, Building(0, None));
    events, sys := Arrives(cfg, events + more, sys1, 2, b);
    EntersReplacing(s1, b, hint);
    var s2 := NewEntry(Evict(s1, 0), hint, b);
    more, sys1 := Continue(cfg, sys, 2, [], sys, s1, Entering, Fine, s2, Building(2, None));
    Joins(cfg, events, sys, 2, more, sys1, s2, Building(2, None));
    SecondLands(cfg, events + more, sys1, p, c, q);
  }

  /**
   * Two principals with one key, each with a bearer that can be steered: one is admitted to, and
   * served from, the other's entry.
   */
  lemma CollisionBreaksIsolation(cfg: Config, b: string, c: string)
    requires Regular(cfg) && Steerable(cfg.hint, b) && Steerable(cfg.hint, c)
    requires cfg.owner(b).Some? && cfg.owner(c).Some? && cfg.owner(b) != cfg.owner(c)
    requires PrincipalKey(cfg.owner(b).value) == PrincipalKey(cfg.owner(c).value)
    ensures !Isolated(cfg) && !TrustHolds(cfg)
  {
    var p, q := cfg.owner(b).value, cfg.owner(c).value;
    if cfg.hint(b) == cfg.hint(c) {
      CollisionOnOneHint(cfg, b, p, c, q);
    } else {
      var x :| x != "" && x != b && cfg.hint(x) == cfg.hint(b);
      var y :| y != "" && y != c && cfg.hint(y) == cfg.hint(c);
      CollisionOnTwoHints(cfg, x, b, p, y, c, q);
    }
  }

  lemma ServedWrongly(cfg: Config, events: seq<Event>, t: nat)
    requires t in Exec(cfg, INIT, events).requests
    requires !RightlyServed(cfg, Exec(cfg, INIT, events).pool, Exec(cfg, INIT, events).requests[t])
    ensures !Isolated(cfg)
  {
  }

  lemma AdmittedWrongly(cfg: Config, events: seq<Event>, e: nat, b: string)
    requires var s := Exec(cfg, INIT, events).pool;
             && e < |s.info| && b in s.info[e].admitted
             && (s.info[e].build.Ready? ==> cfg.owner(b) != Some(s.info[e].build.who))
    ensures !TrustHolds(cfg)
  {
    hide Step, Exec;
    EvidenceIsTruthful(cfg, events);
    var sys := Exec(cfg, INIT, events);
    assert !Trusted(sys.pool.info[e], sys.proofs);
  }

  // ---- an allow list the parser panics on ----

  /** A bearer comes back to the entry it has founded. */
  lemma EntersAgain(s: State, b: string, hint: string)
    requires Closed(s) && b !in s.byBearer && hint in s.entries
    requires AliveAt(s, s.entries[hint]) && s.info[s.entries[hint]].latest == b
    ensures Enter(s, b, "", hint) == (s, ToBuild(s.entries[hint]))
  {
  }

  /** The pool with b's entry, whose build has not ended well, and its tail. */
  function Lone(hint: string, b: string, tail: seq<string>, build: Build): State {
    State(map[hint := 0], map x | x in tail :: 0, map[], [EntryState([hint], b, tail, build)])
  }

  lemma LoneIs(hint: string, b: string)
    ensures NewEntry(EMPTY, hint, b) == Lone(hint, b, [], Pending)
    ensures Closed(Lone(hint, b, [], Pending))
            && Lone(hint, b, [], Pending).info == [EntryState([hint], b, [], Pending)]
    ensures SetBuild(Lone(hint, b, [], Pending), 0, Spent) == Lone(hint, b, [], Spent)
  {
  }

  lemma SpentAdmits(hint: string, b: string)
    ensures var s := Lone(hint, b, [], Spent);
            Closed(s) && s.info == [EntryState([hint], b, [], Spent)] && Admit(s, 0, b) == Lone(hint, b, [b], Spent)
  {
    AdmitEffect(Lone(hint, b, [], Spent), 0, b);
    assert [] + [b] == [b];
  }

  /** The first build of b's entry panics. */
  lemma SpendsBuild(cfg: Config, b: string) returns (events: seq<Event>, sys: Sys)
    requires b != "" && cfg.panics(b)
    ensures Exec(cfg, INIT, events) == sys && sys.requests.Keys == {0}
    ensures sys.pool == Lone(cfg.hint(b), b, [], Spent)
  {
    hide Solo, Enter, Lone, SetBuild;
    var hint := cfg.hint(b);
    EntersBuild(EMPTY, b, hint);
    LoneIs(hint, b);
    var s := Lone(hint, b, [], Pending);
    events, sys := Arrives(cfg, [], INIT, 0, b);
    var more, sys1 := Continue(cfg, sys, 0, [], sys, EMPTY, Entering, Fine, s, Building(0, None));
    Joins(cfg, events, sys, 0, more, sys1, s, Building(0, None));
    Resumes(cfg, sys1, 0);
    events, sys := events + more, sys1;
    more, sys1 := SoloPanic(cfg, sys, 0, [], sys, s, 0, None, Fine);
    Joins(cfg, events, sys, 0, more, sys1, Lone(hint, b, [], Spent), Finished(None, None));
    events, sys := events + more, sys1;
  }

  /** Sent again, the bearer finds the build spent without an error, and is admitted. */
  lemma JoinsSpent(cfg: Config, start: Sys, t: nat, b: string) returns (more: seq<Event>, sys: Sys)
    requires t in start.requests && start.requests[t] == Request(b, "", Entering)
    requires Solo(cfg, start, t, [], start, Lone(cfg.hint(b), b, [], Spent), Entering)
    ensures Solo(cfg, start, t, more, sys, Lone(cfg.hint(b), b, [b], Spent), Served(0))
  {
    hide Solo, Enter, Locate, Admit, Evict, ServerFor;
    var s, s' := Lone(cfg.hint(b), b, [], Spent), Lone(cfg.hint(b), b, [b], Spent);
    EntersAgain(s, b, cfg.hint(b));
    SpentAdmits(cfg.hint(b), b);
    more, sys := Continue(cfg, start, t, [], start, s, Entering, Fine, s, Building(0, None));
    more, sys := Continue(cfg, start, t, more, sys, s, Building(0, None), Fine, s, Founding(0));
    more, sys := Continue(cfg, start, t, more, sys, s, Founding(0), Fine, s', Served(0));
  }

  /** A bearer the parser panics on is admitted and served the second time, though nothing was ever proven. */
  lemma PanicBreaksTrust(cfg: Config, b: string)
    requires Regular(cfg) && cfg.panics(b)
    ensures !Isolated(cfg) && !TrustHolds(cfg)
  {
    hide Solo, Isolated, TrustHolds, Step;
    var events, start := SpendsBuild(cfg, b);
    SpentAdmits(cfg.hint(b), b);
    events, start := Arrives(cfg, events, start, 1, b);
    var more, sys := JoinsSpent(cfg, start, 1, b);
    var s := Lone(cfg.hint(b), b, [b], Spent);
    Joins(cfg, events, start, 1, more, sys, s, Served(0));
    assert !s.info[0].build.Ready? && b in s.info[0].admitted;
    ServedWrongly(cfg, events + more, 1);
    AdmittedWrongly(cfg, events + more, 0, b);
  }

  // ---- exactly when ----

  lemma SoundRunsHold(cfg: Config)
    requires Sound(cfg) && Unconfused(cfg)
    ensures Isolated(cfg) && TrustHolds(cfg)
  {
    forall events: seq<Event>
      ensures var sys := Exec(cfg, INIT, events);
              && (forall t | t in sys.requests :: RightlyServed(cfg, sys.pool, sys.requests[t]))
              && (forall e | 0 <= e < |sys.pool.info| :: Trusted(sys.pool.info[e], sys.proofs))
    {
      RunIsIsolated(cfg, events);
      TrustRule(cfg, events);
    }
  }

  lemma UnsoundRunsFail(cfg: Config)
    requires Regular(cfg) && !(Unconfused(cfg) && PanicFree(cfg))
    ensures !Isolated(cfg) && !TrustHolds(cfg)
  {
    hide Isolated, TrustHolds;
    if !PanicFree(cfg) {
      var b :| cfg.panics(b);
      PanicBreaksTrust(cfg, b);
    } else {
      var b, c :| && cfg.owner(b).Some? && cfg.owner(c).Some? && Steerable(cfg.hint, b) && Steerable(cfg.hint, c)
                  && PrincipalKey(cfg.owner(b).value) == PrincipalKey(cfg.owner(c).value)
                     && cfg.owner(b) != cfg.owner(c);
      CollisionBreaksIsolation(cfg, b, c);
    }
  }

  /**
   * Whatever the realm and the hint, the node isolates principals in every schedule if and only if
   * the parser never panics and no two principals that share a principal key both have a bearer
   * whose hint another bearer shares.
   */
  lemma IsolatedExactly(cfg: Config)
    requires Regular(cfg)
    ensures Isolated(cfg) <==> Unconfused(cfg) && PanicFree(cfg)
  {
    hide Isolated, Unconfused, PanicFree;
    if Unconfused(cfg) && PanicFree(cfg) {
      SoundRunsHold(cfg);
    } else {
      UnsoundRunsFail(cfg);
    }
  }

  /** The trust rule holds in every schedule under exactly the same condition. */
  lemma TrustHoldsExactly(cfg: Config)
    requires Regular(cfg)
    ensures TrustHolds(cfg) <==> Unconfused(cfg) && PanicFree(cfg)
  {
    hide TrustHolds, Unconfused, PanicFree;
    if Unconfused(cfg) && PanicFree(cfg) {
      SoundRunsHold(cfg);
    } else {
      UnsoundRunsFail(cfg);
    }
  }

  /** Everything routes to one key. */
  function ConstantHint(): string -> string {
    (b: string) => "tok:"
  }

  /** Over all hints at once: exactly when no two principals share a principal key. */
  lemma IsolatedIffKeysDistinct(owner: string -> Option<Principal>, public: bool)
    requires NamesPrincipals(owner)
    ensures (forall hint: string -> string | HintsAvoidPrincipals(hint) ::
               Isolated(Config(owner, (b: string) => false, hint, public)))
            <==> KeysDistinct(owner)
  {
    if KeysDistinct(owner) {
      forall hint: string -> string | HintsAvoidPrincipals(hint)
        ensures Isolated(Config(owner, (b: string) => false, hint, public))
      {
        DistinctKeysAreUnconfused(Config(owner, (b: string) => false, hint, public));
        IsolatedExactly(Config(owner, (b: string) => false, hint, public));
      }
    } else {
      var b, c :| owner(b).Some? && owner(c).Some? && owner(b) != owner(c) &&
                  PrincipalKey(owner(b).value) == PrincipalKey(owner(c).value);
      var hint := ConstantHint();
      assert forall b :: hint(b)[0] == 't';
      assert c != "" && b != "" && hint(c) == hint(b);
      CollisionBreaksIsolation(Config(owner, (b: string) => false, hint, public), b, c);
    }
  }

  // ---- the node as deployed ----

  /** The node with its own hint and its own parser of the server's allow lists. */
  function Deployed(allows: string -> seq<string>, root: string, decode: string -> Option<Claims>,
                    public: bool): Config {
    Config(ServerOwner(allows, root), ServerPanics(allows, root), (b: string) => RouteHint(b, decode), public)
  }

  lemma DeployedIsRegular(allows: string -> seq<string>, root: string, decode: string -> Option<Claims>, public: bool)
    ensures Regular(Deployed(allows, root, decode, public))
  {
    ServerOwnerNamesPrincipals(allows, root);
    RouteHintAvoidsPrincipals((b: string) => RouteHint(b, decode), decode);
  }

  /** The parser panics on no allow list the server asserts for a token. */
  predicate Parses(allows: string -> seq<string>, root: string, b: string) {
    b != "" ==> !PrincipalFromAllows(allows(b), root).Panics?
  }

  /**
   * The node as deployed isolates principals if and only if its parser panics on nobody's allow list
   * and no two principals that share a principal key both hold a token that is routed by its claims.
   */
  lemma DeployedNodeIsIsolatedIff(allows: string -> seq<string>, root: string, decode: string -> Option<Claims>,
                                  public: bool)
    ensures Isolated(Deployed(allows, root, decode, public)) <==>
            var owner := ServerOwner(allows, root);
            && (forall b :: Parses(allows, root, b))
            && (forall b, c | && owner(b).Some? && owner(c).Some?
                              && RoutedByClaims(b, decode) && RoutedByClaims(c, decode) ::
                  PrincipalKey(owner(b).value) == PrincipalKey(owner(c).value) ==> owner(b) == owner(c))
  {
    hide Isolated;
    var cfg := Deployed(allows, root, decode, public);
    DeployedIsRegular(allows, root, decode, public);
    forall b | cfg.owner(b).Some?
      ensures Steerable(cfg.hint, b) <==> RoutedByClaims(b, decode)
    {
      ClaimsAreSteerable(cfg.hint, b, decode);
    }
    assert forall b :: cfg.panics(b) <==> !Parses(allows, root, b);
    IsolatedExactly(cfg);
  }

  /** Where no account name has a colon in it, the parser alone decides. */
  lemma DeployedNodeIsIsolated(allows: string -> seq<string>, root: string, decode: string -> Option<Claims>,
                               public: bool)
    requires forall b :: ServerOwner(allows, root)(b).Some? ==> ':' !in ServerOwner(allows, root)(b).value.account
    ensures Isolated(Deployed(allows, root, decode, public)) <==> forall b :: Parses(allows, root, b)
  {
    hide Isolated;
    ServerOwnerNamesPrincipals(allows, root);
    DeployedNodeIsIsolatedIff(allows, root, decode, public);
  }

  /** And so it does, colons or not, where all tokens are opaque. */
  lemma OpaqueTokensAreIsolated(allows: string -> seq<string>, root: string, decode: string -> Option<Claims>,
                                public: bool)
    requires forall b | ServerOwner(allows, root)(b).Some? :: !RoutedByClaims(b, decode)
    ensures Isolated(Deployed(allows, root, decode, public)) <==> forall b :: Parses(allows, root, b)
  {
    hide Isolated;
    DeployedNodeIsIsolatedIff(allows, root, decode, public);
  }

  /** A colon in an account name does break it: two signed tokens, granted to principals that share a key. */
  lemma ColonBreaksIsolation(allows: string -> seq<string>, root: string, decode: string -> Option<Claims>,
                             public: bool, b: string, c: string)
    requires b != "" && c != "" && RoutedByClaims(b, decode) && RoutedByClaims(c, decode)
    requires allows(b) == [Grant(Principal("c", "a:b"), root)] && allows(c) == [Grant(Principal("b:c", "a"), root)]
    ensures !Isolated(Deployed(allows, root, decode, public))
  {
    var owner := ServerOwner(allows, root);
    GrantIsMatched(Principal("c", "a:b"), root);
    GrantIsMatched(Principal("b:c", "a"), root);
    assert owner(b) == Some(Principal("c", "a:b")) && owner(c) == Some(Principal("b:c", "a"));
    ColonConfusesKeys();
    DeployedNodeIsIsolatedIff(allows, root, decode, public);
  }
}
