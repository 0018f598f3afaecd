/**
 * With requests in flight an entry that is still building diverts everyone else who meets it. That
 * makes one entry per principal, and a mismatch that means another principal, rarer than they are
 * for requests that come one at a time; here is exactly when they hold in every interleaving.
 */
module OneEntryInFlight {
  import opened Wrappers
  import opened Text
  import opened Grants
  import opened Routing
  import opened PoolSpec
  import opened PoolInvariants
  import opened Interleaving
  import opened Isolation
  import opened Structure
  import opened SoloRuns
  import opened KeyCollisions
  import opened InFlight
  import S = Sequential
  import R = SequentialRuns
  import O = OneEntryEach
  import F = Freshness

  // ---- one entry per principal ----

  /** No interleaving without a shutdown ever has two live entries of one principal. */
  ghost predicate OneEntryPerPrincipal(cfg: Config) {
    forall events: seq<Event>, p: Principal, e: nat, f: nat | Close !in events ::
      var s := Exec(cfg, INIT, events).pool;
      O.Lives(s, e, p) && O.Lives(s, f, p) ==> e == f
  }

  /** Every principal has one bearer, on a hint that no other bearer has. */
  ghost predicate Solitary(cfg: Config) {
    forall b | cfg.owner(b).Some? ::
      !Steerable(cfg.hint, b) && forall c | cfg.owner(c) == cfg.owner(b) :: c == b
  }

  lemma SolitaryIsUnconfused(cfg: Config)
    requires Solitary(cfg)
    ensures Unconfused(cfg)
  {
  }

  /** Nobody has been diverted: no entry sits under a principal key. */
  ghost predicate NoDetours(s: State) {
    forall e, k | 0 <= e < |s.info| && k in s.info[e].keys :: !HasPrefix(k, "pri:")
  }

  /** New entries are founded under their bearer's hint, unless ensurePrincipal founds them. */
  lemma FoundedUnderHint(cfg: Config, s: State, t: nat, r: Request, fate: Fate, minted: string)
    requires Closed(s) && InRange(r.pc, |s.info|) && !r.pc.Ensuring?
    ensures var s' := Advance(cfg, s, t, r, fate, minted).0;
            forall e | |s.info| <= e < |s'.info| :: s'.info[e].keys == [cfg.hint(r.bearer)]
  {
    hide Evict, Admit, Bind, Adopt, Proves, ServerFor, Crashes;
    match r.pc {
      case Entering => EnterFoundsUnderHint(s, r.bearer, r.sid, cfg.hint(r.bearer));
      case Evicting(e) => EvictLeavesInfo(s, e, e);
      case Founding(e) => AdmitLeavesRoutes(s, e, r.bearer); BindLeavesInfo(Admit(s, e, r.bearer), r.sid, e);
      case Admitting(e, _) => AdmitLeavesRoutes(s, e, r.bearer); BindLeavesInfo(Admit(s, e, r.bearer), r.sid, e);
      case Answering(e, _) => BindLeavesInfo(s, minted, e);
      case Adopting(e) => AdoptLeavesCount(s, e, r.bearer);
      case _ =>
    }
  }

  lemma BindLeavesInfo(s: State, sid: string, e: nat)
    ensures Bind(s, sid, e).info == s.info
  {
  }

  lemma AdoptLeavesCount(s: State, e: nat, b: string)
    requires e < |s.info|
    ensures |Adopt(s, e, b).info| == |s.info|
  {
  }

  lemma EnterFoundsUnderHint(s: State, b: string, sid: string, hint: string)
    requires Closed(s)
    ensures var s' := Enter(s, b, sid, hint).0;
            forall e | |s.info| <= e < |s'.info| :: s'.info[e].keys == [hint]
  {
    if !BoundLive(s, sid) && sid != "" && sid in s.sessions {
      EvictClosed(s, s.sessions[sid]);
    }
  }

  lemma SolitaryStepNoDetours(cfg: Config, sys: Sys, ev: Event)
    requires Sound(cfg) && Unconfused(cfg) && Solitary(cfg) && SysInv(cfg, sys) && NoDetours(sys.pool)
    ensures NoDetours(Step(cfg, sys, ev).pool)
  {
    if ev.Run? && ev.t in sys.requests {
      SolitaryRunNoDetours(cfg, sys, ev.t, ev.fate, ev.minted);
    }
  }

  lemma SolitaryRunNoDetours(cfg: Config, sys: Sys, t: nat, fate: Fate, minted: string)
    requires Sound(cfg) && Unconfused(cfg) && Solitary(cfg) && SysInv(cfg, sys) && NoDetours(sys.pool)
    requires t in sys.requests
    ensures NoDetours(Step(cfg, sys, Run(t, fate, minted)).pool)
  {
    hide Advance, PoolInv, RequestInv, Solitary, Unconfused;
    var s, r := sys.pool, sys.requests[t];
    KeysKept(cfg, s, sys.proofs, t, r, fate, minted);
    NobodyEnsures(cfg, s, sys.proofs, t, r);
    FoundedUnderHint(cfg, s, t, r, fate, minted);
  }

  lemma KeysKept(cfg: Config, s: State, proofs: Evidence, t: nat, r: Request, fate: Fate, minted: string)
    requires Sound(cfg) && Unconfused(cfg) && Truthful(cfg, proofs) && PoolInv(cfg, s, proofs)
    requires RequestInv(cfg, s, proofs, t, r)
    ensures Closed(s) && InRange(r.pc, |s.info|)
    ensures var s' := Advance(cfg, s, t, r, fate, minted).0;
            |s.info| <= |s'.info| && forall e | 0 <= e < |s.info| :: s'.info[e].keys == s.info[e].keys
  {
    hide Advance, EntryInv, SparesStrangers, KeepsLiveBindings, RequestInv, Unconfused;
    AdvanceFair(cfg, s, proofs, t, r, fate, minted);
  }

  lemma NobodyEnsures(cfg: Config, s: State, proofs: Evidence, t: nat, r: Request)
    requires Solitary(cfg) && Truthful(cfg, proofs) && RequestInv(cfg, s, proofs, t, r)
    ensures !r.pc.Ensuring?
  {
  }

  lemma {:induction false} SolitaryExecNoDetours(cfg: Config, sys: Sys, events: seq<Event>)
    requires Sound(cfg) && Unconfused(cfg) && Solitary(cfg) && SysInv(cfg, sys) && NoDetours(sys.pool)
    ensures NoDetours(Exec(cfg, sys, events).pool)
    decreases |events|
  {
    hide SysInv, NoDetours, Step, Solitary, Unconfused, Sound;
    if events != [] {
      StepKeepsInv(cfg, sys, events[0]);
      SolitaryStepNoDetours(cfg, sys, events[0]);
      SolitaryExecNoDetours(cfg, Step(cfg, sys, events[0]), events[1..]);
    }
  }

  /** A live entry sits under the hint of its principal's one bearer. */
  lemma UnderOwnHint(cfg: Config, s: State, proofs: Evidence, e: nat, p: Principal) returns (x: string)
    requires PoolInv(cfg, s, proofs) && LiveAreIndexed(s) && NoDetours(s) && O.Lives(s, e, p)
    ensures cfg.owner(x) == Some(p) && cfg.hint(x) in s.entries && s.entries[cfg.hint(x)] == e
  {
    var k := s.info[e].keys[0];
    assert EntryInv(cfg, s.info[e], proofs) && k in s.info[e].keys && S.Indexed(s, e);
    x :| cfg.hint(x) == k && cfg.owner(x) == Some(p);
  }

  lemma SolitaryKeepsOne(cfg: Config)
    requires Sound(cfg) && Solitary(cfg)
    ensures OneEntryPerPrincipal(cfg)
  {
    hide NoDetours, LiveAreIndexed, PoolInv, O.Lives;
    SolitaryIsUnconfused(cfg);
    forall events: seq<Event>, p: Principal, e: nat, f: nat
      | Close !in events && O.Lives(Exec(cfg, INIT, events).pool, e, p) && O.Lives(Exec(cfg, INIT, events).pool, f, p)
      ensures e == f
    {
      var sys := Exec(cfg, INIT, events);
      InitInv(cfg);
      InitIsSturdy();
      assert LiveAreIndexed(INIT.pool) && NoDetours(INIT.pool) by { NothingAtFirst(); }
      ExecKeepsInv(cfg, INIT, events);
      ExecKeepsLive(cfg, INIT, events);
      SolitaryExecNoDetours(cfg, INIT, events);
      var x := UnderOwnHint(cfg, sys.pool, sys.proofs, e, p);
      var y := UnderOwnHint(cfg, sys.pool, sys.proofs, f, p);
    }
  }

  lemma NothingAtFirst()
    ensures LiveAreIndexed(EMPTY) && NoDetours(EMPTY)
  {
  }

  // ---- a bearer whose hint another has too ----

  lemma TwiceState(cfg: Config, x: string, b: string, p: Principal)
    requires Regular(cfg) && cfg.owner(b) == Some(p)
    ensures var s1 := SetBuild(Landed(cfg.hint(b), x, b, p), 0, Failed);
            && |s1.info| == 2
            && var s2 := NewEntry(Evict(s1, 0), cfg.hint(b), b);
               && Closed(s2) && |s2.info| == 3 && s2.info[2].build.Pending? && s2.info[2].latest == b
               && O.Lives(S.Connect(cfg, s2, 2, Fine), 1, p) && O.Lives(S.Connect(cfg, s2, 2, Fine), 2, p)
  {
    PrincipalKeyIsPrefixed(p);
  }

  /**
   * Another bearer founds an entry on the hint; b is diverted and its entry built; the other's build
   * is refused; b is sent again and founds the entry on the hint.
   */
  lemma BuiltTwice(cfg: Config, x: string, b: string, p: Principal) returns (events: seq<Event>)
    requires Regular(cfg) && cfg.owner(b) == Some(p) && x != "" && x != b && cfg.hint(x) == cfg.hint(b)
    ensures Close !in events
    ensures O.Lives(Exec(cfg, INIT, events).pool, 1, p) && O.Lives(Exec(cfg, INIT, events).pool, 2, p)
  {
    hide Solo, Enter, Landed, AwaitsSecond, SetBuild, Evict, NewEntry, S.Connect, O.Lives;
    AwaitsOnOneHint(cfg, b, p, x);
    TwiceState(cfg, x, b, p);
    var hint := cfg.hint(b);
    var sys: Sys;
    events, sys := FirstLands(cfg, x, b, p);
    Resumes(cfg, sys, 0);
    var more, sys1 := SoloBuild(cfg, sys, 0, [], sys, sys.pool, 0, None, DialRefused);
    var s1 := SetBuild(Landed(hint, x, b, p), 0, Failed);
    Joins(cfg, events, sys, 0, more, sys1, s1, Building(0, None));
    events, sys := Arrives(cfg, events + more, sys1, 2, b);
    EntersReplacing(s1, b, hint);
    var s2 := NewEntry(Evict(s1, 0), hint, b);
    more, sys1 := Continue(cfg, sys, 2, [], sys, s1, Entering, Fine, s2, Building(2, None));
    more, sys1 := SoloBuild(cfg, sys, 2, more, sys1, s2, 2, None, Fine);
    Joins(cfg, events, sys, 2, more, sys1, S.Connect(cfg, s2, 2, Fine), Building(2, None));
    events := events + more;
  }

  lemma SteerableHasTwo(cfg: Config, b: string)
    requires Regular(cfg) && cfg.owner(b).Some? && Steerable(cfg.hint, b)
    ensures !OneEntryPerPrincipal(cfg)
  {
    hide Exec, O.Lives;
    var x :| x != "" && x != b && cfg.hint(x) == cfg.hint(b);
    var events := BuiltTwice(cfg, x, b, cfg.owner(b).value);
  }

  /** Two bearers that nobody can steer each found an entry. */
  lemma TwoBearersHaveTwo(cfg: Config, b: string, c: string)
    requires Sound(cfg) && (forall x | cfg.owner(x).Some? :: !Steerable(cfg.hint, x))
    requires cfg.owner(b).Some? && cfg.owner(c) == cfg.owner(b) && b != c
    ensures !OneEntryPerPrincipal(cfg)
  {
    hide Exec, O.Lives, R.RunOps;
    assert b != "" && c != "";
    var p := cfg.owner(b).value;
    var ops := O.TornByHints(cfg, b, c);
    var events := RunIsASchedule(cfg, ops);
    var s := Exec(cfg, INIT, events).pool;
    assert O.Lives(s, s.sessions["s"], p) && O.Lives(s, s.byBearer[c], p);
  }

  /**
   * No interleaving has two live entries of one principal if and only if every principal has one
   * bearer, on a hint that no other bearer has.
   */
  lemma OneEntryIffSolitary(cfg: Config)
    requires Sound(cfg)
    ensures OneEntryPerPrincipal(cfg) <==> Solitary(cfg)
  {
    hide OneEntryPerPrincipal;
    if Solitary(cfg) {
      SolitaryKeepsOne(cfg);
    } else if exists b :: cfg.owner(b).Some? && Steerable(cfg.hint, b) {
      var b :| cfg.owner(b).Some? && Steerable(cfg.hint, b);
      SteerableHasTwo(cfg, b);
    } else {
      var b, c :| cfg.owner(b).Some? && cfg.owner(c) == cfg.owner(b) && c != b;
      TwoBearersHaveTwo(cfg, b, c);
    }
  }

  /** On the node as deployed one token routed by its claims is enough for two entries. */
  lemma ClaimsHaveTwo(allows: string -> seq<string>, root: string, decode: string -> Option<Claims>, public: bool,
                      b: string)
    requires ServerOwner(allows, root)(b).Some? && RoutedByClaims(b, decode)
    ensures !OneEntryPerPrincipal(Deployed(allows, root, decode, public))
  {
    var cfg := Deployed(allows, root, decode, public);
    DeployedIsRegular(allows, root, decode, public);
    ClaimsAreSteerable(cfg.hint, b, decode);
    SteerableHasTwo(cfg, b);
  }

  /** The pool once b's entry and a second one, founded after a shutdown, have come as far as these builds. */
  function Doubled(h: string, b: string, first: Build, second: Build): State {
    State(map[h := 1], map[], map[], [EntryState([h], b, [], first), EntryState([h], b, [], second)])
  }

  lemma DoubledIs(cfg: Config, h: string, b: string, p: Principal)
    requires Regular(cfg) && cfg.owner(b) == Some(p)
    ensures NewEntry(CloseAll(NewEntry(EMPTY, h, b)), h, b) == Doubled(h, b, Pending, Pending)
    ensures forall first, second :: Closed(Doubled(h, b, first, second)) && |Doubled(h, b, first, second).info| == 2
    ensures S.Connect(cfg, Doubled(h, b, Pending, Pending), 0, Fine) == Doubled(h, b, Ready(p, true), Pending)
    ensures S.Connect(cfg, Doubled(h, b, Ready(p, true), Pending), 1, Fine)
            == Doubled(h, b, Ready(p, true), Ready(p, true))
  {
  }

  /** A shutdown amid a build is why shutdowns are left out: the build goes on, and the bearer founds another entry. */
  lemma ShutdownDoubles(cfg: Config, b: string, p: Principal) returns (events: seq<Event>)
    requires Regular(cfg) && cfg.owner(b) == Some(p)
    ensures O.Lives(Exec(cfg, INIT, events).pool, 0, p) && O.Lives(Exec(cfg, INIT, events).pool, 1, p)
  {
    hide Solo, Enter, S.Connect, CloseAll, NewEntry;
    var h := cfg.hint(b);
    DoubledIs(cfg, h, b, p);
    var sys: Sys, sys1: Sys, more: seq<Event>;
    events, sys := FoundsThenCloses(cfg, b);
    var s1 := Doubled(h, b, Pending, Pending);
    var s2 := Doubled(h, b, Ready(p, true), Pending);
    var s3 := Doubled(h, b, Ready(p, true), Ready(p, true));
    events, sys := Arrives(cfg, events, sys, 1, b);
    EntersBuild(sys.pool, b, h);
    more, sys1 := Continue(cfg, sys, 1, [], sys, sys.pool, Entering, Fine, s1, Building(1, None));
    Joins(cfg, events, sys, 1, more, sys1, s1, Building(1, None));
    events, sys := events + more, sys1;
    Resumes(cfg, sys, 0);
    more, sys1 := SoloBuild(cfg, sys, 0, [], sys, s1, 0, None, Fine);
    Joins(cfg, events, sys, 0, more, sys1, s2, Building(0, None));
    events, sys := events + more, sys1;
    Resumes(cfg, sys, 1);
    more, sys1 := SoloBuild(cfg, sys, 1, [], sys, s2, 1, None, Fine);
    Joins(cfg, events, sys, 1, more, sys1, s3, Building(1, None));
    events := events + more;
  }

  lemma FoundsThenCloses(cfg: Config, b: string) returns (events: seq<Event>, sys: Sys)
    requires b != ""
    ensures Exec(cfg, INIT, events) == sys && sys.requests == map[0 := Request(b, "", Building(0, None))]
    ensures sys.pool == CloseAll(NewEntry(EMPTY, cfg.hint(b), b)) && Closed(sys.pool) && |sys.pool.info| == 1
    ensures sys.pool.byBearer == map[] && sys.pool.entries == map[]
  {
    hide Solo, Enter;
    EntersBuild(EMPTY, b, cfg.hint(b));
    var s := NewEntry(EMPTY, cfg.hint(b), b);
    events, sys := Arrives(cfg, [], INIT, 0, b);
    var more, sys1 := Continue(cfg, sys, 0, [], sys, EMPTY, Entering, Fine, s, Building(0, None));
    Joins(cfg, events, sys, 0, more, sys1, s, Building(0, None));
    ExecSnoc(cfg, INIT, events + more, Close);
    events, sys := events + more + [Close], Step(cfg, sys1, Close);
  }

  // ---- what a mismatch means ----

  /** In its next step request t is answered a mismatch, on a session bound to entry e. */
  ghost predicate IsMismatched(cfg: Config, sys: Sys, t: nat, e: nat) {
    && Closed(sys.pool) && t in sys.requests && e < |sys.pool.info|
    && var s, r := sys.pool, sys.requests[t];
       match r.pc
       case Entering =>
         BoundLive(s, r.sid) && s.sessions[r.sid] == e && Enter(s, r.bearer, r.sid, cfg.hint(r.bearer)).1.ToMismatch?
       case Comparing(f, bound, who) => bound && f == e && !s.info[e].Is(who)
       case _ => false
  }

  /** No step of any interleaving answers a mismatch to a bearer of the principal the session is bound to. */
  ghost predicate MismatchMeansAnother(cfg: Config) {
    forall events: seq<Event>, t: nat, e: nat ::
      var sys := Exec(cfg, INIT, events);
      IsMismatched(cfg, sys, t, e) ==>
        sys.pool.info[e].build.Ready? && cfg.owner(sys.requests[t].bearer) != Some(sys.pool.info[e].build.who)
  }

  /** Sessions are bound to entries that have admitted someone. */
  ghost predicate BoundAreWelcome(s: State) {
    Closed(s) && forall sid | sid in s.sessions :: s.info[s.sessions[sid]].admitted != []
  }

  /** So are requests served, and probes for a session are at built entries. */
  ghost predicate WelcomeAt(s: State, pc: Pc) {
    match pc
    case Adopting(e) => e < |s.info| && s.info[e].admitted != []
    case Served(e) => e < |s.info| && s.info[e].admitted != []
    case Answering(e, _) => e < |s.info| && s.info[e].admitted != []
    case Probing(e, bound) => bound ==> e < |s.info| && s.info[e].build.Ready?
    case Comparing(e, bound, _) => bound ==> e < |s.info| && s.info[e].build.Ready?
    case _ => true
  }

  ghost predicate Welcomed(sys: Sys) {
    && BoundAreWelcome(sys.pool)
    && forall t | t in sys.requests :: WelcomeAt(sys.pool, sys.requests[t].pc)
  }

  /** Entries keep their welcome. */
  ghost predicate Welcoming(s: State, s': State) {
    && |s.info| <= |s'.info|
    && forall e | 0 <= e < |s.info| ::
         && (s.info[e].admitted != [] ==> s'.info[e].admitted != [])
         && (s.info[e].build.Ready? ==> s'.info[e].build.Ready?)
  }

  lemma WelcomeStays(s: State, s': State, pc: Pc)
    requires WelcomeAt(s, pc) && Welcoming(s, s')
    ensures WelcomeAt(s', pc)
  {
  }

  lemma EvictWelcomes(s: State, e: nat)
    requires IndexInv(s) && BoundAreWelcome(s) && e < |s.info|
    ensures IndexInv(Evict(s, e)) && BoundAreWelcome(Evict(s, e)) && Welcoming(s, Evict(s, e))
  {
    EvictKeepsIndex(s, e);
  }

  lemma NewEntryWelcomes(s: State, key: string, b: string)
    requires BoundAreWelcome(s)
    ensures BoundAreWelcome(NewEntry(s, key, b)) && Welcoming(s, NewEntry(s, key, b))
  {
  }

  lemma LocateWelcomes(s: State, key: string, b: string)
    requires IndexInv(s) && BoundAreWelcome(s)
    ensures BoundAreWelcome(Locate(s, key, b).0) && Welcoming(s, Locate(s, key, b).0)
  {
    hide IndexInv, Evict, NewEntry, BoundAreWelcome;
    IndexIsClosed(s);
    if key in s.entries && !AliveAt(s, s.entries[key]) {
      EvictWelcomes(s, s.entries[key]);
      NewEntryWelcomes(Evict(s, s.entries[key]), key, b);
    } else if key !in s.entries {
      NewEntryWelcomes(s, key, b);
    }
  }

  lemma BindWelcomes(s: State, sid: string, e: nat)
    requires BoundAreWelcome(s) && e < |s.info| && s.info[e].admitted != []
    ensures BoundAreWelcome(Bind(s, sid, e)) && Welcoming(s, Bind(s, sid, e))
  {
  }

  lemma AdmitWelcomes(s: State, e: nat, b: string)
    requires BoundAreWelcome(s) && e < |s.info| && |s.info[e].admitted| <= KEEP
    ensures BoundAreWelcome(Admit(s, e, b)) && Welcoming(s, Admit(s, e, b))
    ensures |Admit(s, e, b).info| == |s.info| && Admit(s, e, b).info[e].admitted != []
  {
    if b !in s.info[e].admitted {
      AdmitEffect(s, e, b);
      AdmitClosed(s, e, b);
    }
  }

  lemma EnterUnboundWelcomes(s: State, b: string, sid: string, hint: string)
    requires IndexInv(s) && BoundAreWelcome(s)
    ensures var (s', g) := EnterUnbound(s, b, sid, hint);
            BoundAreWelcome(s') && Welcoming(s, s') && WelcomeAt(s', Next(g))
  {
    hide BoundAreWelcome, Evict, Locate, IndexInv;
    IndexIsClosed(s);
    TailOfFound(s, b);
    if b in s.byBearer && AliveAt(s, s.byBearer[b]) {
      BindWelcomes(s, sid, s.byBearer[b]);
    } else if b in s.byBearer {
      EvictWelcomes(s, s.byBearer[b]);
      LocateWelcomes(Evict(s, s.byBearer[b]), hint, b);
    } else {
      LocateWelcomes(s, hint, b);
    }
  }

  lemma TailOfFound(s: State, b: string)
    requires IndexInv(s)
    ensures b in s.byBearer ==> s.byBearer[b] < |s.info| && s.info[s.byBearer[b]].admitted != []
  {
  }

  lemma EnterWelcomes(s: State, b: string, sid: string, hint: string)
    requires IndexInv(s) && Closed(s) && SessionsBuilt(s) && BoundAreWelcome(s)
    ensures var (s', g) := Enter(s, b, sid, hint);
            BoundAreWelcome(s') && Welcoming(s, s') && WelcomeAt(s', Next(g))
  {
    hide EnterUnbound, Evict, IndexInv;
    if !BoundLive(s, sid) {
      if sid != "" && sid in s.sessions {
        EvictWelcomes(s, s.sessions[sid]);
        EnterUnboundWelcomes(Evict(s, s.sessions[sid]), b, sid, hint);
      } else {
        EnterUnboundWelcomes(s, b, sid, hint);
      }
    }
  }

  /** Steps that touch neither sessions nor tails, and publish or keep what is published. */
  lemma QuietStepWelcomes(cfg: Config, s: State, t: nat, r: Request, fate: Fate, minted: string)
    requires Closed(s) && BoundAreWelcome(s) && WelcomeAt(s, r.pc) && InRange(r.pc, |s.info|) && Placed(s, t, r)
    requires r.pc.Building? || r.pc.Connecting? || r.pc.Dialed? || r.pc.Probing? || r.pc.Comparing? || r.pc.Adopting?
             || r.pc.Served? || r.pc.Refused? || r.pc.Finished?
    ensures var (s', _, pc) := Advance(cfg, s, t, r, fate, minted);
            BoundAreWelcome(s') && Welcoming(s, s') && WelcomeAt(s', pc)
  {
    hide ServerFor, Proves, Crashes, SetBuild, Adopt, BoundAreWelcome;
    var s' := Advance(cfg, s, t, r, fate, minted).0;
    if r.pc.Adopting? {
      AdoptWelcomes(s, r.pc.e, r.bearer);
    } else if (r.pc.Building? && s.info[r.pc.e].build.Pending?) || r.pc.Connecting? || r.pc.Dialed? {
      BuildWelcomes(s, r.pc.e, Running(t));
      BuildWelcomes(s, r.pc.e, Failed);
      BuildWelcomes(s, r.pc.e, Spent);
      if r.pc.Dialed? {
        BuildWelcomes(s, r.pc.e, Ready(r.pc.who, true));
      }
    }
  }

  lemma AdoptWelcomes(s: State, e: nat, b: string)
    requires BoundAreWelcome(s) && e < |s.info|
    ensures BoundAreWelcome(Adopt(s, e, b)) && Welcoming(s, Adopt(s, e, b))
    ensures Adopt(s, e, b).info[e].admitted == s.info[e].admitted
  {
  }

  lemma BuildWelcomes(s: State, e: nat, build: Build)
    requires BoundAreWelcome(s) && e < |s.info| && !s.info[e].build.Ready?
    ensures BoundAreWelcome(SetBuild(s, e, build)) && Welcoming(s, SetBuild(s, e, build))
  {
  }

  lemma AdvanceWelcomes(cfg: Config, s: State, t: nat, r: Request, fate: Fate, minted: string)
    requires Sturdy(s) && Closed(s) && SessionsBuilt(s) && BoundAreWelcome(s) && Placed(s, t, r) && WelcomeAt(s, r.pc)
    ensures InRange(r.pc, |s.info|)
    ensures var (s', _, pc) := Advance(cfg, s, t, r, fate, minted);
            BoundAreWelcome(s') && Welcoming(s, s') && WelcomeAt(s', pc)
  {
    hide BoundAreWelcome, Enter, Locate, Evict, Admit, Bind;
    match r.pc {
      case Entering => EnterWelcomes(s, r.bearer, r.sid, cfg.hint(r.bearer));
      case Evicting(e) => EvictWelcomes(s, e);
      case Ensuring(who) => LocateWelcomes(s, PrincipalKey(who), r.bearer);
      case Founding(e) =>
        AdmitWelcomes(s, e, r.bearer);
        BindWelcomes(Admit(s, e, r.bearer), r.sid, e);
      case Admitting(e, _) =>
        AdmitWelcomes(s, e, r.bearer);
        BindWelcomes(Admit(s, e, r.bearer), r.sid, e);
      case Answering(e, _) => BindWelcomes(s, minted, e);
      case _ => QuietStepWelcomes(cfg, s, t, r, fate, minted);
    }
  }

  lemma StepWelcomes(cfg: Config, sys: Sys, ev: Event)
    requires SysInv(cfg, sys) && StructInv(sys) && Welcomed(sys)
    ensures Welcomed(Step(cfg, sys, ev))
  {
    hide Advance, RequestInv, EntryInv, Placed, Sturdy, Truthful;
    match ev {
      case Run(t, fate, minted) =>
        if t in sys.requests {
          SturdyIsClosed(sys.pool);
          AdvanceWelcomes(cfg, sys.pool, t, sys.requests[t], fate, minted);
          var sys' := Step(cfg, sys, ev);
          forall u | u in sys'.requests && u != t
            ensures WelcomeAt(sys'.pool, sys'.requests[u].pc)
          {
            WelcomeStays(sys.pool, sys'.pool, sys.requests[u].pc);
          }
        }
      case Arrive(_, _, _) =>
      case Die(_) => ClosureWelcomes(sys, Step(cfg, sys, ev).pool);
      case Close => ClosureWelcomes(sys, CloseAll(sys.pool));
    }
  }

  lemma ClosureWelcomes(sys: Sys, s': State)
    requires Welcomed(sys) && Closed(s') && |s'.info| == |sys.pool.info|
    requires s'.sessions == sys.pool.sessions || s'.sessions == map[]
    requires forall e | 0 <= e < |s'.info| :: s'.info[e] == sys.pool.info[e] || s'.info[e] == sys.pool.info[e].Shut()
    ensures Welcomed(sys.(pool := s'))
  {
    forall t | t in sys.requests
      ensures WelcomeAt(s', sys.requests[t].pc)
    {
      WelcomeStays(sys.pool, s', sys.requests[t].pc);
    }
  }

  lemma {:induction false} ExecWelcomes(cfg: Config, sys: Sys, events: seq<Event>)
    requires Sound(cfg) && Unconfused(cfg) && SysInv(cfg, sys) && StructInv(sys) && Welcomed(sys)
    ensures SysInv(cfg, Exec(cfg, sys, events)) && Welcomed(Exec(cfg, sys, events))
    decreases |events|
  {
    hide SysInv, Sturdy, Placed, Welcomed, Step, Unconfused;
    if events != [] {
      SturdyIsClosed(sys.pool);
      StepKeepsInv(cfg, sys, events[0]);
      StepKeepsStructure(cfg, sys, events[0]);
      StepWelcomes(cfg, sys, events[0]);
      ExecWelcomes(cfg, Step(cfg, sys, events[0]), events[1..]);
    }
  }

  /** The one bearer of a principal is the one in its entry's tail. */
  lemma OneInTail(cfg: Config, i: EntryState, proofs: Evidence, b: string)
    requires F.OneBearerEach(cfg) && Truthful(cfg, proofs) && Trusted(i, proofs) && i.admitted != []
    ensures i.build.Ready? && (cfg.owner(b) == Some(i.build.who) ==> b in i.admitted)
  {
    assert i.admitted[0] in i.admitted;
    assert cfg.owner(i.admitted[0]) == Some(i.build.who);
  }

  /** Where every principal has one bearer, a bearer turned away from a session is another's. */
  lemma LonelyMismatch(cfg: Config, sys: Sys, t: nat, e: nat)
    requires SysInv(cfg, sys) && Welcomed(sys) && F.OneBearerEach(cfg) && IsMismatched(cfg, sys, t, e)
    ensures sys.pool.info[e].build.Ready? && cfg.owner(sys.requests[t].bearer) != Some(sys.pool.info[e].build.who)
  {
    var s, r := sys.pool, sys.requests[t];
    assert RequestInv(cfg, s, sys.proofs, t, r) && EntryInv(cfg, s.info[e], sys.proofs) && WelcomeAt(s, r.pc);
    if r.pc.Entering? {
      OneInTail(cfg, s.info[e], sys.proofs, r.bearer);
    }
  }

  // ---- a principal with two bearers ----

  /** The pool after c was diverted to its principal's key and b's build on their hint then ended. */
  function Apart(h: string, b: string, c: string, p: Principal, tail: seq<string>, build: Build): State {
    State(map[h := 0, PrincipalKey(p) := 1], map[c := 1], map[],
          [EntryState([h], b, tail, build), EntryState([PrincipalKey(p)], c, [c], Ready(p, true))])
  }

  /** With b admitted too, and its session captured. */
  function Parted(h: string, b: string, c: string, p: Principal): State {
    State(map[h := 0, PrincipalKey(p) := 1], map[c := 1, b := 0], map["s" := 0],
          [EntryState([h], b, [b], Ready(p, true)), EntryState([PrincipalKey(p)], c, [c], Ready(p, true))])
  }

  lemma ApartIs(cfg: Config, h: string, b: string, c: string, p: Principal)
    requires Regular(cfg) && b != c && cfg.owner(b) == Some(p)
    ensures var s := Landed(h, b, c, p);
            && Closed(s) && |s.info| == 2 && s.info[1].build.Ready?
            && Adopt(Bind(Admit(s, 1, c), "", 1), 1, c) == Apart(h, b, c, p, [], Pending)
    ensures var s := Apart(h, b, c, p, [], Pending);
            && Closed(s) && |s.info| == 2 && s.info[0].build.Pending? && s.info[0].latest == b
            && S.Connect(cfg, s, 0, Fine) == Apart(h, b, c, p, [], Ready(p, true))
  {
    var s := Landed(h, b, c, p);
    AdmitEffect(s, 1, c);
    assert [] + [c] == [c];
  }

  lemma PartedIs(cfg: Config, h: string, b: string, c: string, p: Principal)
    requires b != c && cfg.owner(c) == Some(p)
    ensures var s := Apart(h, b, c, p, [], Ready(p, true));
            && Closed(s) && |s.info| == 2 && s.info[0].build.Ready?
            && Closed(Admit(s, 0, b)) && |Admit(s, 0, b).info| == 2
            && Bind(Admit(s, 0, b), "s", 0) == Parted(h, b, c, p)
    ensures O.Torn(cfg, Parted(h, b, c, p), "s", c, p)
  {
    var s := Apart(h, b, c, p, [], Ready(p, true));
    AdmitEffect(s, 0, b);
    assert [] + [b] == [b];
  }

  /** c meets b's entry while it builds, is diverted, admitted and filed at its principal's key. */
  lemma SecondIsFiled(cfg: Config, b: string, c: string, p: Principal) returns (events: seq<Event>, sys: Sys)
    requires Regular(cfg) && cfg.owner(b) == cfg.owner(c) == Some(p) && b != c && cfg.hint(b) == cfg.hint(c)
    ensures Exec(cfg, INIT, events) == sys && sys.pool == Apart(cfg.hint(b), b, c, p, [], Pending)
    ensures 0 in sys.requests && sys.requests[0] == Request(b, "", Building(0, None))
  {
    hide Solo, Landed, Apart, Admit, Bind, Adopt, Enter, Locate;
    var h := cfg.hint(b);
    ApartIs(cfg, h, b, c, p);
    events, sys := FirstLands(cfg, b, c, p);
    var s := sys.pool;
    Resumes(cfg, sys, 1);
    var more, sys' := Continue(cfg, sys, 1, [], sys, s, Building(1, Some(p)), Fine, s, Admitting(1, false));
    more, sys' := SoloAdmit(cfg, sys, 1, more, sys', s, 1, false);
    Joins(cfg, events, sys, 1, more, sys', Apart(h, b, c, p, [], Pending), Served(1));
    events, sys := events + more, sys';
  }

  /** Then b's own build ends well, b is admitted, and its session is captured. */
  lemma FirstIsServed(cfg: Config, start: Sys, h: string, b: string, c: string, p: Principal)
    returns (more: seq<Event>, sys: Sys)
    requires Regular(cfg) && cfg.owner(b) == cfg.owner(c) == Some(p) && b != c
    requires 0 in start.requests && start.requests[0] == Request(b, "", Building(0, None))
    requires Solo(cfg, start, 0, [], start, Apart(h, b, c, p, [], Pending), Building(0, None))
    ensures exists server :: Solo(cfg, start, 0, more, sys, Parted(h, b, c, p), Finished(Some(0), server))
  {
    hide Solo, Apart, Parted, Landed, Admit, S.Connect, Enter, Locate, O.Torn;
    ApartIs(cfg, h, b, c, p);
    PartedIs(cfg, h, b, c, p);
    var s := Apart(h, b, c, p, [], Ready(p, true));
    more, sys := SoloBuild(cfg, start, 0, [], start, Apart(h, b, c, p, [], Pending), 0, None, Fine);
    more, sys := Continue(cfg, start, 0, more, sys, s, Building(0, None), Fine, s, Founding(0));
    var s1 := Admit(s, 0, b);
    more, sys := Continue(cfg, start, 0, more, sys, s, Founding(0), Fine, s1, Served(0));
    var server := ServerFor(s1, b);
    more, sys := Continue(cfg, start, 0, more, sys, s1, Served(0), Fine, s1, Answering(0, server));
    more, sys := Captures(cfg, start, 0, more, sys, s1, 0, server, "s");
  }

  lemma TornOnOneHint(cfg: Config, b: string, c: string, p: Principal) returns (events: seq<Event>)
    requires Regular(cfg) && cfg.owner(b) == cfg.owner(c) == Some(p) && b != c && cfg.hint(b) == cfg.hint(c)
    ensures O.Torn(cfg, Exec(cfg, INIT, events).pool, "s", c, p)
  {
    hide Solo, Apart, Parted, O.Torn;
    var sys: Sys;
    events, sys := SecondIsFiled(cfg, b, c, p);
    Resumes(cfg, sys, 0);
    PartedIs(cfg, cfg.hint(b), b, c, p);
    var more, sys' := FirstIsServed(cfg, sys, cfg.hint(b), b, c, p);
    var server :| Solo(cfg, sys, 0, more, sys', Parted(cfg.hint(b), b, c, p), Finished(Some(0), server));
    Joins(cfg, events, sys, 0, more, sys', Parted(cfg.hint(b), b, c, p), Finished(Some(0), server));
    events := events + more;
  }

  lemma TornInFlight(cfg: Config, b: string, c: string) returns (events: seq<Event>)
    requires Sound(cfg) && Unconfused(cfg) && cfg.owner(b).Some? && cfg.owner(c) == cfg.owner(b) && b != c
    ensures O.Torn(cfg, Exec(cfg, INIT, events).pool, "s", c, cfg.owner(b).value)
  {
    hide O.Torn, Exec, R.RunOps, Unconfused;
    if cfg.hint(b) == cfg.hint(c) {
      events := TornOnOneHint(cfg, b, c, cfg.owner(b).value);
    } else {
      var ops := O.TornByHints(cfg, b, c);
      events := RunIsASchedule(cfg, ops);
    }
  }

  /** From there c is turned away from its own principal's session. */
  lemma TornIsMismatched(cfg: Config, events: seq<Event>, c: string, p: Principal)
    requires Regular(cfg) && O.Torn(cfg, Exec(cfg, INIT, events).pool, "s", c, p)
    ensures !MismatchMeansAnother(cfg)
  {
    hide Exec, Advance;
    var sys := Exec(cfg, INIT, events);
    var t := Above(sys.requests.Keys);
    ExecSnoc(cfg, INIT, events, Arrive(t, c, "s"));
    var sys' := Exec(cfg, INIT, events + [Arrive(t, c, "s")]);
    assert sys'.pool == sys.pool && sys'.requests[t] == Request(c, "s", Entering);
    assert IsMismatched(cfg, sys', t, sys.pool.sessions["s"]);
  }

  /** A mismatch means another principal in every interleaving if and only if no principal has two bearers. */
  lemma MismatchMeansAnotherIffOneBearerEach(cfg: Config)
    requires Sound(cfg) && Unconfused(cfg)
    ensures MismatchMeansAnother(cfg) <==> F.OneBearerEach(cfg)
  {
    if F.OneBearerEach(cfg) {
      forall events: seq<Event>, t: nat, e: nat | IsMismatched(cfg, Exec(cfg, INIT, events), t, e)
        ensures var sys := Exec(cfg, INIT, events);
                sys.pool.info[e].build.Ready? && cfg.owner(sys.requests[t].bearer) != Some(sys.pool.info[e].build.who)
      {
        InitInv(cfg);
        InitIsSturdy();
        ExecWelcomes(cfg, INIT, events);
        LonelyMismatch(cfg, Exec(cfg, INIT, events), t, e);
      }
    } else {
      var b, c :| cfg.owner(b).Some? && cfg.owner(c) == cfg.owner(b) && b != c;
      var events := TornInFlight(cfg, b, c);
      TornIsMismatched(cfg, events, c, cfg.owner(b).value);
    }
  }

  // ---- which bearer is presented ----

  /** Every interleaving leaves every entry that has admitted anyone presenting the last bearer it admitted. */
  ghost predicate AlwaysFreshest(cfg: Config) {
    forall events: seq<Event>, e: nat ::
      var s := Exec(cfg, INIT, events).pool;
      e < |s.info| && s.info[e].admitted != [] ==> F.PresentsFreshest(s, e)
  }

  lemma LonelyIsFreshest(cfg: Config, events: seq<Event>, e: nat)
    requires Sound(cfg) && Unconfused(cfg) && F.OneBearerEach(cfg)
    requires var s := Exec(cfg, INIT, events).pool; e < |s.info| && s.info[e].admitted != []
    ensures F.PresentsFreshest(Exec(cfg, INIT, events).pool, e)
  {
    TrustRule(cfg, events);
    var sys := Exec(cfg, INIT, events);
    var i := sys.pool.info[e];
    assert Trusted(i, sys.proofs) && i.admitted[|i.admitted| - 1] in i.admitted;
    assert cfg.owner(i.admitted[|i.admitted| - 1]) == cfg.owner(i.latest) == Some(i.build.who);
  }

  /** What a live entry presents between calls is in its tail. */
  lemma HasTail(cfg: Config, s: State, e: nat)
    requires S.SeqInv(cfg, s) && e < |s.info| && AliveAt(s, e)
    ensures s.info[e].admitted != []
  {
    assert S.Settled(s, e);
  }

  /** The sequential condition is exact with requests in flight too. */
  lemma FreshestInFlightIffOneBearerEach(cfg: Config)
    requires Sound(cfg) && Unconfused(cfg)
    ensures AlwaysFreshest(cfg) <==> F.OneBearerEach(cfg)
  {
    if F.OneBearerEach(cfg) {
      forall events: seq<Event>, e: nat
        | e < |Exec(cfg, INIT, events).pool.info| && Exec(cfg, INIT, events).pool.info[e].admitted != []
        ensures F.PresentsFreshest(Exec(cfg, INIT, events).pool, e)
      {
        LonelyIsFreshest(cfg, events, e);
      }
    } else {
      F.FreshestIffOneBearerEach(cfg);
      var ops: seq<R.Op>, e: nat :| var s := R.RunOps(cfg, EMPTY, ops);
                                    e < |s.info| && AliveAt(s, e) && !F.PresentsFreshest(s, e);
      var events := RunIsASchedule(cfg, ops);
      S.EmptySeqInv(cfg);
      R.RunKeepsSeqInv(cfg, EMPTY, ops);
      HasTail(cfg, R.RunOps(cfg, EMPTY, ops), e);
      assert !F.PresentsFreshest(Exec(cfg, INIT, events).pool, e);
    }
  }
}
