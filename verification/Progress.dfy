/**
 * That requests end, and how: nobody waits for good, a request that waits for another's build fares
 * as that build does, and where no dial fails a request with a bearer the realm knows is served.
 */
module Progress {
  import opened Wrappers
  import opened Grants
  import opened Routing
  import opened PoolSpec
  import opened PoolInvariants
  import opened Interleaving
  import opened Isolation
  import opened Structure

  // ---- turns ----

  /** How many turns a request has left at most. */
  function Rank(s: State, pc: Pc): nat {
    match pc
    case Entering => 13
    case Probing(_, _) => 12
    case Comparing(_, _, _) => 11
    case Ensuring(_) => 10
    case Building(e, _) =>
      if e < |s.info| && s.info[e].build.Running? then 8
      else if e < |s.info| && !s.info[e].build.Pending? then 6
      else 9
    case Connecting(_, _) => 8
    case Dialed(_, _, _) => 7
    case Evicting(_) => 5
    case Founding(_) => 5
    case Admitting(_, _) => 5
    case Adopting(_) => 4
    case Served(_) => 3
    case Answering(_, _) => 2
    case Refused => 2
    case Finished(_, _) => 0
  }

  /** Request u waits for a build that is under way. */
  predicate Waits(sys: Sys, u: nat) {
    && u in sys.requests && sys.requests[u].pc.Building?
    && sys.requests[u].pc.e < |sys.pool.info| && sys.pool.info[sys.requests[u].pc.e].build.Running?
  }

  /** In this event request u is scheduled and does not wait. */
  predicate IsTurn(sys: Sys, ev: Event, u: nat) {
    ev.Run? && ev.t == u && !Waits(sys, u)
  }

  /** How many turns request u has in a run. */
  ghost function Turns(cfg: Config, sys: Sys, events: seq<Event>, u: nat): nat
    decreases |events|
  {
    if events == [] then 0
    else (if IsTurn(sys, events[0], u) then 1 else 0) + Turns(cfg, Step(cfg, sys, events[0]), events[1..], u)
  }

  /** A turn brings a request closer to its end. */
  lemma TurnsLowerRank(cfg: Config, s: State, t: nat, r: Request, fate: Fate, minted: string)
    requires NamesPrincipals(cfg.owner) && Sturdy(s) && Placed(s, t, r)
    requires !(r.pc.Building? && s.info[r.pc.e].build.Running?)
    ensures Closed(s) && InRange(r.pc, |s.info|)
    ensures var (s', _, pc) := Advance(cfg, s, t, r, fate, minted);
            if r.pc.Finished? then pc == r.pc else Rank(s', pc) < Rank(s, r.pc)
  {
    hide Sturdy, Evict, Admit, Bind, Adopt, SetBuild, Proves, Crashes, ServerFor, Enter, Locate, NamesPrincipals;
    SturdyIsClosed(s);
    var s' := Advance(cfg, s, t, r, fate, minted).0;
    match r.pc {
      case Entering => EnterGoesDown(s, r.bearer, r.sid, cfg.hint(r.bearer));
      case Connecting(e, _) => SetBuilds(s, e, Failed);
      case Dialed(e, _, who) =>
        SetBuilds(s, e, Failed);
        SetBuilds(s, e, Ready(who, true));
      case _ =>
    }
  }

  lemma SetBuilds(s: State, e: nat, build: Build)
    requires e < |s.info|
    ensures |SetBuild(s, e, build).info| == |s.info| && SetBuild(s, e, build).info[e].build == build
  {
  }

  lemma EnterGoesDown(s: State, b: string, sid: string, hint: string)
    requires Closed(s)
    ensures var (s', g) := Enter(s, b, sid, hint); Rank(s', Next(g)) <= 12
  {
    hide EnterUnbound, EnterBound;
    if !BoundLive(s, sid) {
      if sid != "" && sid in s.sessions {
        EvictClosed(s, s.sessions[sid]);
      }
      UnboundGoesDown(if sid != "" && sid in s.sessions then Evict(s, s.sessions[sid]) else s, b, sid, hint);
    } else {
      BoundGoesDown(s, b, s.sessions[sid]);
    }
  }

  lemma BoundGoesDown(s: State, b: string, e: nat)
    requires e < |s.info|
    ensures Rank(s, Next(EnterBound(s, b, e))) <= 12
  {
  }

  lemma UnboundGoesDown(s: State, b: string, sid: string, hint: string)
    requires Closed(s)
    ensures var (s', g) := EnterUnbound(s, b, sid, hint); Rank(s', Next(g)) <= 12
  {
    hide Locate, Bind;
    if b in s.byBearer {
      EvictClosed(s, s.byBearer[b]);
    }
  }

  /** Others can only bring it closer too. */
  lemma AgingLowersRank(s: State, s': State, pc: Pc)
    requires |s.info| <= |s'.info| && forall e | 0 <= e < |s.info| :: Ages(s.info[e], s'.info[e])
    requires InRange(pc, |s.info|)
    ensures Rank(s', pc) <= Rank(s, pc)
  {
    if pc.Building? {
      assert Ages(s.info[pc.e], s'.info[pc.e]);
    }
  }

  lemma StepLowersRank(cfg: Config, sys: Sys, ev: Event, u: nat)
    requires NamesPrincipals(cfg.owner) && StructInv(sys) && Closed(sys.pool) && u in sys.requests
    ensures var sys' := Step(cfg, sys, ev);
            && u in sys'.requests
            && (sys.requests[u].pc.Finished? ==> sys'.requests[u].pc == sys.requests[u].pc)
            && Rank(sys'.pool, sys'.requests[u].pc) <= Rank(sys.pool, sys.requests[u].pc)
            && (IsTurn(sys, ev, u) && !sys.requests[u].pc.Finished? ==>
                  Rank(sys'.pool, sys'.requests[u].pc) < Rank(sys.pool, sys.requests[u].pc))
  {
    hide Sturdy, Rank, Advance, NamesPrincipals;
    StepKeepsStructure(cfg, sys, ev);
    var r := sys.requests[u];
    assert Placed(sys.pool, u, r);
    AgingLowersRank(sys.pool, Step(cfg, sys, ev).pool, r.pc);
    if ev.Run? && ev.t == u {
      if Waits(sys, u) {
        WaitingTakesNoStep(cfg, sys.pool, u, r, ev.fate, ev.minted);
      } else {
        TurnsLowerRank(cfg, sys.pool, u, r, ev.fate, ev.minted);
      }
    }
  }

  /** A request that waits stays where it is and changes nothing. */
  lemma WaitingTakesNoStep(cfg: Config, s: State, u: nat, r: Request, fate: Fate, minted: string)
    requires Closed(s) && r.pc.Building? && r.pc.e < |s.info| && s.info[r.pc.e].build.Running?
    ensures Advance(cfg, s, u, r, fate, minted) == (s, None, r.pc)
  {
  }

  lemma {:induction false} TurnsCount(cfg: Config, sys: Sys, events: seq<Event>, u: nat)
    requires NamesPrincipals(cfg.owner) && StructInv(sys) && u in sys.requests
    ensures var sys' := Exec(cfg, sys, events);
            && u in sys'.requests
            && (sys.requests[u].pc.Finished? ==> sys'.requests[u].pc == sys.requests[u].pc)
            && (sys'.requests[u].pc.Finished? ||
                Rank(sys'.pool, sys'.requests[u].pc) + Turns(cfg, sys, events, u) <= Rank(sys.pool, sys.requests[u].pc))
    decreases |events|
  {
    hide Sturdy, Placed, Rank, Step, IsTurn, NamesPrincipals;
    SturdyIsClosed(sys.pool);
    if events != [] {
      StepKeepsStructure(cfg, sys, events[0]);
      StepLowersRank(cfg, sys, events[0], u);
      TurnsCount(cfg, Step(cfg, sys, events[0]), events[1..], u);
    }
  }

  /** In any realm, a request that has had thirteen turns has ended: besides waiting it never does more than that. */
  lemma ThirteenTurnsSuffice(cfg: Config, before: seq<Event>, events: seq<Event>, u: nat)
    requires NamesPrincipals(cfg.owner)
    requires var sys := Exec(cfg, INIT, before); u in sys.requests && Turns(cfg, sys, events, u) >= 13
    ensures var sys' := Exec(cfg, Exec(cfg, INIT, before), events);
            u in sys'.requests && sys'.requests[u].pc.Finished?
  {
    hide Step;
    InitIsSturdy();
    ExecKeepsStructure(cfg, INIT, before);
    TurnsCount(cfg, Exec(cfg, INIT, before), events, u);
  }

  // ---- whoever is waited for is at work ----

  /** A build that is under way has its one request inside it. */
  ghost predicate RunnersWork(sys: Sys) {
    forall e | 0 <= e < |sys.pool.info| && sys.pool.info[e].build.Running? ::
      var t := sys.pool.info[e].build.runner;
      t in sys.requests && RunsBuild(sys.requests[t], e)
  }

  /** What a step of t does to who runs which build. */
  lemma AdvanceRuns(cfg: Config, s: State, t: nat, r: Request, fate: Fate, minted: string)
    requires NamesPrincipals(cfg.owner) && Sturdy(s) && Placed(s, t, r) && Closed(s) && InRange(r.pc, |s.info|)
    requires forall e | 0 <= e < |s.info| && s.info[e].build == Running(t) :: RunsBuild(r, e)
    ensures var (s', _, pc) := Advance(cfg, s, t, r, fate, minted);
            forall e | 0 <= e < |s'.info| && s'.info[e].build.Running? ::
              if s'.info[e].build.runner == t then RunsBuild(r.(pc := pc), e)
              else e < |s.info| && s'.info[e].build == s.info[e].build
  {
    hide Sturdy, Steady, Advance;
    var (s', _, pc) := Advance(cfg, s, t, r, fate, minted);
    forall e: nat | e < |s'.info| && s'.info[e].build.Running?
      ensures if s'.info[e].build.runner == t then RunsBuild(r.(pc := pc), e)
              else e < |s.info| && s'.info[e].build == s.info[e].build
    {
      RunsOrWaits(cfg, s, t, r, fate, minted, e);
    }
  }

  /** Only a step at its build makes a request its runner, and only steps inside it end that. */
  lemma RunsOrWaits(cfg: Config, s: State, t: nat, r: Request, fate: Fate, minted: string, e: nat)
    requires Closed(s) && InRange(r.pc, |s.info|) && Placed(s, t, r)
    requires e < |s.info| && s.info[e].build == Running(t) ==> RunsBuild(r, e)
    requires e < |Advance(cfg, s, t, r, fate, minted).0.info|
    ensures var (s', _, pc) := Advance(cfg, s, t, r, fate, minted);
            s'.info[e].build.Running? ==>
              if s'.info[e].build.runner == t then RunsBuild(r.(pc := pc), e)
              else e < |s.info| && s'.info[e].build == s.info[e].build
  {
    hide Enter, Locate, Evict, Admit, Bind, ServerFor, Proves, Crashes, Closed, IndexInv, Unname;
    match r.pc {
      case Entering => EnterRunsNone(s, r.bearer, r.sid, cfg.hint(r.bearer));
      case Ensuring(who) => LocateRunsNone(s, PrincipalKey(who), r.bearer);
      case Evicting(f) => EvictLeavesInfo(s, f, if e < |s.info| then e else 0);
      case Founding(f) => AdmitRunsNone(s, f, r.bearer); BindRunsNone(Admit(s, f, r.bearer), r.sid, f);
      case Admitting(f, _) => AdmitRunsNone(s, f, r.bearer); BindRunsNone(Admit(s, f, r.bearer), r.sid, f);
      case Answering(f, _) => BindRunsNone(s, minted, f);
      case _ =>
    }
  }

  /** No build starts or stops running. */
  ghost predicate RunsNone(s: State, s': State) {
    && |s.info| <= |s'.info|
    && (forall e | 0 <= e < |s.info| && s'.info[e].build.Running? :: s'.info[e].build == s.info[e].build)
    && (forall e | |s.info| <= e < |s'.info| :: !s'.info[e].build.Running?)
  }

  lemma AdmitRunsNone(s: State, e: nat, b: string)
    requires e < |s.info|
    ensures RunsNone(s, Admit(s, e, b)) && |Admit(s, e, b).info| == |s.info|
  {
    hide Trim;
  }

  lemma BindRunsNone(s: State, sid: string, e: nat)
    ensures Bind(s, sid, e).info == s.info
  {
  }

  lemma LocateRunsNone(s: State, key: string, b: string)
    requires Closed(s)
    ensures RunsNone(s, Locate(s, key, b).0)
  {
  }

  lemma EnterRunsNone(s: State, b: string, sid: string, hint: string)
    requires Closed(s)
    ensures RunsNone(s, Enter(s, b, sid, hint).0)
  {
    hide Locate, Evict, RunsNone;
    var s1 := if sid != "" && sid in s.sessions && !BoundLive(s, sid) then Evict(s, s.sessions[sid]) else s;
    if s1 != s {
      EvictRunsNone(s, s.sessions[sid]);
    }
    StillRunsNone(s);
    UnboundRunsNone(s1, b, sid, hint);
    RunsNoneTransitive(s, s1, EnterUnbound(s1, b, sid, hint).0);
  }

  lemma UnboundRunsNone(s: State, b: string, sid: string, hint: string)
    requires Closed(s)
    ensures RunsNone(s, EnterUnbound(s, b, sid, hint).0)
  {
    hide Locate, Evict, RunsNone;
    StillRunsNone(s);
    if b in s.byBearer && AliveAt(s, s.byBearer[b]) {
      BindRunsNone(s, sid, s.byBearer[b]);
      SameInfoRunsNone(s, Bind(s, sid, s.byBearer[b]));
    } else if b in s.byBearer {
      var s1 := Evict(s, s.byBearer[b]);
      EvictRunsNone(s, s.byBearer[b]);
      LocateRunsNone(s1, hint, b);
      RunsNoneTransitive(s, s1, Locate(s1, hint, b).0);
    } else {
      LocateRunsNone(s, hint, b);
    }
  }

  lemma StillRunsNone(s: State)
    ensures RunsNone(s, s)
  {
  }

  lemma SameInfoRunsNone(s: State, s': State)
    requires s'.info == s.info
    ensures RunsNone(s, s')
  {
  }

  lemma EvictRunsNone(s: State, e: nat)
    requires Closed(s) && e < |s.info|
    ensures Closed(Evict(s, e)) && RunsNone(s, Evict(s, e))
  {
  }

  lemma RunsNoneTransitive(s: State, s1: State, s2: State)
    requires RunsNone(s, s1) && RunsNone(s1, s2)
    ensures RunsNone(s, s2)
  {
  }

  lemma StepKeepsRunners(cfg: Config, sys: Sys, ev: Event)
    requires NamesPrincipals(cfg.owner) && StructInv(sys) && Closed(sys.pool) && RunnersWork(sys)
    ensures RunnersWork(Step(cfg, sys, ev))
  {
    hide Sturdy, Advance, NamesPrincipals;
    StepKeepsStructure(cfg, sys, ev);
    if ev.Run? && ev.t in sys.requests {
      assert Placed(sys.pool, ev.t, sys.requests[ev.t]);
      AdvanceRuns(cfg, sys.pool, ev.t, sys.requests[ev.t], ev.fate, ev.minted);
    }
  }

  lemma {:induction false} ExecKeepsRunners(cfg: Config, sys: Sys, events: seq<Event>)
    requires NamesPrincipals(cfg.owner) && StructInv(sys) && RunnersWork(sys)
    ensures StructInv(Exec(cfg, sys, events)) && RunnersWork(Exec(cfg, sys, events))
    decreases |events|
  {
    hide Sturdy, Placed, RunnersWork, Step, NamesPrincipals;
    SturdyIsClosed(sys.pool);
    if events != [] {
      StepKeepsStructure(cfg, sys, events[0]);
      StepKeepsRunners(cfg, sys, events[0]);
      ExecKeepsRunners(cfg, Step(cfg, sys, events[0]), events[1..]);
    }
  }

  /**
   * In any realm nobody waits for somebody who waits: the awaited request has two turns left inside the
   * build at most.
   */
  lemma NoDeadlock(cfg: Config, events: seq<Event>, u: nat)
    requires NamesPrincipals(cfg.owner)
    requires Waits(Exec(cfg, INIT, events), u)
    ensures var sys := Exec(cfg, INIT, events);
            var t := sys.pool.info[sys.requests[u].pc.e].build.runner;
            t != u && t in sys.requests && RunsBuild(sys.requests[t], sys.requests[u].pc.e) && !Waits(sys, t)
  {
    InitIsSturdy();
    ExecKeepsRunners(cfg, INIT, events);
  }

  // ---- a waiting request fares as the build does ----

  /** This event is no step of request t. */
  predicate Spares(ev: Event, t: nat) {
    ev.Run? ==> ev.t != t
  }

  /**
   * While the request inside the build takes no step, the others stay where they wait, however often they
   * are scheduled.
   */
  lemma {:induction false} WaitsForBuild(cfg: Config, sys: Sys, events: seq<Event>, t: nat, u: nat)
    requires NamesPrincipals(cfg.owner) && StructInv(sys) && Waits(sys, u)
    requires sys.pool.info[sys.requests[u].pc.e].build == Running(t)
    requires forall ev | ev in events :: Spares(ev, t)
    ensures var sys' := Exec(cfg, sys, events);
            && u in sys'.requests && sys'.requests[u] == sys.requests[u] && Waits(sys', u)
            && sys'.pool.info[sys.requests[u].pc.e].build == Running(t)
    decreases |events|
  {
    hide Sturdy, Placed, NamesPrincipals, Step;
    SturdyIsClosed(sys.pool);
    if events != [] {
      StepKeepsStructure(cfg, sys, events[0]);
      StepSparesWaiting(cfg, sys, events[0], t, u);
      WaitsForBuild(cfg, Step(cfg, sys, events[0]), events[1..], t, u);
    }
  }

  lemma StepSparesWaiting(cfg: Config, sys: Sys, ev: Event, t: nat, u: nat)
    requires NamesPrincipals(cfg.owner) && StructInv(sys) && Closed(sys.pool) && Waits(sys, u) && Spares(ev, t)
    requires sys.pool.info[sys.requests[u].pc.e].build == Running(t)
    ensures var sys' := Step(cfg, sys, ev);
            && u in sys'.requests && sys'.requests[u] == sys.requests[u]
            && sys.requests[u].pc.e < |sys'.pool.info|
            && sys'.pool.info[sys.requests[u].pc.e].build == Running(t)
  {
    hide Sturdy, Placed, Advance, NamesPrincipals;
    if ev.Run? && ev.t in sys.requests {
      RunKeepsStructure(cfg, sys, ev.t, ev.fate, ev.minted);
      if ev.t == u {
        WaitingTakesNoStep(cfg, sys.pool, u, sys.requests[u], ev.fate, ev.minted);
      }
    }
  }

  /** A request on its way to being served by e. */
  predicate IsBoundFor(pc: Pc, e: nat) {
    match pc
    case Building(f, _) => f == e
    case Founding(f) => f == e
    case Admitting(f, bound) => f == e && !bound
    case Adopting(f) => f == e
    case Served(f) => f == e
    case Answering(f, _) => f == e
    case Finished(served, _) => served == Some(e)
    case _ => false
  }

  lemma {:induction false} BuiltServes(cfg: Config, sys: Sys, events: seq<Event>, u: nat, e: nat)
    requires NamesPrincipals(cfg.owner) && StructInv(sys) && e < |sys.pool.info| && sys.pool.info[e].Built()
    requires u in sys.requests && IsBoundFor(sys.requests[u].pc, e)
    ensures u in Exec(cfg, sys, events).requests && IsBoundFor(Exec(cfg, sys, events).requests[u].pc, e)
    decreases |events|
  {
    hide Sturdy, Placed, NamesPrincipals, Step;
    SturdyIsClosed(sys.pool);
    if events != [] {
      StepKeepsStructure(cfg, sys, events[0]);
      StepServes(cfg, sys, events[0], u, e);
      BuiltServes(cfg, Step(cfg, sys, events[0]), events[1..], u, e);
    }
  }

  lemma StepServes(cfg: Config, sys: Sys, ev: Event, u: nat, e: nat)
    requires NamesPrincipals(cfg.owner) && StructInv(sys) && Closed(sys.pool)
    requires e < |sys.pool.info| && sys.pool.info[e].Built()
    requires u in sys.requests && IsBoundFor(sys.requests[u].pc, e)
    ensures var sys' := Step(cfg, sys, ev);
            && u in sys'.requests && IsBoundFor(sys'.requests[u].pc, e)
            && e < |sys'.pool.info| && sys'.pool.info[e].Built()
  {
    hide Sturdy, Placed, Admit, Bind, Adopt, ServerFor, NamesPrincipals;
    StepKeepsStructure(cfg, sys, ev);
    assert Ages(sys.pool.info[e], Step(cfg, sys, ev).pool.info[e]);
  }

  /** A request that is about to be refused for e's failed build, or has been, and then e is gone. */
  ghost predicate IsTurnedAway(s: State, pc: Pc, e: nat) {
    match pc
    case Building(f, _) => f == e
    case Evicting(f) => f == e
    case Refused => Unreferenced(s, e)
    case Finished(served, _) => served == None && Unreferenced(s, e)
    case _ => false
  }

  lemma {:induction false} FailedTurnsAway(cfg: Config, sys: Sys, events: seq<Event>, u: nat, e: nat)
    requires NamesPrincipals(cfg.owner) && StructInv(sys) && e < |sys.pool.info| && sys.pool.info[e].build.Failed?
    requires u in sys.requests && IsTurnedAway(sys.pool, sys.requests[u].pc, e)
    ensures u in Exec(cfg, sys, events).requests
    ensures IsTurnedAway(Exec(cfg, sys, events).pool, Exec(cfg, sys, events).requests[u].pc, e)
    decreases |events|
  {
    hide Sturdy, Placed, NamesPrincipals, Step, IsTurnedAway;
    SturdyIsClosed(sys.pool);
    if events != [] {
      StepKeepsStructure(cfg, sys, events[0]);
      StepTurnsAway(cfg, sys, events[0], u, e);
      FailedTurnsAway(cfg, Step(cfg, sys, events[0]), events[1..], u, e);
    }
  }

  lemma StepTurnsAway(cfg: Config, sys: Sys, ev: Event, u: nat, e: nat)
    requires NamesPrincipals(cfg.owner) && StructInv(sys) && Closed(sys.pool)
    requires e < |sys.pool.info| && sys.pool.info[e].build.Failed?
    requires u in sys.requests && IsTurnedAway(sys.pool, sys.requests[u].pc, e)
    ensures var sys' := Step(cfg, sys, ev);
            && u in sys'.requests && IsTurnedAway(sys'.pool, sys'.requests[u].pc, e)
            && e < |sys'.pool.info| && sys'.pool.info[e].build.Failed?
  {
    hide Sturdy, Placed, Unreferenced, Evict, ServerFor, NamesPrincipals;
    StepKeepsStructure(cfg, sys, ev);
    assert Ages(sys.pool.info[e], Step(cfg, sys, ev).pool.info[e]);
    if Unreferenced(sys.pool, e) {
      GoneStaysGone(cfg, sys, ev, e);
    }
    SturdyIsClosed(sys.pool);
    EvictionIsExact(sys.pool, e);
  }

  // ---- an evicted failure never comes back ----

  lemma EvictStaysGone(s: State, f: nat, e: nat)
    requires f < |s.info| && Unreferenced(s, e)
    ensures Unreferenced(Evict(s, f), e) && |Evict(s, f).info| == |s.info|
  {
  }

  lemma LocateStaysGone(s: State, key: string, b: string, e: nat)
    requires Closed(s) && e < |s.info| && Unreferenced(s, e)
    ensures Unreferenced(Locate(s, key, b).0, e)
  {
  }

  lemma BindStaysGone(s: State, sid: string, f: nat, e: nat)
    requires f != e && Unreferenced(s, e)
    ensures Unreferenced(Bind(s, sid, f), e)
  {
  }

  lemma AdmitStaysGone(s: State, f: nat, b: string, e: nat)
    requires f < |s.info| && |s.info[f].admitted| <= KEEP && f != e && Unreferenced(s, e)
    ensures Unreferenced(Admit(s, f, b), e)
  {
    if b !in s.info[f].admitted {
      AdmitEffect(s, f, b);
    }
  }

  lemma EnterUnboundStaysGone(s: State, b: string, sid: string, hint: string, e: nat)
    requires Closed(s) && e < |s.info| && Unreferenced(s, e)
    ensures Unreferenced(EnterUnbound(s, b, sid, hint).0, e)
  {
    hide Locate, Evict, Bind, Unreferenced;
    if b in s.byBearer {
      var f := s.byBearer[b];
      assert f != e by { NotFound(s, b, e); }
      BindStaysGone(s, sid, f, e);
      EvictStaysGone(s, f, e);
      EvictClosed(s, f);
      LocateStaysGone(Evict(s, f), hint, b, e);
    }
    LocateStaysGone(s, hint, b, e);
  }

  lemma NotFound(s: State, b: string, e: nat)
    requires Unreferenced(s, e) && b in s.byBearer
    ensures s.byBearer[b] != e
  {
  }

  lemma EnterStaysGone(s: State, b: string, sid: string, hint: string, e: nat)
    requires Closed(s) && e < |s.info| && Unreferenced(s, e)
    ensures Unreferenced(Enter(s, b, sid, hint).0, e)
  {
    hide EnterUnbound, Evict, Unreferenced;
    EnterUnboundStaysGone(s, b, sid, hint, e);
    if !BoundLive(s, sid) && sid != "" && sid in s.sessions {
      EvictStaysGone(s, s.sessions[sid], e);
      EvictClosed(s, s.sessions[sid]);
      EnterUnboundStaysGone(Evict(s, s.sessions[sid]), b, sid, hint, e);
    }
  }

  lemma RunStaysGone(cfg: Config, sys: Sys, t: nat, fate: Fate, minted: string, e: nat)
    requires StructInv(sys) && Closed(sys.pool) && t in sys.requests
    requires e < |sys.pool.info| && sys.pool.info[e].build.Failed? && Unreferenced(sys.pool, e)
    ensures Unreferenced(Step(cfg, sys, Run(t, fate, minted)).pool, e)
  {
    hide Unreferenced, Enter, Locate, Evict, Admit, Bind, Adopt, SetBuild, Closed, IndexInv, Proves, Crashes, ServerFor;
    var s, r := sys.pool, sys.requests[t];
    assert Placed(s, t, r);
    match r.pc {
      case Entering => EnterStaysGone(s, r.bearer, r.sid, cfg.hint(r.bearer), e);
      case Ensuring(who) => LocateStaysGone(s, PrincipalKey(who), r.bearer, e);
      case Evicting(f) => EvictStaysGone(s, f, e);
      case Founding(f) =>
        AdmitStaysGone(s, f, r.bearer, e);
        BindStaysGone(Admit(s, f, r.bearer), r.sid, f, e);
      case Admitting(f, _) =>
        AdmitStaysGone(s, f, r.bearer, e);
        BindStaysGone(Admit(s, f, r.bearer), r.sid, f, e);
      case Answering(f, _) => BindStaysGone(s, minted, f, e);
      case _ =>
        NamesNobody(cfg, s, t, r, fate, minted);
        SameNamesStayGone(s, Advance(cfg, s, t, r, fate, minted).0, e);
    }
  }

  /** The other steps leave all names alone. */
  lemma NamesNobody(cfg: Config, s: State, t: nat, r: Request, fate: Fate, minted: string)
    requires Closed(s) && InRange(r.pc, |s.info|)
    requires !r.pc.Entering? && !r.pc.Ensuring? && !r.pc.Evicting?
    requires !r.pc.Founding? && !r.pc.Admitting? && !r.pc.Answering?
    ensures var s' := Advance(cfg, s, t, r, fate, minted).0;
            s'.entries == s.entries && s'.byBearer == s.byBearer && s'.sessions == s.sessions
  {
    hide Closed, Proves, Crashes, ServerFor;
  }

  lemma SameNamesStayGone(s: State, s': State, e: nat)
    requires Unreferenced(s, e) && s'.entries == s.entries && s'.byBearer == s.byBearer && s'.sessions == s.sessions
    ensures Unreferenced(s', e)
  {
  }

  lemma GoneStaysGone(cfg: Config, sys: Sys, ev: Event, e: nat)
    requires StructInv(sys) && Closed(sys.pool)
    requires e < |sys.pool.info| && sys.pool.info[e].build.Failed? && Unreferenced(sys.pool, e)
    ensures Unreferenced(Step(cfg, sys, ev).pool, e)
  {
    hide Sturdy, Placed, Advance;
    if ev.Run? && ev.t in sys.requests {
      RunStaysGone(cfg, sys, ev.t, ev.fate, ev.minted, e);
    }
  }

  /**
   * However the requests are scheduled: whoever stands at a build that has ended well, with an error
   * or in a panic, ends served by that entry if it left no error, and otherwise refused, with the
   * entry gone from every index. Six turns are enough.
   */
  lemma BuildDecides(cfg: Config, before: seq<Event>, events: seq<Event>, u: nat)
    requires NamesPrincipals(cfg.owner)
    requires var sys := Exec(cfg, INIT, before);
             && u in sys.requests && sys.requests[u].pc.Building? && sys.requests[u].pc.e < |sys.pool.info|
             && !sys.pool.info[sys.requests[u].pc.e].Unbuilt()
             && Turns(cfg, sys, events, u) >= 6
    ensures var sys := Exec(cfg, INIT, before);
            var sys' := Exec(cfg, sys, events);
            var e := sys.requests[u].pc.e;
            && u in sys'.requests && sys'.requests[u].pc.Finished?
            && sys'.requests[u].pc.served == (if sys.pool.info[e].build.Failed? then None else Some(e))
            && (sys.pool.info[e].build.Failed? ==> Unreferenced(sys'.pool, e))
  {
    hide Step, Sturdy, Placed, Turns;
    InitIsSturdy();
    ExecKeepsStructure(cfg, INIT, before);
    var sys := Exec(cfg, INIT, before);
    var e := sys.requests[u].pc.e;
    TurnsCount(cfg, sys, events, u);
    if sys.pool.info[e].build.Failed? {
      FailedTurnsAway(cfg, sys, events, u, e);
    } else {
      BuiltServes(cfg, sys, events, u, e);
    }
  }

  /** A request that takes no step stays where it is. */
  lemma {:induction false} StandsStill(cfg: Config, sys: Sys, events: seq<Event>, t: nat)
    requires t in sys.requests && forall ev | ev in events :: Spares(ev, t)
    ensures t in Exec(cfg, sys, events).requests && Exec(cfg, sys, events).requests[t] == sys.requests[t]
    decreases |events|
  {
    hide Advance;
    if events != [] {
      assert Spares(events[0], t);
      StandsStill(cfg, Step(cfg, sys, events[0]), events[1..], t);
    }
  }

  /** The last stage of a build publishes it or fails it. */
  lemma DialedEnds(cfg: Config, sys: Sys, t: nat, fate: Fate, minted: string, e: nat)
    requires Closed(sys.pool) && t in sys.requests && e < |sys.pool.info|
    requires sys.requests[t].pc.Dialed? && sys.requests[t].pc.e == e
    ensures var sys' := Step(cfg, sys, Run(t, fate, minted));
            && |sys'.pool.info| == |sys.pool.info|
            && (forall u | u in sys.requests && u != t :: u in sys'.requests && sys'.requests[u] == sys.requests[u])
            && if fate.Fine? then sys'.pool.info[e].build.Ready? else sys'.pool.info[e].build.Failed?
  {
  }

  /**
   * From one end of the wait to the other: u waits for t's build, and whatever happens before t's
   * last step and after it, u is served by the entry if that step goes well and refused if not.
   */
  lemma WaiterFaresAsBuild(cfg: Config, before: seq<Event>, waits: seq<Event>, t: nat, u: nat, fate: Fate,
                           minted: string, events: seq<Event>)
    requires NamesPrincipals(cfg.owner) && forall ev | ev in waits :: Spares(ev, t)
    requires var sys := Exec(cfg, INIT, before);
             && Waits(sys, u) && sys.pool.info[sys.requests[u].pc.e].build == Running(t)
             && t in sys.requests && sys.requests[t].pc.Dialed?
             && Turns(cfg, Step(cfg, Exec(cfg, sys, waits), Run(t, fate, minted)), events, u) >= 6
    ensures var sys := Exec(cfg, INIT, before);
            var sys' := Exec(cfg, Step(cfg, Exec(cfg, sys, waits), Run(t, fate, minted)), events);
            && u in sys'.requests && sys'.requests[u].pc.Finished?
            && sys'.requests[u].pc.served == if fate.Fine? then Some(sys.requests[u].pc.e) else None
  {
    hide Step, Sturdy, Placed, Turns, NamesPrincipals;
    InitIsSturdy();
    ExecKeepsRunners(cfg, INIT, before);
    var sys := Exec(cfg, INIT, before);
    var e := sys.requests[u].pc.e;
    WaitsForBuild(cfg, sys, waits, t, u);
    StandsStill(cfg, sys, waits, t);
    ExecKeepsStructure(cfg, sys, waits);
    var sys1 := Exec(cfg, sys, waits);
    SturdyIsClosed(sys1.pool);
    DialedEnds(cfg, sys1, t, fate, minted, e);
    var whole := before + waits + [Run(t, fate, minted)];
    ExecAppend(cfg, INIT, before, waits);
    ExecSnoc(cfg, INIT, before + waits, Run(t, fate, minted));
    BuildDecides(cfg, whole, events, u);
  }

  // ---- where no dial fails ----

  /** Nothing speaks against request r: it is unfinished or served, and no build it stands at can have failed. */
  ghost predicate Hopeful(cfg: Config, s: State, r: Request) {
    && cfg.owner(r.bearer).Some?
    && match r.pc
       case Entering => r.sid == ""
       case Building(e, _) => Promising(cfg, s, e)
       case Connecting(e, _) => Promising(cfg, s, e)
       case Dialed(e, _, _) => Promising(cfg, s, e)
       case Probing(_, bound) => !bound
       case Comparing(_, bound, _) => !bound
       case Finished(served, _) => served.Some?
       case Evicting(_) | Refused => false
       case _ => true
  }

  /** The build has not failed, and presents a bearer the realm knows. */
  ghost predicate Promising(cfg: Config, s: State, e: nat) {
    e < |s.info| && !s.info[e].build.Failed? && (s.info[e].Unbuilt() ==> cfg.owner(s.info[e].latest).Some?)
  }

  /** No dial of this event fails. */
  predicate GoesWell(ev: Event) {
    ev.Run? ==> ev.fate.Fine?
  }

  /** A step that goes well does not fail a promising build. */
  lemma StaysPromising(cfg: Config, sys: Sys, ev: Event, e: nat)
    requires Sound(cfg) && Unconfused(cfg) && SysInv(cfg, sys) && StructInv(sys) && Closed(sys.pool) && GoesWell(ev)
    requires Promising(cfg, sys.pool, e)
    ensures Promising(cfg, Step(cfg, sys, ev).pool, e)
  {
    hide Sturdy, SysInv, Advance, Unconfused, NamesPrincipals;
    StepKeepsStructure(cfg, sys, ev);
    assert Ages(sys.pool.info[e], Step(cfg, sys, ev).pool.info[e]);
    if ev.Run? && ev.t in sys.requests {
      var r := sys.requests[ev.t];
      assert Placed(sys.pool, ev.t, r);
      if InRange(r.pc, |sys.pool.info|) {
        FineNeverFails(cfg, sys.pool, ev.t, r, ev.minted, e);
      }
    }
  }

  lemma FineNeverFails(cfg: Config, s: State, t: nat, r: Request, minted: string, e: nat)
    requires PanicFree(cfg) && Closed(s) && InRange(r.pc, |s.info|) && Placed(s, t, r) && Promising(cfg, s, e)
    requires e < |Advance(cfg, s, t, r, Fine, minted).0.info|
    ensures !Advance(cfg, s, t, r, Fine, minted).0.info[e].build.Failed?
  {
    hide Enter, Locate, Evict, Admit, Bind, ServerFor;
    match r.pc {
      case Entering => EnterFailsNone(s, r.bearer, r.sid, cfg.hint(r.bearer), e);
      case Ensuring(who) => LocateFailsNone(s, PrincipalKey(who), r.bearer, e);
      case Evicting(f) => EvictLeavesInfo(s, f, e);
      case Founding(f) => AdmitFailsNone(s, f, r.bearer, e); BindRunsNone(Admit(s, f, r.bearer), r.sid, f);
      case Admitting(f, _) => AdmitFailsNone(s, f, r.bearer, e); BindRunsNone(Admit(s, f, r.bearer), r.sid, f);
      case Answering(f, _) => BindRunsNone(s, minted, f);
      case _ =>
    }
  }

  lemma AdmitFailsNone(s: State, f: nat, b: string, e: nat)
    requires f < |s.info| && e < |s.info|
    ensures |Admit(s, f, b).info| == |s.info| && Admit(s, f, b).info[e].build == s.info[e].build
  {
    hide Trim;
  }

  lemma LocateFailsNone(s: State, key: string, b: string, e: nat)
    requires Closed(s) && e < |s.info| && !s.info[e].build.Failed?
    ensures |s.info| <= |Locate(s, key, b).0.info| && !Locate(s, key, b).0.info[e].build.Failed?
  {
  }

  lemma EnterUnboundFailsNone(s: State, b: string, sid: string, hint: string, e: nat)
    requires Closed(s) && e < |s.info| && !s.info[e].build.Failed?
    ensures |s.info| <= |EnterUnbound(s, b, sid, hint).0.info|
    ensures !EnterUnbound(s, b, sid, hint).0.info[e].build.Failed?
  {
    hide Locate, Evict;
    if b in s.byBearer {
      EvictLeavesInfo(s, s.byBearer[b], e);
      EvictClosed(s, s.byBearer[b]);
      LocateFailsNone(Evict(s, s.byBearer[b]), hint, b, e);
    }
    LocateFailsNone(s, hint, b, e);
  }

  lemma EnterFailsNone(s: State, b: string, sid: string, hint: string, e: nat)
    requires Closed(s) && e < |s.info| && !s.info[e].build.Failed?
    ensures |s.info| <= |Enter(s, b, sid, hint).0.info| && !Enter(s, b, sid, hint).0.info[e].build.Failed?
  {
    hide EnterUnbound, Evict;
    EnterUnboundFailsNone(s, b, sid, hint, e);
    if !BoundLive(s, sid) && sid != "" && sid in s.sessions {
      EvictLeavesInfo(s, s.sessions[sid], e);
      EvictClosed(s, s.sessions[sid]);
      EnterUnboundFailsNone(Evict(s, s.sessions[sid]), b, sid, hint, e);
    }
  }

  /** A hopeful request's own step, when it goes well, leaves it hopeful. */
  lemma AdvanceStaysHopeful(cfg: Config, s: State, proofs: Evidence, u: nat, r: Request, minted: string)
    requires Sound(cfg) && Unconfused(cfg) && Truthful(cfg, proofs) && PoolInv(cfg, s, proofs)
    requires RequestInv(cfg, s, proofs, u, r) && Hopeful(cfg, s, r)
    ensures Closed(s) && InRange(r.pc, |s.info|)
    ensures var (s', _, pc) := Advance(cfg, s, u, r, Fine, minted); Hopeful(cfg, s', r.(pc := pc))
  {
    hide Evict, Admit, Bind, Adopt, ServerFor, Enter, Locate, EntryInv, Truthful;
    match r.pc {
      case Entering => EnterIsHopeful(cfg, s, r);
      case Ensuring(who) => LandsPromising(cfg, s, proofs, r.bearer, who);
      case Building(e, own) => NoneSpent(cfg, s, proofs, e);
      case _ =>
    }
  }

  lemma EnterIsHopeful(cfg: Config, s: State, r: Request)
    requires Closed(s) && r.sid == "" && cfg.owner(r.bearer).Some?
    ensures var (s', g) := Enter(s, r.bearer, r.sid, cfg.hint(r.bearer)); Hopeful(cfg, s', r.(pc := Next(g)))
  {
    hide Evict, EnterByHint;
    if r.bearer in s.byBearer {
      EvictClosed(s, s.byBearer[r.bearer]);
      ByHintIsHopeful(cfg, Evict(s, s.byBearer[r.bearer]), r, cfg.hint(r.bearer));
    }
    ByHintIsHopeful(cfg, s, r, cfg.hint(r.bearer));
  }

  lemma ByHintIsHopeful(cfg: Config, s: State, r: Request, hint: string)
    requires Closed(s) && cfg.owner(r.bearer).Some?
    ensures var (s', g) := EnterByHint(s, r.bearer, hint); Hopeful(cfg, s', r.(pc := Next(g)))
  {
  }

  /** Where a diverted bearer lands, the build presents a bearer of its own principal. */
  lemma LandsPromising(cfg: Config, s: State, proofs: Evidence, b: string, who: Principal)
    requires Sound(cfg) && Unconfused(cfg) && Truthful(cfg, proofs) && PoolInv(cfg, s, proofs)
    requires (b, who) in proofs && Steerable(cfg.hint, b)
    ensures var (s', e) := Locate(s, PrincipalKey(who), b); Promising(cfg, s', e)
  {
    hide EntryInv, LandsRight, Rooted, SameFor;
    var key := PrincipalKey(who);
    PrincipalKeyLandsRight(cfg, b, who);
    LocateKeeps(cfg, s, proofs, key, b);
    var (s', e) := Locate(s, key, b);
    LandingIsOwn(cfg, s', proofs, e, who, b);
  }

  lemma StepStaysHopeful(cfg: Config, sys: Sys, ev: Event, u: nat)
    requires Sound(cfg) && Unconfused(cfg) && SysInv(cfg, sys) && StructInv(sys) && Closed(sys.pool) && GoesWell(ev)
    requires u in sys.requests && Hopeful(cfg, sys.pool, sys.requests[u])
    ensures u in Step(cfg, sys, ev).requests
    ensures Hopeful(cfg, Step(cfg, sys, ev).pool, Step(cfg, sys, ev).requests[u])
  {
    hide Sturdy, Placed, RequestInv, PoolInv, Advance, Truthful, Unconfused, Sound, Promising;
    var r := sys.requests[u];
    if ev.Run? && ev.t == u {
      AdvanceStaysHopeful(cfg, sys.pool, sys.proofs, u, r, ev.minted);
    } else if r.pc.Building? || r.pc.Connecting? || r.pc.Dialed? {
      StaysPromising(cfg, sys, ev, r.pc.e);
    }
  }

  lemma {:induction false} ExecStaysHopeful(cfg: Config, sys: Sys, events: seq<Event>, u: nat)
    requires Sound(cfg) && Unconfused(cfg) && SysInv(cfg, sys) && StructInv(sys)
    requires forall ev | ev in events :: GoesWell(ev)
    requires u in sys.requests && Hopeful(cfg, sys.pool, sys.requests[u])
    ensures u in Exec(cfg, sys, events).requests
    ensures Hopeful(cfg, Exec(cfg, sys, events).pool, Exec(cfg, sys, events).requests[u])
    decreases |events|
  {
    hide SysInv, Sturdy, Placed, Hopeful, Step, Unconfused, NamesPrincipals;
    SturdyIsClosed(sys.pool);
    if events != [] {
      StepKeepsInv(cfg, sys, events[0]);
      StepKeepsStructure(cfg, sys, events[0]);
      StepStaysHopeful(cfg, sys, events[0], u);
      ExecStaysHopeful(cfg, Step(cfg, sys, events[0]), events[1..], u);
    }
  }

  /**
   * At any moment of any run a request without a session arrives at the pool, with a bearer the
   * realm knows. If from then on no dial fails, it is never refused, whatever the others do and
   * whichever connections die, and with thirteen turns it has been served.
   */
  lemma FineRequestsAreServed(cfg: Config, before: seq<Event>, events: seq<Event>, u: nat)
    requires Sound(cfg) && Unconfused(cfg) && forall ev | ev in events :: GoesWell(ev)
    requires var sys := Exec(cfg, INIT, before);
             && u in sys.requests && sys.requests[u].pc == Entering && sys.requests[u].sid == ""
             && cfg.owner(sys.requests[u].bearer).Some?
    ensures var sys' := Exec(cfg, Exec(cfg, INIT, before), events);
            && u in sys'.requests && !sys'.requests[u].pc.Refused? && !sys'.requests[u].pc.Evicting?
            && (sys'.requests[u].pc.Finished? ==> sys'.requests[u].pc.served.Some?)
            && (Turns(cfg, Exec(cfg, INIT, before), events, u) >= 13 ==> sys'.requests[u].pc.Finished?)
  {
    hide Step, Sturdy, Placed, SysInv, Turns, Unconfused, NamesPrincipals;
    InitInv(cfg);
    InitIsSturdy();
    ExecKeepsInv(cfg, INIT, before);
    ExecKeepsStructure(cfg, INIT, before);
    ExecStaysHopeful(cfg, Exec(cfg, INIT, before), events, u);
    TurnsCount(cfg, Exec(cfg, INIT, before), events, u);
  }
}
