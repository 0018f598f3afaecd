/**
 * The node under concurrent requests. Each request is a program counter; each section under the
 * pool's mutex is one step, and probe, the stages of a build, and adopt are steps outside it.
 * A history variable collects the admissions the realm has made.
 */
module Interleaving {
  import opened Wrappers
  import opened Grants
  import opened Routing
  import opened PoolSpec
  import opened PoolInvariants

  /**
   * Where a request stands. `own` is the probed principal while the request builds an entry on
   * behalf of ensurePrincipal, and None in resolve's own build. `bound` tells candidateForBound
   * from candidate.
   */
  datatype Pc =
    | Entering
    | Adopting(e: nat)
    | Building(e: nat, own: Option<Principal>)
    | Connecting(e: nat, own: Option<Principal>)
    | Dialed(e: nat, own: Option<Principal>, who: Principal)
    | Evicting(e: nat)
    | Founding(e: nat)
    | Probing(e: nat, bound: bool)
    | Comparing(e: nat, bound: bool, who: Principal)
    | Admitting(e: nat, bound: bool)
    | Ensuring(who: Principal)
    | Served(e: nat)
    | Refused
    | Answering(e: nat, server: Option<nat>)
    | Finished(served: Option<nat>, server: Option<nat>)

  datatype Request = Request(bearer: string, sid: string, pc: Pc)

  datatype Sys = Sys(pool: State, proofs: Evidence, requests: map<nat, Request>)

  ghost const INIT := Sys(EMPTY, iset{}, map[])

  /** Everything the schedule and the environment choose. */
  datatype Event =
    | Arrive(t: nat, bearer: string, sid: string)
    | Run(t: nat, fate: Fate, minted: string)
    | Die(e: nat)
    | Close

  ghost predicate InRange(pc: Pc, n: nat) {
    match pc
    case Entering | Ensuring(_) | Refused | Finished(_, _) => true
    case Adopting(e) => e < n
    case Building(e, _) => e < n
    case Connecting(e, _) => e < n
    case Dialed(e, _, _) => e < n
    case Evicting(e) => e < n
    case Founding(e) => e < n
    case Probing(e, _) => e < n
    case Comparing(e, _, _) => e < n
    case Admitting(e, _) => e < n
    case Served(e) => e < n
    case Answering(e, _) => e < n
  }

  function Next(g: Goto): Pc {
    match g
    case ToAdopt(e) => Adopting(e)
    case ToMismatch => Refused
    case ToProbeBound(e) => Probing(e, true)
    case ToBuild(e) => Building(e, None)
    case ToProbe(e) => Probing(e, false)
  }

  /**
   * One step of a request: the new pool, the admission made in it (if any), and where the request
   * stands. A panic ends its request at once and unanswered; a build that panics is spent.
   */
  ghost function Advance(cfg: Config, s: State, t: nat, r: Request, fate: Fate, minted: string)
    : (State, Option<(string, Principal)>, Pc)
    requires Closed(s) && InRange(r.pc, |s.info|)
  {
    match r.pc
    case Entering =>
      var (s', g) := Enter(s, r.bearer, r.sid, cfg.hint(r.bearer));
      (s', None, Next(g))
    case Adopting(e) => (Adopt(s, e, r.bearer), None, Served(e))
    case Building(e, own) =>
      (match s.info[e].build
       case Pending => (SetBuild(s, e, Running(t)), None, Connecting(e, own))
       case Running(_) => (s, None, r.pc)
       case Failed => (s, None, Evicting(e))
       case Spent | Ready(_, _) => (s, None, if own.Some? then Admitting(e, false) else Founding(e)))
    case Connecting(e, own) =>
      var latest := s.info[e].latest;
      if Crashes(cfg, fate, latest) then (SetBuild(s, e, Spent), None, Finished(None, None))
      else
        (match Proves(cfg, fate, latest)
         case Some(who) => (s, Some((latest, who)), Dialed(e, own, who))
         case None => (SetBuild(s, e, Failed), None, Building(e, own)))
    case Dialed(e, own, who) =>
      (SetBuild(s, e, if fate.Fine? then Ready(who, true) else Failed), None, Building(e, own))
    case Evicting(e) => (Evict(s, e), None, Refused)
    case Founding(e) => (Bind(Admit(s, e, r.bearer), r.sid, e), None, Served(e))
    case Probing(e, bound) =>
      if Crashes(cfg, fate, r.bearer) then (s, None, Finished(None, None))
      else
        (match Proves(cfg, fate, r.bearer)
         case Some(who) => (s, Some((r.bearer, who)), Comparing(e, bound, who))
         case None => (s, None, Refused))
    case Comparing(e, bound, who) =>
      (s, None, if s.info[e].Is(who) then Admitting(e, bound) else if bound then Refused else Ensuring(who))
    case Admitting(e, bound) =>
      var s' := Admit(s, e, r.bearer);
      (if bound then s' else Bind(s', r.sid, e), None, Adopting(e))
    case Ensuring(who) =>
      var (s', e) := Locate(s, PrincipalKey(who), r.bearer);
      (s', None, Building(e, Some(who)))
    case Served(e) => (s, None, Answering(e, ServerFor(s, r.bearer)))
    case Refused => (s, None, Finished(None, if cfg.public then None else ServerFor(s, r.bearer)))
    case Answering(e, server) =>
      (if r.sid == "" then Bind(s, minted, e) else s, None, Finished(Some(e), server))
    case Finished(_, _) => (s, None, r.pc)
  }

  ghost function With(proofs: Evidence, proof: Option<(string, Principal)>): Evidence {
    if proof.Some? then proofs + iset{proof.value} else proofs
  }

  /** The effect of one event; an event that is not enabled changes nothing. */
  ghost function Step(cfg: Config, sys: Sys, ev: Event): Sys {
    var s := sys.pool;
    if !Closed(s) then sys
    else
      match ev
      case Arrive(t, bearer, sid) =>
        if t in sys.requests then sys
        else sys.(requests := sys.requests[t := Request(bearer, sid, if bearer == "" then Refused else Entering)])
      case Run(t, fate, minted) =>
        if t !in sys.requests || !InRange(sys.requests[t].pc, |s.info|) then sys
        else
          var r := sys.requests[t];
          var (s', proof, pc) := Advance(cfg, s, t, r, fate, minted);
          Sys(s', With(sys.proofs, proof), sys.requests[t := r.(pc := pc)])
      case Die(e) =>
        if e < |s.info| && s.info[e].build.Ready? then
          sys.(pool := SetBuild(s, e, Ready(s.info[e].build.who, false)))
        else sys
      case Close => sys.(pool := CloseAll(s))
  }

  /** The state after a run: any sequence of events is a schedule. */
  ghost function Exec(cfg: Config, sys: Sys, events: seq<Event>): Sys
    decreases |events|
  {
    if events == [] then sys else Exec(cfg, Step(cfg, sys, events[0]), events[1..])
  }

  // ---- the invariant ----

  /** The realm has admitted this bearer as the principal of this built entry. */
  ghost predicate ProvenFor(s: State, proofs: Evidence, e: nat, bearer: string) {
    e < |s.info| && s.info[e].build.Ready? && (bearer, s.info[e].build.who) in proofs
  }

  /** A bearer that meets this entry under its hint either is its principal's or may be steered away. */
  ghost predicate MayMeet(cfg: Config, s: State, e: nat, bearer: string) {
    && e < |s.info|
    && (Steerable(cfg.hint, bearer) || (s.info[e].build.Ready? && cfg.owner(bearer) == Some(s.info[e].build.who)))
  }

  /** A request that stands at an entry's build has business with that entry. */
  ghost predicate MayBuild(cfg: Config, s: State, proofs: Evidence, e: nat, own: Option<Principal>, bearer: string) {
    && e < |s.info|
    && match own
       case None =>
         && (s.info[e].Unbuilt() ==> s.info[e].latest == bearer)
         && (s.info[e].build.Ready? ==> (bearer, s.info[e].build.who) in proofs)
       case Some(who) => (bearer, who) in proofs && PrincipalKey(who) in s.info[e].keys && Steerable(cfg.hint, bearer)
  }

  ghost predicate RequestInv(cfg: Config, s: State, proofs: Evidence, t: nat, r: Request) {
    match r.pc
    case Entering => r.bearer != ""
    case Refused => true
    case Adopting(e) => ProvenFor(s, proofs, e, r.bearer)
    case Founding(e) => ProvenFor(s, proofs, e, r.bearer)
    case Admitting(e, _) => ProvenFor(s, proofs, e, r.bearer)
    case Served(e) => ProvenFor(s, proofs, e, r.bearer)
    case Building(e, own) => MayBuild(cfg, s, proofs, e, own, r.bearer)
    case Connecting(e, own) => MayBuild(cfg, s, proofs, e, own, r.bearer) && s.info[e].build == Running(t)
    case Dialed(e, own, who) =>
      && MayBuild(cfg, s, proofs, e, own, r.bearer) && s.info[e].build == Running(t)
      && (s.info[e].latest, who) in proofs
    case Evicting(e) => e < |s.info| && s.info[e].build.Failed?
    case Probing(e, bound) => e < |s.info| && (!bound ==> MayMeet(cfg, s, e, r.bearer))
    case Comparing(e, bound, who) =>
      e < |s.info| && (r.bearer, who) in proofs && (!bound ==> MayMeet(cfg, s, e, r.bearer))
    case Ensuring(who) => (r.bearer, who) in proofs && Steerable(cfg.hint, r.bearer)
    case Answering(e, server) =>
      && ProvenFor(s, proofs, e, r.bearer)
      && (server.Some? ==> ProvenFor(s, proofs, server.value, r.bearer))
    case Finished(served, server) =>
      && (served.Some? ==> ProvenFor(s, proofs, served.value, r.bearer))
      && (server.Some? ==> ProvenFor(s, proofs, server.value, r.bearer))
  }

  ghost predicate SysInv(cfg: Config, sys: Sys) {
    && Truthful(cfg, sys.proofs)
    && PoolInv(cfg, sys.pool, sys.proofs)
    && forall t | t in sys.requests :: RequestInv(cfg, sys.pool, sys.proofs, t, sys.requests[t])
  }

  // ---- what other requests may rely on ----

  /** How an entry changes over any number of steps. */
  ghost predicate Ages(i: EntryState, i': EntryState) {
    && i'.keys == i.keys
    && (i'.build.Pending? ==> i.build.Pending?)
    && (i.build.Running? && i'.build.Running? ==> i'.build == i.build)
    && (i.build.Failed? ==> i'.build.Failed?)
    && (i.build.Spent? ==> i'.build.Spent?)
    && (i.build.Ready? ==> i'.build.Ready? && i'.build.who == i.build.who && (i'.build.open ==> i.build.open))
    && (!i'.Built() ==> i'.latest == i.latest)
  }

  /** How an entry may change in a step of request t, given the admissions made by its end. */
  ghost predicate EntryEvolves(i: EntryState, i': EntryState, proofs': Evidence, t: nat) {
    && Ages(i, i')
    && (i.Unbuilt() && i'.build.Ready? ==> (i.latest, i'.build.who) in proofs')
    && (i.build.Running? && i.build.runner != t ==> i'.build == i.build)
  }

  /** b has not been admitted as the principal of this entry, nor is it the bearer that founded it. */
  ghost predicate Stranger(cfg: Config, i: EntryState, b: string, proofs: Evidence) {
    && (i.build.Ready? ==> (b, i.build.who) !in proofs)
    && (i.Unbuilt() ==> b != i.latest && (cfg.owner(i.latest).Some? ==> (b, cfg.owner(i.latest).value) !in proofs))
  }

  ghost predicate Evolves(s: State, s': State, proofs': Evidence, t: nat) {
    && |s.info| <= |s'.info|
    && forall e | 0 <= e < |s.info| :: EntryEvolves(s.info[e], s'.info[e], proofs', t)
  }

  /** Live entries that are no business of bearer b are untouched. */
  ghost predicate SparesStrangers(cfg: Config, s: State, s': State, proofs': Evidence, b: string) {
    forall e | 0 <= e < |s.info| && AliveAt(s, e) && Stranger(cfg, s.info[e], b, proofs') :: SameFor(s, s', e)
  }

  /** A session bound to a live entry stays bound to it. */
  ghost predicate KeepsLiveBindings(s: State, s': State)
    requires Closed(s)
  {
    forall sid | sid in s.sessions && AliveAt(s, s.sessions[sid]) ::
      sid in s'.sessions && s'.sessions[sid] == s.sessions[sid]
  }

  /** What a step of request t, presenting bearer b, does to the pool. */
  ghost predicate Fair(cfg: Config, s: State, s': State, proofs: Evidence, t: nat, b: string) {
    && PoolInv(cfg, s, proofs)
    && PoolInv(cfg, s', proofs)
    && Evolves(s, s', proofs, t)
    && SparesStrangers(cfg, s, s', proofs, b)
    && KeepsLiveBindings(s, s')
  }

  lemma FairTransitive(cfg: Config, s: State, s1: State, s2: State, proofs: Evidence, t: nat, b: string)
    requires Fair(cfg, s, s1, proofs, t, b) && Fair(cfg, s1, s2, proofs, t, b)
    requires forall e | 0 <= e < |s.info| && AliveAt(s, e) :: s1.info[e].build == s.info[e].build
    ensures Fair(cfg, s, s2, proofs, t, b)
  {
    forall e | 0 <= e < |s.info| && AliveAt(s, e) && Stranger(cfg, s.info[e], b, proofs)
      ensures SameFor(s, s2, e)
    {
      assert SameFor(s, s1, e);
      assert SameFor(s1, s2, e);
    }
    forall e | 0 <= e < |s.info|
      ensures EntryEvolves(s.info[e], s2.info[e], proofs, t)
    {
      assert EntryEvolves(s.info[e], s1.info[e], proofs, t);
      assert EntryEvolves(s1.info[e], s2.info[e], proofs, t);
    }
  }

  lemma FairEvict(cfg: Config, s: State, proofs: Evidence, e: nat, t: nat, b: string)
    requires PoolInv(cfg, s, proofs) && e < |s.info| && !AliveAt(s, e)
    ensures Fair(cfg, s, Evict(s, e), proofs, t, b)
    ensures |Evict(s, e).info| == |s.info|
    ensures forall o | 0 <= o < |s.info| && AliveAt(s, o) :: Evict(s, e).info[o].build == s.info[o].build
  {
    EvictKeepsInv(cfg, s, proofs, e);
    EvictionIsExact(s, e);
  }

  lemma FairAdmit(cfg: Config, s: State, proofs: Evidence, e: nat, t: nat, b: string)
    requires PoolInv(cfg, s, proofs) && ProvenFor(s, proofs, e, b)
    ensures Fair(cfg, s, Admit(s, e, b), proofs, t, b)
  {
    hide LandsRight, Rooted, Trusted, Unname;
    AdmitKeepsInv(cfg, s, proofs, e, b);
    var s' := Admit(s, e, b);
    if b !in s.info[e].admitted {
      AdmitEffect(s, e, b);
      forall other | 0 <= other < |s.info| && Stranger(cfg, s.info[other], b, proofs)
        ensures SameFor(s, s', other)
      {
        assert other != e;
        if b in s.byBearer && s.byBearer[b] == other {
          BearersFindBuiltEntries(cfg, s, proofs, b);
        }
        AdmitSpares(s, e, b, other);
      }
      assert Evolves(s, s', proofs, t);
    }
  }

  lemma AdmitSpares(s: State, e: nat, b: string, other: nat)
    requires e < |s.info| && other < |s.info| && other != e && |s.info[e].admitted| <= KEEP
    requires !(b in s.byBearer && s.byBearer[b] == other)
    ensures SameFor(s, Admit(s, e, b), other)
  {
    if b !in s.info[e].admitted {
      AdmitEffect(s, e, b);
    }
  }

  lemma FairBind(cfg: Config, s: State, proofs: Evidence, e: nat, sid: string, t: nat, b: string)
    requires PoolInv(cfg, s, proofs) && ProvenFor(s, proofs, e, b)
    ensures Fair(cfg, s, Bind(s, sid, e), proofs, t, b)
  {
    BindKeepsInv(cfg, s, proofs, sid, e);
    forall other | 0 <= other < |s.info| && Stranger(cfg, s.info[other], b, proofs)
      ensures SameFor(s, Bind(s, sid, e), other)
    {
      BindSpares(s, sid, e, other);
    }
    assert Bind(s, sid, e).info == s.info;
    assert Evolves(s, Bind(s, sid, e), proofs, t);
    assert KeepsLiveBindings(s, Bind(s, sid, e));
  }

  lemma BindSpares(s: State, sid: string, e: nat, other: nat)
    requires other < |s.info| && other != e
    ensures SameFor(s, Bind(s, sid, e), other)
  {
  }

  lemma FairAdopt(cfg: Config, s: State, proofs: Evidence, e: nat, t: nat, b: string)
    requires PoolInv(cfg, s, proofs) && ProvenFor(s, proofs, e, b)
    ensures Fair(cfg, s, Adopt(s, e, b), proofs, t, b)
  {
    AdoptKeepsInv(cfg, s, proofs, e, b);
  }

  lemma BuilderIsNoStranger(cfg: Config, s: State, proofs: Evidence, e: nat, own: Option<Principal>, b: string)
    requires Truthful(cfg, proofs) && PoolInv(cfg, s, proofs) && MayBuild(cfg, s, proofs, e, own, b)
             && s.info[e].Unbuilt()
    ensures Closed(s) && !Stranger(cfg, s.info[e], b, proofs)
  {
    assert EntryInv(cfg, s.info[e], proofs);
    if own.Some? {
      assert cfg.owner(b) == own;
    }
  }

  lemma FairBuild(cfg: Config, s: State, proofs: Evidence, e: nat, own: Option<Principal>, build: Build, t: nat,
                  b: string)
    requires Truthful(cfg, proofs) && PoolInv(cfg, s, proofs) && MayBuild(cfg, s, proofs, e, own, b)
    requires s.info[e].build == Pending || s.info[e].build == Running(t)
    requires !build.Pending? && !build.Spent? && (build.Running? ==> s.info[e].build.Pending?)
    requires build.Ready? ==> (s.info[e].latest, build.who) in proofs
    ensures Fair(cfg, s, SetBuild(s, e, build), proofs, t, b)
  {
    hide PoolInv, IndexInv, EntryInv;
    BuildKeepsInv(cfg, s, proofs, e, build);
    BuilderIsNoStranger(cfg, s, proofs, e, own, b);
    assert forall o | 0 <= o < |s.info| && o != e :: SameFor(s, SetBuild(s, e, build), o);
    assert KeepsLiveBindings(s, SetBuild(s, e, build));
  }

  lemma FairLocate(cfg: Config, s: State, proofs: Evidence, key: string, t: nat, b: string)
    requires PoolInv(cfg, s, proofs)
    requires LandsRight(cfg, EntryState([key], b, [], Pending)) && Rooted(cfg, EntryState([key], b, [], Pending))
    ensures Fair(cfg, s, Locate(s, key, b).0, proofs, t, b)
  {
    hide EntryInv, LandsRight, Rooted, Stranger;
    LocateKeeps(cfg, s, proofs, key, b);
  }

  /** What locating yields is alive and carries the key. */
  lemma LocateFindsLive(s: State, key: string, b: string)
    requires IndexInv(s)
    ensures var (s', e) := Locate(s, key, b); key in s'.info[e].keys && s'.info[e].Alive()
  {
  }

  lemma FairReflexive(cfg: Config, s: State, proofs: Evidence, t: nat, b: string)
    requires PoolInv(cfg, s, proofs)
    ensures Fair(cfg, s, s, proofs, t, b)
  {
  }

  // ---- the first critical section of resolve ----

  lemma EnterByHintFair(cfg: Config, s: State, proofs: Evidence, t: nat, r: Request)
    requires Sound(cfg) && PoolInv(cfg, s, proofs) && r.bearer != ""
    ensures var (s', g) := EnterByHint(s, r.bearer, cfg.hint(r.bearer));
            && Fair(cfg, s, s', proofs, t, r.bearer)
            && RequestInv(cfg, s', proofs, t, r.(pc := Next(g)))
  {
    hide SparesStrangers, Evolves, KeepsLiveBindings, LandsRight, Rooted, Evict;
    HintLandsRight(cfg, r.bearer);
    LocateFindsLive(s, cfg.hint(r.bearer), r.bearer);
    FairLocate(cfg, s, proofs, cfg.hint(r.bearer), t, r.bearer);
    var (s', e) := Locate(s, cfg.hint(r.bearer), r.bearer);
    assert EntryInv(cfg, s'.info[e], proofs);
    if s'.info[e].latest != r.bearer {
      MeetsUnderHint(cfg, s'.info[e], r.bearer);
    }
  }

  lemma EnterUnboundFair(cfg: Config, s: State, proofs: Evidence, t: nat, r: Request)
    requires Sound(cfg) && PoolInv(cfg, s, proofs) && r.bearer != ""
    ensures var (s', g) := EnterUnbound(s, r.bearer, r.sid, cfg.hint(r.bearer));
            && Fair(cfg, s, s', proofs, t, r.bearer)
            && RequestInv(cfg, s', proofs, t, r.(pc := Next(g)))
  {
    if r.bearer in s.byBearer {
      var e := s.byBearer[r.bearer];
      BearersFindBuiltEntries(cfg, s, proofs, r.bearer);
      if AliveAt(s, e) {
        FairBind(cfg, s, proofs, e, r.sid, t, r.bearer);
      } else {
        var s1 := Evict(s, e);
        FairEvict(cfg, s, proofs, e, t, r.bearer);
        EnterByHintFair(cfg, s1, proofs, t, r);
        FairTransitive(cfg, s, s1, EnterByHint(s1, r.bearer, cfg.hint(r.bearer)).0, proofs, t, r.bearer);
      }
    } else {
      EnterByHintFair(cfg, s, proofs, t, r);
    }
  }

  lemma EnterFair(cfg: Config, s: State, proofs: Evidence, t: nat, r: Request)
    requires Sound(cfg) && PoolInv(cfg, s, proofs) && r.bearer != ""
    ensures var (s', g) := Enter(s, r.bearer, r.sid, cfg.hint(r.bearer));
            && Fair(cfg, s, s', proofs, t, r.bearer)
            && RequestInv(cfg, s', proofs, t, r.(pc := Next(g)))
  {
    hide SparesStrangers, EnterUnbound, Evict;
    if BoundLive(s, r.sid) {
      FairReflexive(cfg, s, proofs, t, r.bearer);
      assert EntryInv(cfg, s.info[s.sessions[r.sid]], proofs);
    } else if r.sid != "" && r.sid in s.sessions {
      var s1 := Evict(s, s.sessions[r.sid]);
      FairEvict(cfg, s, proofs, s.sessions[r.sid], t, r.bearer);
      EnterUnboundFair(cfg, s1, proofs, t, r);
      FairTransitive(cfg, s, s1, EnterUnbound(s1, r.bearer, r.sid, cfg.hint(r.bearer)).0, proofs, t, r.bearer);
    } else {
      EnterUnboundFair(cfg, s, proofs, t, r);
    }
  }

  // ---- the other steps ----

  /** Admitting and binding a proven bearer, as one critical section. */
  lemma AdmitBindFair(cfg: Config, s: State, proofs: Evidence, e: nat, sid: string, t: nat, b: string)
    requires PoolInv(cfg, s, proofs) && ProvenFor(s, proofs, e, b)
    ensures Fair(cfg, s, Bind(Admit(s, e, b), sid, e), proofs, t, b)
    ensures ProvenFor(Bind(Admit(s, e, b), sid, e), proofs, e, b)
    ensures ProvenFor(Admit(s, e, b), proofs, e, b)
  {
    var s1 := Admit(s, e, b);
    FairAdmit(cfg, s, proofs, e, t, b);
    assert s1.info[e].build == s.info[e].build;
    FairBind(cfg, s1, proofs, e, sid, t, b);
    FairTransitive(cfg, s, s1, Bind(s1, sid, e), proofs, t, b);
  }

  /** An entry filed under the key of the principal a bearer has proven is that principal's. */
  lemma LandingIsOwn(cfg: Config, s: State, proofs: Evidence, e: nat, who: Principal, b: string)
    requires Truthful(cfg, proofs) && PoolInv(cfg, s, proofs)
    requires e < |s.info| && PrincipalKey(who) in s.info[e].keys && (b, who) in proofs
    requires Steerable(cfg.hint, b)
    ensures s.info[e].build.Ready? ==> s.info[e].build.who == who && ProvenFor(s, proofs, e, b)
    ensures s.info[e].Unbuilt() ==> cfg.owner(s.info[e].latest) == Some(who)
  {
    assert cfg.owner(b) == Some(who);
    assert LandsRight(cfg, s.info[e]);
  }

  lemma NoneSpent(cfg: Config, s: State, proofs: Evidence, e: nat)
    requires PoolInv(cfg, s, proofs) && e < |s.info|
    ensures !s.info[e].build.Spent?
  {
    assert EntryInv(cfg, s.info[e], proofs);
  }

  /** Arriving at the once-only build: claiming it, waiting for it, or coming back from it. */
  lemma BuildingStepFair(cfg: Config, s: State, proofs: Evidence, t: nat, r: Request, fate: Fate, minted: string)
    requires Sound(cfg) && Truthful(cfg, proofs) && PoolInv(cfg, s, proofs)
    requires RequestInv(cfg, s, proofs, t, r) && r.pc.Building?
    ensures StepFair(cfg, s, proofs, t, r, fate, minted)
  {
    hide PoolInv, SparesStrangers;
    NoneSpent(cfg, s, proofs, r.pc.e);
    if r.pc.own.Some? {
      LandingIsOwn(cfg, s, proofs, r.pc.e, r.pc.own.value, r.bearer);
    }
    if s.info[r.pc.e].build.Pending? {
      FairBuild(cfg, s, proofs, r.pc.e, r.pc.own, Running(t), t, r.bearer);
    } else {
      FairReflexive(cfg, s, proofs, t, r.bearer);
    }
  }

  /** The build's dial: it presents the bearer that founded the entry. */
  lemma ConnectingStepFair(cfg: Config, s: State, proofs: Evidence, t: nat, r: Request, fate: Fate, minted: string)
    requires Sound(cfg) && Truthful(cfg, proofs) && PoolInv(cfg, s, proofs)
    requires RequestInv(cfg, s, proofs, t, r) && r.pc.Connecting?
    ensures StepFair(cfg, s, proofs, t, r, fate, minted)
  {
    var proof := Advance(cfg, s, t, r, fate, minted).1;
    if proof.Some? {
      MoreEvidenceKeepsInv(cfg, s, proofs, With(proofs, proof));
      FairReflexive(cfg, s, With(proofs, proof), t, r.bearer);
    } else {
      FairBuild(cfg, s, proofs, r.pc.e, r.pc.own, Failed, t, r.bearer);
    }
  }

  /** The end of the build: the principal is published or the entry is a corpse. */
  lemma DialedStepFair(cfg: Config, s: State, proofs: Evidence, t: nat, r: Request, fate: Fate, minted: string)
    requires Sound(cfg) && Truthful(cfg, proofs) && PoolInv(cfg, s, proofs)
    requires RequestInv(cfg, s, proofs, t, r) && r.pc.Dialed?
    ensures StepFair(cfg, s, proofs, t, r, fate, minted)
  {
    var e, own := r.pc.e, r.pc.own;
    FairBuild(cfg, s, proofs, e, own, if fate.Fine? then Ready(r.pc.who, true) else Failed, t, r.bearer);
    if own.Some? {
      LandingIsOwn(cfg, Advance(cfg, s, t, r, fate, minted).0, proofs, e, own.value, r.bearer);
    }
  }

  /** A step of a request that has proven its bearer for the entry it stands at. */
  lemma ProvenStepFair(cfg: Config, s: State, proofs: Evidence, t: nat, r: Request, fate: Fate, minted: string)
    requires Truthful(cfg, proofs) && PoolInv(cfg, s, proofs)
    requires RequestInv(cfg, s, proofs, t, r)
             && (r.pc.Adopting? || r.pc.Founding? || r.pc.Admitting? || r.pc.Answering?)
    ensures StepFair(cfg, s, proofs, t, r, fate, minted)
  {
    hide PoolInv, SparesStrangers, KeepsLiveBindings, Admit, Bind, Adopt;
    match r.pc {
      case Adopting(e) => FairAdopt(cfg, s, proofs, e, t, r.bearer);
      case Founding(e) => AdmitBindFair(cfg, s, proofs, e, r.sid, t, r.bearer);
      case Admitting(e, bound) =>
        AdmitBindFair(cfg, s, proofs, e, r.sid, t, r.bearer);
        FairAdmit(cfg, s, proofs, e, t, r.bearer);
      case Answering(e, _) =>
        FairReflexive(cfg, s, proofs, t, r.bearer);
        FairBind(cfg, s, proofs, e, minted, t, r.bearer);
    }
  }

  /** A step that only reads the pool: probes, comparisons and lookups. */
  lemma ReadingStepFair(cfg: Config, s: State, proofs: Evidence, t: nat, r: Request, fate: Fate, minted: string)
    requires Sound(cfg) && Truthful(cfg, proofs) && PoolInv(cfg, s, proofs)
    requires RequestInv(cfg, s, proofs, t, r)
    requires r.pc.Probing? || r.pc.Comparing? || r.pc.Served? || r.pc.Refused? || r.pc.Finished?
    ensures StepFair(cfg, s, proofs, t, r, fate, minted)
  {
    hide EntryInv, SparesStrangers, Evolves, KeepsLiveBindings;
    var (_, proof, _) := Advance(cfg, s, t, r, fate, minted);
    MoreEvidenceKeepsInv(cfg, s, proofs, With(proofs, proof));
    FairReflexive(cfg, s, With(proofs, proof), t, r.bearer);
    match r.pc {
      case Served(_) => LookupFair(cfg, s, proofs, t, r);
      case Refused => LookupFair(cfg, s, proofs, t, r);
      case Comparing(e, _, who) =>
        assert cfg.owner(r.bearer) == Some(who);
      case _ =>
    }
  }

  lemma EnsuringStepFair(cfg: Config, s: State, proofs: Evidence, t: nat, r: Request, fate: Fate, minted: string)
    requires Sound(cfg) && Unconfused(cfg) && Truthful(cfg, proofs) && PoolInv(cfg, s, proofs)
    requires RequestInv(cfg, s, proofs, t, r) && r.pc.Ensuring?
    ensures StepFair(cfg, s, proofs, t, r, fate, minted)
  {
    var key := PrincipalKey(r.pc.who);
    PrincipalKeyLandsRight(cfg, r.bearer, r.pc.who);
    FairLocate(cfg, s, proofs, key, t, r.bearer);
    LocateKeeps(cfg, s, proofs, key, r.bearer);
  }

  /** What holds after a step of a request from a state where the invariant holds. */
  ghost predicate StepFair(cfg: Config, s: State, proofs: Evidence, t: nat, r: Request, fate: Fate, minted: string)
    requires Closed(s) && InRange(r.pc, |s.info|)
  {
    var (s', proof, pc) := Advance(cfg, s, t, r, fate, minted);
    && Truthful(cfg, With(proofs, proof))
    && Fair(cfg, s, s', With(proofs, proof), t, r.bearer)
    && RequestInv(cfg, s', With(proofs, proof), t, r.(pc := pc))
  }

  /** Every step of a request keeps the invariant and is fair to the others. */
  lemma AdvanceFair(cfg: Config, s: State, proofs: Evidence, t: nat, r: Request, fate: Fate, minted: string)
    requires Sound(cfg) && Unconfused(cfg) && Truthful(cfg, proofs) && PoolInv(cfg, s, proofs)
    requires RequestInv(cfg, s, proofs, t, r)
    ensures InRange(r.pc, |s.info|)
    ensures StepFair(cfg, s, proofs, t, r, fate, minted)
  {
    match r.pc {
      case Entering => EnterFair(cfg, s, proofs, t, r);
      case Building(_, _) => BuildingStepFair(cfg, s, proofs, t, r, fate, minted);
      case Connecting(_, _) => ConnectingStepFair(cfg, s, proofs, t, r, fate, minted);
      case Dialed(_, _, _) => DialedStepFair(cfg, s, proofs, t, r, fate, minted);
      case Evicting(e) => FairEvict(cfg, s, proofs, e, t, r.bearer);
      case Ensuring(_) => EnsuringStepFair(cfg, s, proofs, t, r, fate, minted);
      case Adopting(_) => ProvenStepFair(cfg, s, proofs, t, r, fate, minted);
      case Founding(_) => ProvenStepFair(cfg, s, proofs, t, r, fate, minted);
      case Admitting(_, _) => ProvenStepFair(cfg, s, proofs, t, r, fate, minted);
      case Answering(_, _) => ProvenStepFair(cfg, s, proofs, t, r, fate, minted);
      case _ => ReadingStepFair(cfg, s, proofs, t, r, fate, minted);
    }
  }

  lemma LookupFair(cfg: Config, s: State, proofs: Evidence, t: nat, r: Request)
    requires PoolInv(cfg, s, proofs)
    ensures Fair(cfg, s, s, proofs, t, r.bearer)
    ensures ServerFor(s, r.bearer).Some? ==> ProvenFor(s, proofs, ServerFor(s, r.bearer).value, r.bearer)
  {
    FairReflexive(cfg, s, proofs, t, r.bearer);
    if r.bearer in s.byBearer {
      BearersFindBuiltEntries(cfg, s, proofs, r.bearer);
    }
  }

  /** What a request has established survives the steps of the others. */
  lemma RequestStable(cfg: Config, s: State, s': State, proofs: Evidence, proofs': Evidence, t: nat, u: nat, r: Request)
    requires RequestInv(cfg, s, proofs, u, r) && u != t && proofs <= proofs' && Evolves(s, s', proofs', t)
    ensures RequestInv(cfg, s', proofs', u, r)
  {
    if !(r.pc.Entering? || r.pc.Refused? || r.pc.Finished? || r.pc.Ensuring?) {
      assert EntryEvolves(s.info[r.pc.e], s'.info[r.pc.e], proofs', t);
    }
  }

  // ---- building runs ----

  lemma {:induction false} ExecSnoc(cfg: Config, sys: Sys, events: seq<Event>, ev: Event)
    ensures Exec(cfg, sys, events + [ev]) == Step(cfg, Exec(cfg, sys, events), ev)
    decreases |events|
  {
    if events == [] {
      assert Exec(cfg, sys, [ev]) == Exec(cfg, Step(cfg, sys, ev), []);
    } else {
      assert (events + [ev])[1..] == events[1..] + [ev];
      ExecSnoc(cfg, Step(cfg, sys, events[0]), events[1..], ev);
    }
  }

  lemma {:induction false} ExecAppend(cfg: Config, sys: Sys, events: seq<Event>, more: seq<Event>)
    ensures Exec(cfg, sys, events + more) == Exec(cfg, Exec(cfg, sys, events), more)
    decreases |events|
  {
    if events == [] {
      assert [] + more == more;
    } else {
      assert (events + more)[1..] == events[1..] + more;
      ExecAppend(cfg, Step(cfg, sys, events[0]), events[1..], more);
    }
  }

  /** Extending a run by a step of request t whose effect is known. */
  lemma Extend(cfg: Config, start: Sys, events: seq<Event>, sys: Sys, t: nat, fate: Fate, s': State, pc: Pc)
    returns (events': seq<Event>, sys': Sys)
    requires Exec(cfg, start, events) == sys && Closed(sys.pool)
    requires t in sys.requests && InRange(sys.requests[t].pc, |sys.pool.info|)
    requires Advance(cfg, sys.pool, t, sys.requests[t], fate, "").0 == s'
    requires Advance(cfg, sys.pool, t, sys.requests[t], fate, "").2 == pc
    ensures events' == events + [Run(t, fate, "")] && Exec(cfg, start, events') == sys'
    ensures sys'.pool == s' && sys'.requests == sys.requests[t := sys.requests[t].(pc := pc)]
  {
    events' := events + [Run(t, fate, "")];
    ExecSnoc(cfg, start, events, Run(t, fate, ""));
    sys' := Exec(cfg, start, events');
  }
}
