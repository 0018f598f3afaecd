/** What holds of the node in every interleaving of any number of requests. */
module Isolation {
  import opened Wrappers
  import opened Grants
  import opened Routing
  import opened PoolSpec
  import opened PoolInvariants
  import opened Interleaving

  // ---- the invariant holds throughout every run ----

  lemma RunKeepsInv(cfg: Config, sys: Sys, t: nat, fate: Fate, minted: string)
    requires Sound(cfg) && Unconfused(cfg) && SysInv(cfg, sys) && t in sys.requests
    ensures SysInv(cfg, Step(cfg, sys, Run(t, fate, minted)))
  {
    var r := sys.requests[t];
    var sys' := Step(cfg, sys, Run(t, fate, minted));
    AdvanceFair(cfg, sys.pool, sys.proofs, t, r, fate, minted);
    hide PoolInv, SparesStrangers, Evolves, RequestInv;
    forall u | u in sys'.requests
      ensures RequestInv(cfg, sys'.pool, sys'.proofs, u, sys'.requests[u])
    {
      if u != t {
        RequestStable(cfg, sys.pool, sys'.pool, sys.proofs, sys'.proofs, t, u, sys.requests[u]);
      }
    }
  }

  /** Deaths and shutdowns keep what every request has established. */
  lemma ClosureKeepsRequests(cfg: Config, sys: Sys, s': State)
    requires forall t | t in sys.requests :: RequestInv(cfg, sys.pool, sys.proofs, t, sys.requests[t])
    requires |s'.info| == |sys.pool.info|
    requires forall e | 0 <= e < |s'.info| ::
               s'.info[e] == sys.pool.info[e] || s'.info[e] == sys.pool.info[e].Shut()
    ensures forall t | t in sys.requests :: RequestInv(cfg, s', sys.proofs, t, sys.requests[t])
  {
    forall t | t in sys.requests
      ensures RequestInv(cfg, s', sys.proofs, t, sys.requests[t])
    {
      var r := sys.requests[t];
      assert RequestInv(cfg, sys.pool, sys.proofs, t, r);
      if !(r.pc.Entering? || r.pc.Refused? || r.pc.Finished? || r.pc.Ensuring?) {
        assert r.pc.e < |s'.info|;
      }
    }
  }

  lemma ArriveKeepsInv(cfg: Config, sys: Sys, t: nat, bearer: string, sid: string)
    requires SysInv(cfg, sys)
    ensures SysInv(cfg, Step(cfg, sys, Arrive(t, bearer, sid)))
  {
    hide PoolInv, Advance;
  }

  lemma DieKeepsInv(cfg: Config, sys: Sys, e: nat)
    requires SysInv(cfg, sys) && e < |sys.pool.info| && sys.pool.info[e].build.Ready?
    ensures SysInv(cfg, Step(cfg, sys, Die(e)))
  {
    hide PoolInv, Advance, RequestInv;
    DeathKeepsInv(cfg, sys.pool, sys.proofs, e);
    ClosureKeepsRequests(cfg, sys, SetBuild(sys.pool, e, Ready(sys.pool.info[e].build.who, false)));
  }

  lemma CloseKeepsSysInv(cfg: Config, sys: Sys)
    requires SysInv(cfg, sys)
    ensures SysInv(cfg, Step(cfg, sys, Close))
  {
    hide PoolInv, Advance, RequestInv;
    CloseKeepsInv(cfg, sys.pool, sys.proofs);
    ClosureKeepsRequests(cfg, sys, CloseAll(sys.pool));
  }

  lemma StepKeepsInv(cfg: Config, sys: Sys, ev: Event)
    requires Sound(cfg) && Unconfused(cfg) && SysInv(cfg, sys)
    ensures SysInv(cfg, Step(cfg, sys, ev))
  {
    hide SysInv, Advance, Closed;
    match ev {
      case Arrive(t, bearer, sid) => ArriveKeepsInv(cfg, sys, t, bearer, sid);
      case Run(t, fate, minted) =>
        if t in sys.requests {
          RunKeepsInv(cfg, sys, t, fate, minted);
        }
      case Die(e) =>
        if e < |sys.pool.info| && sys.pool.info[e].build.Ready? {
          DieKeepsInv(cfg, sys, e);
        }
      case Close => CloseKeepsSysInv(cfg, sys);
    }
  }

  lemma {:induction false} ExecKeepsInv(cfg: Config, sys: Sys, events: seq<Event>)
    requires Sound(cfg) && Unconfused(cfg) && SysInv(cfg, sys)
    ensures SysInv(cfg, Exec(cfg, sys, events))
    decreases |events|
  {
    hide SysInv;
    if events != [] {
      StepKeepsInv(cfg, sys, events[0]);
      ExecKeepsInv(cfg, Step(cfg, sys, events[0]), events[1..]);
    }
  }

  lemma InitInv(cfg: Config)
    ensures SysInv(cfg, INIT)
  {
  }

  // ---- the evidence is real ----

  /** In this event the realm admits bearer b as p: a probe with b, or the dial of a build that presents b. */
  ghost predicate AdmitsIn(cfg: Config, sys: Sys, ev: Event, b: string, p: Principal) {
    && Closed(sys.pool) && ev.Run? && ev.t in sys.requests && InRange(sys.requests[ev.t].pc, |sys.pool.info|)
    && ev.fate.Admits() && cfg.owner(b) == Some(p) && !cfg.panics(b)
    && match sys.requests[ev.t].pc
       case Probing(_, _) => sys.requests[ev.t].bearer == b
       case Connecting(e, _) => sys.pool.info[e].latest == b
       case _ => false
  }

  ghost predicate AdmittedDuring(cfg: Config, sys: Sys, events: seq<Event>, b: string, p: Principal)
    decreases |events|
  {
    && events != []
    && (AdmitsIn(cfg, sys, events[0], b, p) || AdmittedDuring(cfg, Step(cfg, sys, events[0]), events[1..], b, p))
  }

  lemma StepsAdmit(cfg: Config, sys: Sys, ev: Event, b: string, p: Principal)
    ensures (b, p) in Step(cfg, sys, ev).proofs <==> (b, p) in sys.proofs || AdmitsIn(cfg, sys, ev, b, p)
  {
    hide Closed, Enter, Locate, Evict, Admit, Bind, Adopt, SetBuild, ServerFor, CloseAll;
  }

  /** The history variable records exactly the admissions the realm has made. */
  lemma {:induction false} EvidenceIsAdmission(cfg: Config, sys: Sys, events: seq<Event>, b: string, p: Principal)
    ensures (b, p) in Exec(cfg, sys, events).proofs <==> (b, p) in sys.proofs || AdmittedDuring(cfg, sys, events, b, p)
    decreases |events|
  {
    hide Step, AdmitsIn;
    if events != [] {
      StepsAdmit(cfg, sys, events[0], b, p);
      EvidenceIsAdmission(cfg, Step(cfg, sys, events[0]), events[1..], b, p);
    }
  }

  /** Only a bearer's owner is ever on record. */
  lemma EvidenceIsTruthful(cfg: Config, events: seq<Event>)
    ensures Truthful(cfg, Exec(cfg, INIT, events).proofs)
  {
    forall b, p | (b, p) in Exec(cfg, INIT, events).proofs
      ensures cfg.owner(b) == Some(p)
    {
      EvidenceIsAdmission(cfg, INIT, events, b, p);
      OnlyOwnersAreAdmitted(cfg, INIT, events, b, p);
    }
  }

  lemma {:induction false} OnlyOwnersAreAdmitted(cfg: Config, sys: Sys, events: seq<Event>, b: string, p: Principal)
    requires AdmittedDuring(cfg, sys, events, b, p)
    ensures cfg.owner(b) == Some(p)
    decreases |events|
  {
    if !AdmitsIn(cfg, sys, events[0], b, p) {
      OnlyOwnersAreAdmitted(cfg, Step(cfg, sys, events[0]), events[1..], b, p);
    }
  }

  // ---- the trust rule ----

  /** The trust rule, for every entry in every run. */
  ghost predicate TrustHolds(cfg: Config) {
    forall events: seq<Event>, e: nat ::
      var sys := Exec(cfg, INIT, events);
      e < |sys.pool.info| ==> Trusted(sys.pool.info[e], sys.proofs)
  }

  /**
   * In every interleaving: the tail and the presented bearer of a built entry were admitted by
   * the realm as that entry's principal, an unbuilt entry has admitted nobody, and bearers and
   * sessions only lead to built entries.
   */
  lemma TrustRule(cfg: Config, events: seq<Event>)
    requires Sound(cfg) && Unconfused(cfg)
    ensures var sys := Exec(cfg, INIT, events);
            && Truthful(cfg, sys.proofs)
            && (forall e | 0 <= e < |sys.pool.info| :: Trusted(sys.pool.info[e], sys.proofs))
            && (forall b | b in sys.pool.byBearer :: ProvenFor(sys.pool, sys.proofs, sys.pool.byBearer[b], b))
            && (forall sid | sid in sys.pool.sessions ::
                  sys.pool.sessions[sid] < |sys.pool.info| && sys.pool.info[sys.pool.sessions[sid]].build.Ready?)
  {
    InitInv(cfg);
    ExecKeepsInv(cfg, INIT, events);
    var sys := Exec(cfg, INIT, events);
    forall e | 0 <= e < |sys.pool.info|
      ensures Trusted(sys.pool.info[e], sys.proofs)
    {
      assert EntryInv(cfg, sys.pool.info[e], sys.proofs);
    }
    forall b | b in sys.pool.byBearer
      ensures ProvenFor(sys.pool, sys.proofs, sys.pool.byBearer[b], b)
    {
      BearersFindBuiltEntries(cfg, sys.pool, sys.proofs, b);
    }
  }

  // ---- isolation ----

  /** Entry e belongs to the owner of this bearer. */
  ghost predicate Owns(cfg: Config, s: State, e: nat, bearer: string) {
    e < |s.info| && s.info[e].build.Ready? && cfg.owner(bearer) == Some(s.info[e].build.who)
  }

  /** The entry and the server this request has been given, if any, are its bearer's own. */
  ghost predicate RightlyServed(cfg: Config, s: State, r: Request) {
    match r.pc
    case Served(e) => Owns(cfg, s, e, r.bearer)
    case Answering(e, server) =>
      Owns(cfg, s, e, r.bearer) && (server.Some? ==> Owns(cfg, s, server.value, r.bearer))
    case Finished(served, server) =>
      && (served.Some? ==> Owns(cfg, s, served.value, r.bearer))
      && (server.Some? ==> Owns(cfg, s, server.value, r.bearer))
    case _ => true
  }

  /** Whatever the schedule, no request is ever given another principal's entry or server. */
  ghost predicate Isolated(cfg: Config) {
    forall events: seq<Event> ::
      var sys := Exec(cfg, INIT, events);
      forall t | t in sys.requests :: RightlyServed(cfg, sys.pool, sys.requests[t])
  }

  lemma RunIsIsolated(cfg: Config, events: seq<Event>)
    requires Sound(cfg) && Unconfused(cfg)
    ensures var sys := Exec(cfg, INIT, events);
            forall t | t in sys.requests :: RightlyServed(cfg, sys.pool, sys.requests[t])
  {
    InitInv(cfg);
    ExecKeepsInv(cfg, INIT, events);
    var sys := Exec(cfg, INIT, events);
    hide PoolInv;
    forall t | t in sys.requests
      ensures RightlyServed(cfg, sys.pool, sys.requests[t])
    {
      assert RequestInv(cfg, sys.pool, sys.proofs, t, sys.requests[t]);
    }
  }

  /** At any moment of any run, serverFor finds only a live entry of the bearer's own principal. */
  lemma LookupIsLiveAndOwn(cfg: Config, events: seq<Event>, bearer: string)
    requires Sound(cfg) && Unconfused(cfg)
    ensures var s := Exec(cfg, INIT, events).pool;
            && Closed(s)
            && (ServerFor(s, bearer).Some? ==>
                  Owns(cfg, s, ServerFor(s, bearer).value, bearer) && AliveAt(s, ServerFor(s, bearer).value))
  {
    InitInv(cfg);
    ExecKeepsInv(cfg, INIT, events);
    var sys := Exec(cfg, INIT, events);
    LookupFair(cfg, sys.pool, sys.proofs, 0, Request(bearer, "", Refused));
  }

  // ---- non-interference ----

  /**
   * In this event entry e's connection does not die, the node does not close, and if a request
   * steps, its bearer has not been admitted as e's principal (nor founded e).
   */
  ghost predicate StrangeTo(cfg: Config, sys: Sys, ev: Event, e: nat) {
    && e < |sys.pool.info|
    && ev != Die(e) && ev != Close
    && (ev.Run? && ev.t in sys.requests ==>
          Stranger(cfg, sys.pool.info[e], sys.requests[ev.t].bearer, Step(cfg, sys, ev).proofs))
  }

  ghost predicate OnlyStrangers(cfg: Config, sys: Sys, events: seq<Event>, e: nat)
    decreases |events|
  {
    events != [] ==> StrangeTo(cfg, sys, events[0], e) && OnlyStrangers(cfg, Step(cfg, sys, events[0]), events[1..], e)
  }

  lemma RunSpares(cfg: Config, sys: Sys, t: nat, fate: Fate, minted: string, e: nat)
    requires Sound(cfg) && Unconfused(cfg) && SysInv(cfg, sys) && t in sys.requests
    requires e < |sys.pool.info| && AliveAt(sys.pool, e)
    requires Stranger(cfg, sys.pool.info[e], sys.requests[t].bearer, Step(cfg, sys, Run(t, fate, minted)).proofs)
    ensures SameFor(sys.pool, Step(cfg, sys, Run(t, fate, minted)).pool, e)
  {
    AdvanceFair(cfg, sys.pool, sys.proofs, t, sys.requests[t], fate, minted);
    hide PoolInv, Evolves, Stranger, SameFor, KeepsLiveBindings, Advance, RequestInv;
  }

  lemma StepSpares(cfg: Config, sys: Sys, ev: Event, e: nat)
    requires Sound(cfg) && Unconfused(cfg) && SysInv(cfg, sys)
    requires e < |sys.pool.info| && AliveAt(sys.pool, e) && StrangeTo(cfg, sys, ev, e)
    ensures SameFor(sys.pool, Step(cfg, sys, ev).pool, e)
  {
    hide SysInv, Advance, Stranger, Closed;
    if ev.Run? && ev.t in sys.requests {
      RunSpares(cfg, sys, ev.t, ev.fate, ev.minted, e);
    }
  }

  /**
   * A live or still-building entry is untouched by any run of strangers, whatever hints their
   * bearers carry: same fields, same routes, same bearers, same sessions.
   */
  lemma {:induction false} StrangersDoNotInterfere(cfg: Config, sys: Sys, events: seq<Event>, e: nat)
    requires Sound(cfg) && Unconfused(cfg) && SysInv(cfg, sys)
    requires e < |sys.pool.info| && AliveAt(sys.pool, e) && OnlyStrangers(cfg, sys, events, e)
    ensures SameFor(sys.pool, Exec(cfg, sys, events).pool, e)
    decreases |events|
  {
    hide SysInv;
    if events != [] {
      var sys' := Step(cfg, sys, events[0]);
      StepKeepsInv(cfg, sys, events[0]);
      StepSpares(cfg, sys, events[0], e);
      StrangersDoNotInterfere(cfg, sys', events[1..], e);
    }
  }

  /** Another principal's bearer is a stranger, and so is one the realm has refused throughout. */
  lemma WhoIsAStranger(cfg: Config, i: EntryState, b: string, proofs: Evidence)
    requires Truthful(cfg, proofs) && (i.Unbuilt() ==> b != i.latest)
    requires || (forall p :: (b, p) !in proofs)
             || (i.build.Ready? && cfg.owner(b) != Some(i.build.who))
             || (i.Unbuilt() && cfg.owner(b) != cfg.owner(i.latest))
    ensures Stranger(cfg, i, b, proofs)
  {
  }

  // ---- sessions decide who may serve ----

  /** The request is with entry e, or has come to nothing. */
  ghost predicate OnlyWith(pc: Pc, e: nat) {
    match pc
    case Adopting(f) => f == e
    case Probing(f, bound) => f == e && bound
    case Comparing(f, bound, _) => f == e && bound
    case Admitting(f, bound) => f == e && bound
    case Served(f) => f == e
    case Answering(f, _) => f == e
    case Finished(served, _) => served == None || served == Some(e)
    case Refused => true
    case _ => false
  }

  lemma {:induction false} StaysWith(cfg: Config, sys: Sys, events: seq<Event>, t: nat, e: nat)
    requires t in sys.requests && OnlyWith(sys.requests[t].pc, e)
    ensures t in Exec(cfg, sys, events).requests && OnlyWith(Exec(cfg, sys, events).requests[t].pc, e)
    decreases |events|
  {
    if events != [] {
      StaysWith(cfg, Step(cfg, sys, events[0]), events[1..], t, e);
    }
  }

  /**
   * A request that enters while its session is bound to a live entry is served by that entry or by
   * nobody, whatever happens meanwhile: if the entry dies, if it is evicted, if the session is taken.
   */
  lemma SessionDecidesWhoServes(cfg: Config, sys: Sys, t: nat, fate: Fate, minted: string, events: seq<Event>)
    requires Closed(sys.pool) && t in sys.requests && sys.requests[t].pc.Entering?
    requires BoundLive(sys.pool, sys.requests[t].sid)
    ensures var sys' := Exec(cfg, Step(cfg, sys, Run(t, fate, minted)), events);
            t in sys'.requests && OnlyWith(sys'.requests[t].pc, sys.pool.sessions[sys.requests[t].sid])
  {
    StaysWith(cfg, Step(cfg, sys, Run(t, fate, minted)), events, t, sys.pool.sessions[sys.requests[t].sid]);
  }
}
