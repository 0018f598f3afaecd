/**
 * What is left, with requests in flight, of what holds between calls. Live entries stay reachable
 * under their keys. Bearers may be filed under entries that have died and been evicted meanwhile,
 * and the last part says by which steps. An entry may present a bearer that is not its freshest.
 */
module InFlight {
  import opened Wrappers
  import opened Grants
  import opened Routing
  import opened PoolSpec
  import opened PoolInvariants
  import opened Interleaving
  import opened Structure
  import opened KeyCollisions
  import opened SoloRuns
  import opened RoutingAndSessions
  import S = Sequential
  import T = SequentialSpec

  // ---- live entries are found under their keys ----

  lemma EvictKeepsIndexed(s: State, e: nat, o: nat)
    requires IndexInv(s) && e < |s.info| && o < |s.info| && o != e
    ensures S.Indexed(Evict(s, e), o) <==> S.Indexed(s, o)
  {
  }

  lemma NewEntryKeepsIndexed(s: State, key: string, b: string, o: nat)
    requires key !in s.entries && o < |s.info|
    ensures S.Indexed(NewEntry(s, key, b), o) <==> S.Indexed(s, o)
  {
  }

  /** Locating a key keeps every entry where it is, but for a corpse under that key. */
  lemma LocateKeepsIndexed(s: State, key: string, b: string, o: nat)
    requires IndexInv(s) && o < |s.info|
    requires AliveAt(s, o) || !(key in s.entries && s.entries[key] == o)
    ensures S.Indexed(Locate(s, key, b).0, o) <==> S.Indexed(s, o)
  {
    hide IndexInv, S.Indexed, Evict, NewEntry;
    IndexIsClosed(s);
    if key in s.entries && !AliveAt(s, s.entries[key]) {
      EvictKeepsIndexed(s, s.entries[key], o);
      EvictKeepsIndex(s, s.entries[key]);
      FreeKey(s, key);
      NewEntryKeepsIndexed(Evict(s, s.entries[key]), key, b, o);
    } else if key !in s.entries {
      NewEntryKeepsIndexed(s, key, b, o);
    }
  }

  /** Entries have one key each, and the live ones are found under theirs. */
  ghost predicate LiveAreIndexed(s: State) {
    forall e | 0 <= e < |s.info| :: |s.info[e].keys| == 1 && (AliveAt(s, e) ==> S.Indexed(s, e))
  }

  lemma EvictKeepsLive(s: State, e: nat)
    requires IndexInv(s) && LiveAreIndexed(s) && e < |s.info| && !AliveAt(s, e)
    ensures IndexInv(Evict(s, e)) && LiveAreIndexed(Evict(s, e))
  {
    hide S.Indexed;
    EvictKeepsIndex(s, e);
    forall o | 0 <= o < |s.info| && o != e
      ensures S.Indexed(Evict(s, e), o) <==> S.Indexed(s, o)
    {
      EvictKeepsIndexed(s, e, o);
    }
  }

  lemma LocateKeepsLive(s: State, key: string, b: string)
    requires IndexInv(s) && LiveAreIndexed(s)
    ensures LiveAreIndexed(Locate(s, key, b).0)
  {
    var s' := Locate(s, key, b).0;
    forall o | 0 <= o < |s'.info|
      ensures |s'.info[o].keys| == 1 && (AliveAt(s', o) ==> S.Indexed(s', o))
    {
      if o < |s.info| && AliveAt(s, o) {
        LocateKeepsIndexed(s, key, b, o);
      }
    }
  }

  lemma EnterByHintKeepsLive(s: State, b: string, hint: string)
    requires IndexInv(s) && LiveAreIndexed(s)
    ensures LiveAreIndexed(EnterByHint(s, b, hint).0)
  {
    LocateKeepsLive(s, hint, b);
  }

  lemma EnterUnboundKeepsLive(s: State, b: string, sid: string, hint: string)
    requires IndexInv(s) && LiveAreIndexed(s)
    ensures LiveAreIndexed(EnterUnbound(s, b, sid, hint).0)
  {
    hide EnterByHint, Evict, IndexInv;
    IndexIsClosed(s);
    if b in s.byBearer && !AliveAt(s, s.byBearer[b]) {
      EvictKeepsLive(s, s.byBearer[b]);
      EnterByHintKeepsLive(Evict(s, s.byBearer[b]), b, hint);
    } else if b !in s.byBearer {
      EnterByHintKeepsLive(s, b, hint);
    }
  }

  lemma EnterKeepsLive(s: State, b: string, sid: string, hint: string)
    requires IndexInv(s) && Closed(s) && LiveAreIndexed(s)
    ensures LiveAreIndexed(Enter(s, b, sid, hint).0)
  {
    hide EnterUnbound, Evict, IndexInv, LiveAreIndexed;
    if !BoundLive(s, sid) {
      if sid != "" && sid in s.sessions {
        EvictKeepsLive(s, s.sessions[sid]);
        EnterUnboundKeepsLive(Evict(s, s.sessions[sid]), b, sid, hint);
      } else {
        EnterUnboundKeepsLive(s, b, sid, hint);
      }
    }
  }

  /** Steps that neither touch the routes nor revive anything. */
  lemma SameRoutesKeepLive(s: State, s': State)
    requires LiveAreIndexed(s) && s'.entries == s.entries && |s'.info| == |s.info|
    requires forall e | 0 <= e < |s.info| :: s'.info[e].keys == s.info[e].keys && (AliveAt(s', e) ==> AliveAt(s, e))
    ensures LiveAreIndexed(s')
  {
  }

  /** The steps of a request that leave the routes alone. */
  predicate LeavesRoutes(pc: Pc) {
    !pc.Entering? && !pc.Ensuring? && !pc.Evicting?
  }

  lemma LeavingRoutes(cfg: Config, s: State, t: nat, r: Request, fate: Fate, minted: string)
    requires Closed(s) && InRange(r.pc, |s.info|) && LeavesRoutes(r.pc)
    requires r.pc.Connecting? || r.pc.Dialed? ==> AliveAt(s, r.pc.e)
    ensures var s' := Advance(cfg, s, t, r, fate, minted).0;
            && s'.entries == s.entries && |s'.info| == |s.info|
            && (!r.pc.Founding? && !r.pc.Admitting? ==> s'.byBearer == s.byBearer)
            && (!r.pc.Founding? && !r.pc.Admitting? && !r.pc.Answering? ==> s'.sessions == s.sessions)
            && forall e | 0 <= e < |s.info| :: s'.info[e].keys == s.info[e].keys && (AliveAt(s', e) ==> AliveAt(s, e))
  {
    hide Admit, Proves, ServerFor;
    if r.pc.Founding? || r.pc.Admitting? {
      AdmitLeavesRoutes(s, r.pc.e, r.bearer);
    }
  }

  lemma AdmitLeavesRoutes(s: State, e: nat, b: string)
    requires e < |s.info|
    ensures var s' := Admit(s, e, b);
            && s'.entries == s.entries && |s'.info| == |s.info|
            && forall o | 0 <= o < |s.info| :: s'.info[o].keys == s.info[o].keys && s'.info[o].build == s.info[o].build
  {
    hide Trim;
  }

  lemma RunKeepsLive(cfg: Config, sys: Sys, t: nat, fate: Fate, minted: string)
    requires StructInv(sys) && LiveAreIndexed(sys.pool) && t in sys.requests
    ensures LiveAreIndexed(Step(cfg, sys, Run(t, fate, minted)).pool)
  {
    hide LiveAreIndexed, IndexInv, Enter, Locate, Evict;
    var s, r := sys.pool, sys.requests[t];
    IndexIsClosed(s);
    assert Placed(s, t, r);
    match r.pc {
      case Entering => EnterKeepsLive(s, r.bearer, r.sid, cfg.hint(r.bearer));
      case Ensuring(who) => LocateKeepsLive(s, PrincipalKey(who), r.bearer);
      case Evicting(e) => EvictKeepsLive(s, e);
      case _ =>
        if InRange(r.pc, |s.info|) {
          LeavingRoutes(cfg, s, t, r, fate, minted);
          SameRoutesKeepLive(s, Advance(cfg, s, t, r, fate, minted).0);
        }
    }
  }

  lemma StepKeepsLive(cfg: Config, sys: Sys, ev: Event)
    requires StructInv(sys) && LiveAreIndexed(sys.pool) && ev != Close
    ensures LiveAreIndexed(Step(cfg, sys, ev).pool)
  {
    hide StructInv, Advance, LiveAreIndexed, S.Indexed;
    match ev {
      case Run(t, fate, minted) =>
        if t in sys.requests {
          RunKeepsLive(cfg, sys, t, fate, minted);
        }
      case Die(e) => SameRoutesKeepLive(sys.pool, Step(cfg, sys, ev).pool);
      case _ =>
    }
  }

  lemma {:induction false} ExecKeepsLive(cfg: Config, sys: Sys, events: seq<Event>)
    requires NamesPrincipals(cfg.owner) && StructInv(sys) && LiveAreIndexed(sys.pool) && Close !in events
    ensures LiveAreIndexed(Exec(cfg, sys, events).pool)
    decreases |events|
  {
    hide Sturdy, Placed, LiveAreIndexed, Step, NamesPrincipals;
    SturdyIsClosed(sys.pool);
    if events != [] {
      StepKeepsStructure(cfg, sys, events[0]);
      StepKeepsLive(cfg, sys, events[0]);
      ExecKeepsLive(cfg, Step(cfg, sys, events[0]), events[1..]);
    }
  }

  /**
   * In every interleaving without a shutdown each live or still-building entry is found under its
   * key, so that no open pooled connection is out of reach.
   */
  lemma NoConnectionIsLost(cfg: Config, events: seq<Event>, e: nat)
    requires NamesPrincipals(cfg.owner) && Close !in events
    requires e < |Exec(cfg, INIT, events).pool.info| && AliveAt(Exec(cfg, INIT, events).pool, e)
    ensures var s := Exec(cfg, INIT, events).pool;
            exists k :: s.info[e].keys == [k] && k in s.entries && s.entries[k] == e
  {
    InitIsSturdy();
    ExecKeepsLive(cfg, INIT, events);
    var s := Exec(cfg, INIT, events).pool;
    assert s.info[e].keys == [s.info[e].keys[0]];
  }

  // ---- where the bearer and session indexes lose agreement ----

  /** Every name leads to an indexed entry. */
  ghost predicate LeadToIndexed(s: State, names: map<string, nat>) {
    forall x | x in names :: S.Indexed(s, names[x])
  }

  /** Bearers are filed under indexed entries only. */
  ghost predicate BearersAreIndexed(s: State) {
    LeadToIndexed(s, s.byBearer)
  }

  /** Sessions are bound to indexed entries only. */
  ghost predicate SessionsAreIndexed(s: State) {
    LeadToIndexed(s, s.sessions)
  }

  /** Neither index loses agreement. */
  ghost predicate KeepsAgreement(s: State, s': State) {
    && (BearersAreIndexed(s) ==> BearersAreIndexed(s'))
    && (SessionsAreIndexed(s) ==> SessionsAreIndexed(s'))
  }

  lemma EvictKeepsAgreement(s: State, e: nat)
    requires IndexInv(s) && e < |s.info|
    ensures IndexInv(Evict(s, e)) && KeepsAgreement(s, Evict(s, e))
  {
    hide S.Indexed;
    EvictKeepsIndex(s, e);
    forall o | 0 <= o < |s.info| && o != e
      ensures S.Indexed(Evict(s, e), o) <==> S.Indexed(s, o)
    {
      EvictKeepsIndexed(s, e, o);
    }
  }

  lemma NewEntryKeepsAgreement(s: State, key: string, b: string)
    requires Closed(s) && key !in s.entries
    ensures KeepsAgreement(s, NewEntry(s, key, b))
  {
    hide S.Indexed;
    forall o | 0 <= o < |s.info|
      ensures S.Indexed(NewEntry(s, key, b), o) <==> S.Indexed(s, o)
    {
      NewEntryKeepsIndexed(s, key, b, o);
    }
  }

  lemma LocateKeepsAgreement(s: State, key: string, b: string)
    requires IndexInv(s)
    ensures KeepsAgreement(s, Locate(s, key, b).0)
  {
    hide S.Indexed, Evict, NewEntry, BearersAreIndexed, SessionsAreIndexed;
    if key in s.entries && !AliveAt(s, s.entries[key]) {
      var e := s.entries[key];
      EvictKeepsAgreement(s, e);
      FreeKey(s, key);
      NewEntryKeepsAgreement(Evict(s, e), key, b);
    } else if key !in s.entries {
      NewEntryKeepsAgreement(s, key, b);
    }
  }

  /** Steps that leave the routes and one of the indexes alone. */
  lemma SameRoutesKeepNames(s: State, s': State, names: map<string, nat>)
    requires s'.entries == s.entries && |s'.info| == |s.info|
    requires forall e | 0 <= e < |s.info| :: s'.info[e].keys == s.info[e].keys
    requires forall x | x in names :: names[x] < |s.info|
    ensures LeadToIndexed(s', names) <==> LeadToIndexed(s, names)
  {
    forall x | x in names
      ensures S.Indexed(s', names[x]) <==> S.Indexed(s, names[x])
    {
    }
  }

  /** Binding keeps sessions indexed exactly if there is nothing to bind or the entry is indexed. */
  lemma BindKeepsSessionsExactly(s: State, sid: string, e: nat)
    requires Closed(s) && SessionsAreIndexed(s) && e < |s.info|
    ensures SessionsAreIndexed(Bind(s, sid, e)) <==> sid == "" || sid in s.sessions || S.Indexed(s, e)
    ensures BearersAreIndexed(Bind(s, sid, e)) <==> BearersAreIndexed(s)
  {
    var s' := Bind(s, sid, e);
    SameRoutesKeepNames(s, s', s.sessions);
    SameRoutesKeepNames(s, s', s.byBearer);
    if sid != "" && sid !in s.sessions {
      assert s'.sessions[sid] == e;
      assert S.Indexed(s', e) <==> S.Indexed(s, e);
      assert forall x | x in s.sessions :: x in s'.sessions && s'.sessions[x] == s.sessions[x];
    }
  }

  /** Admitting keeps the bearers indexed exactly if the entry is, or has the bearer in its tail already. */
  lemma AdmitKeepsBearersExactly(s: State, e: nat, b: string)
    requires IndexInv(s) && BearersAreIndexed(s) && e < |s.info| && |s.info[e].admitted| <= KEEP
    ensures BearersAreIndexed(Admit(s, e, b)) <==> S.Indexed(s, e) || b in s.info[e].admitted
  {
    if b !in s.info[e].admitted {
      AdmitEffect(s, e, b);
      var s' := Admit(s, e, b);
      assert b in s'.byBearer && s'.byBearer[b] == e;
      forall o | 0 <= o < |s.info|
        ensures S.Indexed(s', o) <==> S.Indexed(s, o)
      {
      }
    }
  }

  /** Admitting touches neither the routes nor the sessions. */
  lemma AdmitKeepsSessionsIndexed(s: State, e: nat, b: string)
    requires Closed(s) && e < |s.info|
    ensures Closed(Admit(s, e, b)) && |Admit(s, e, b).info| == |s.info| && Admit(s, e, b).sessions == s.sessions
    ensures SessionsAreIndexed(Admit(s, e, b)) <==> SessionsAreIndexed(s)
    ensures S.Indexed(Admit(s, e, b), e) <==> S.Indexed(s, e)
  {
    hide Admit;
    AdmitClosed(s, e, b);
    AdmitLeavesRoutes(s, e, b);
    T.AdmitKeepsSessions(s, e, b);
    SameRoutesKeepNames(s, Admit(s, e, b), s.sessions);
  }

  // ---- the first critical section of resolve ----

  /** The request is not on a live session, and its bearer is found at a live entry that has left the index. */
  ghost predicate FindsUnindexed(s: State, r: Request) {
    && Closed(s) && !BoundLive(s, r.sid)
    && r.bearer in s.byBearer && AliveAt(s, s.byBearer[r.bearer]) && !S.Indexed(s, s.byBearer[r.bearer])
  }

  lemma EnterUnboundKeepsAgreement(s: State, b: string, sid: string, hint: string)
    requires IndexInv(s) && (sid == "" || sid !in s.sessions)
    ensures BearersAreIndexed(s) ==> BearersAreIndexed(EnterUnbound(s, b, sid, hint).0)
    ensures SessionsAreIndexed(s) ==>
              (SessionsAreIndexed(EnterUnbound(s, b, sid, hint).0) <==>
               sid == "" || !FindsUnindexed(s, Request(b, sid, Entering)))
  {
    hide Locate, Evict, IndexInv, S.Indexed, BearersAreIndexed, SessionsAreIndexed;
    IndexIsClosed(s);
    if b in s.byBearer && AliveAt(s, s.byBearer[b]) {
      if SessionsAreIndexed(s) {
        BindKeepsSessionsExactly(s, sid, s.byBearer[b]);
      } else {
        BindKeepsBearers(s, sid, s.byBearer[b]);
      }
    } else if b in s.byBearer {
      EvictKeepsAgreement(s, s.byBearer[b]);
      LocateKeepsAgreement(Evict(s, s.byBearer[b]), hint, b);
    } else {
      LocateKeepsAgreement(s, hint, b);
    }
  }

  lemma BindKeepsBearers(s: State, sid: string, e: nat)
    requires Closed(s)
    ensures BearersAreIndexed(Bind(s, sid, e)) <==> BearersAreIndexed(s)
  {
    SameRoutesKeepNames(s, Bind(s, sid, e), s.byBearer);
  }

  /** Evicting the corpse of a session frees the session and changes nothing about live entries. */
  lemma FreesSession(s: State, r: Request)
    requires IndexInv(s) && r.sid in s.sessions && s.sessions[r.sid] < |s.info| && !AliveAt(s, s.sessions[r.sid])
    ensures var s1 := Evict(s, s.sessions[r.sid]);
            r.sid !in s1.sessions && (FindsUnindexed(s1, r) <==> FindsUnindexed(s, r))
  {
    var e := s.sessions[r.sid];
    EvictKeepsIndex(s, e);
    if r.bearer in s.byBearer && s.byBearer[r.bearer] != e {
      EvictKeepsIndexed(s, e, s.byBearer[r.bearer]);
    }
  }

  lemma EnterKeepsAgreement(s: State, r: Request, hint: string)
    requires IndexInv(s) && Closed(s)
    ensures BearersAreIndexed(s) ==> BearersAreIndexed(Enter(s, r.bearer, r.sid, hint).0)
    ensures SessionsAreIndexed(s) ==>
              (SessionsAreIndexed(Enter(s, r.bearer, r.sid, hint).0) <==> r.sid == "" || !FindsUnindexed(s, r))
  {
    hide EnterUnbound, Evict, IndexInv, S.Indexed, BearersAreIndexed, SessionsAreIndexed;
    if !BoundLive(s, r.sid) {
      if r.sid != "" && r.sid in s.sessions {
        var s1 := Evict(s, s.sessions[r.sid]);
        FreesSession(s, r);
        EvictKeepsAgreement(s, s.sessions[r.sid]);
        EnterUnboundKeepsAgreement(s1, r.bearer, r.sid, hint);
      } else {
        EnterUnboundKeepsAgreement(s, r.bearer, r.sid, hint);
      }
    }
  }

  // ---- every step ----

  /** This event admits a bearer to an entry it is not in the tail of, after the entry has left the index. */
  ghost predicate AdmitsLate(sys: Sys, ev: Event) {
    && ev.Run? && ev.t in sys.requests
    && var r := sys.requests[ev.t];
       && (r.pc.Founding? || r.pc.Admitting?) && r.pc.e < |sys.pool.info|
       && !S.Indexed(sys.pool, r.pc.e) && r.bearer !in sys.pool.info[r.pc.e].admitted
  }

  /** A session id that can be bound. */
  predicate Free(s: State, sid: string) {
    sid != "" && sid !in s.sessions
  }

  /**
   * This event binds a session to an entry that has left the index: after an admission, on capture,
   * or because the bearer is found there.
   */
  ghost predicate BindsLate(sys: Sys, ev: Event) {
    && ev.Run? && ev.t in sys.requests
    && var s, r := sys.pool, sys.requests[ev.t];
       match r.pc
       case Entering => r.sid != "" && FindsUnindexed(s, r)
       case Founding(e) => Free(s, r.sid) && !S.Indexed(s, e)
       case Admitting(e, bound) => !bound && Free(s, r.sid) && !S.Indexed(s, e)
       case Answering(e, _) => r.sid == "" && Free(s, ev.minted) && !S.Indexed(s, e)
       case _ => false
  }

  /** Admitting and binding: each index goes by its own rule. */
  lemma AdmissionsGoByRule(cfg: Config, sys: Sys, t: nat, fate: Fate, minted: string)
    requires StructInv(sys) && t in sys.requests && (sys.requests[t].pc.Founding? || sys.requests[t].pc.Admitting?)
    ensures var s' := Step(cfg, sys, Run(t, fate, minted)).pool;
            && (BearersAreIndexed(sys.pool) ==> (BearersAreIndexed(s') <==> !AdmitsLate(sys, Run(t, fate, minted))))
            && (SessionsAreIndexed(sys.pool) ==> (SessionsAreIndexed(s') <==> !BindsLate(sys, Run(t, fate, minted))))
  {
    hide BearersAreIndexed, SessionsAreIndexed, S.Indexed, Admit, Bind, IndexInv;
    var s, r := sys.pool, sys.requests[t];
    assert Placed(s, t, r);
    IndexIsClosed(s);
    var e, s1 := r.pc.e, Admit(s, r.pc.e, r.bearer);
    AdmitKeepsSessionsIndexed(s, e, r.bearer);
    if BearersAreIndexed(s) {
      AdmitKeepsBearersExactly(s, e, r.bearer);
    }
    BindKeepsBearers(s1, r.sid, e);
    if SessionsAreIndexed(s) {
      BindKeepsSessionsExactly(s1, r.sid, e);
    }
  }

  /** The capture binds, and admits nobody. */
  lemma CapturesGoByRule(cfg: Config, sys: Sys, t: nat, fate: Fate, minted: string)
    requires StructInv(sys) && t in sys.requests && sys.requests[t].pc.Answering?
    ensures var s' := Step(cfg, sys, Run(t, fate, minted)).pool;
            && (BearersAreIndexed(sys.pool) <==> BearersAreIndexed(s'))
            && (SessionsAreIndexed(sys.pool) ==> (SessionsAreIndexed(s') <==> !BindsLate(sys, Run(t, fate, minted))))
  {
    hide BearersAreIndexed, SessionsAreIndexed, S.Indexed, Bind, IndexInv;
    var s, r := sys.pool, sys.requests[t];
    assert Placed(s, t, r);
    IndexIsClosed(s);
    BindKeepsBearers(s, minted, r.pc.e);
    if SessionsAreIndexed(s) {
      BindKeepsSessionsExactly(s, minted, r.pc.e);
    }
  }

  /** The other steps that leave the routes alone leave both indexes alone. */
  lemma SameRoutesKeepAgreement(s: State, s': State)
    requires Closed(s) && s'.entries == s.entries && s'.byBearer == s.byBearer && s'.sessions == s.sessions
    requires |s'.info| == |s.info| && forall e | 0 <= e < |s.info| :: s'.info[e].keys == s.info[e].keys
    ensures BearersAreIndexed(s') <==> BearersAreIndexed(s)
    ensures SessionsAreIndexed(s') <==> SessionsAreIndexed(s)
  {
    SameRoutesKeepNames(s, s', s.byBearer);
    SameRoutesKeepNames(s, s', s.sessions);
  }

  lemma OtherStepsGoByRule(cfg: Config, sys: Sys, t: nat, fate: Fate, minted: string)
    requires StructInv(sys) && t in sys.requests
    requires !sys.requests[t].pc.Founding? && !sys.requests[t].pc.Admitting? && !sys.requests[t].pc.Answering?
    ensures var s' := Step(cfg, sys, Run(t, fate, minted)).pool;
            && (BearersAreIndexed(sys.pool) ==> BearersAreIndexed(s'))
            && (SessionsAreIndexed(sys.pool) ==> (SessionsAreIndexed(s') <==> !BindsLate(sys, Run(t, fate, minted))))
  {
    hide BearersAreIndexed, SessionsAreIndexed, FindsUnindexed, IndexInv, Enter, Locate, Evict, Proves, ServerFor;
    var s, r := sys.pool, sys.requests[t];
    IndexIsClosed(s);
    assert Placed(s, t, r);
    match r.pc {
      case Entering => EnterKeepsAgreement(s, r, cfg.hint(r.bearer));
      case Ensuring(who) => LocateKeepsAgreement(s, PrincipalKey(who), r.bearer);
      case Evicting(e) => EvictKeepsAgreement(s, e);
      case Founding(_) =>
      case Admitting(_, _) =>
      case Answering(_, _) =>
      case _ =>
        LeavingRoutes(cfg, s, t, r, fate, minted);
        SameRoutesKeepAgreement(s, Advance(cfg, s, t, r, fate, minted).0);
    }
  }

  lemma NoNames(s: State)
    requires s.byBearer == map[] && s.sessions == map[]
    ensures BearersAreIndexed(s) && SessionsAreIndexed(s)
  {
  }

  lemma StepsGoByRule(cfg: Config, sys: Sys, ev: Event)
    requires StructInv(sys)
    ensures var s' := Step(cfg, sys, ev).pool;
            && (BearersAreIndexed(sys.pool) ==> (BearersAreIndexed(s') <==> !AdmitsLate(sys, ev)))
            && (SessionsAreIndexed(sys.pool) ==> (SessionsAreIndexed(s') <==> !BindsLate(sys, ev)))
  {
    hide StructInv, Advance, BearersAreIndexed, SessionsAreIndexed, S.Indexed;
    match ev {
      case Run(t, fate, minted) =>
        if t in sys.requests {
          var pc := sys.requests[t].pc;
          if pc.Founding? || pc.Admitting? {
            AdmissionsGoByRule(cfg, sys, t, fate, minted);
          } else if pc.Answering? {
            CapturesGoByRule(cfg, sys, t, fate, minted);
          } else {
            OtherStepsGoByRule(cfg, sys, t, fate, minted);
          }
        }
      case Die(e) =>
        if Closed(sys.pool) {
          SameRoutesKeepAgreement(sys.pool, Step(cfg, sys, ev).pool);
        }
      case Close => NoNames(CloseAll(sys.pool));
      case _ =>
    }
  }

  /**
   * While bearers are filed under indexed entries only, one step ends that if and only if it admits
   * a bearer to an entry that has left the index and does not have it in its tail.
   */
  lemma AgreementEndsExactly(cfg: Config, sys: Sys, ev: Event)
    requires StructInv(sys) && BearersAreIndexed(sys.pool)
    ensures BearersAreIndexed(Step(cfg, sys, ev).pool) <==> !AdmitsLate(sys, ev)
  {
    hide StructInv, Step, BearersAreIndexed, SessionsAreIndexed, AdmitsLate, BindsLate;
    StepsGoByRule(cfg, sys, ev);
  }

  /**
   * While sessions are bound to indexed entries only, one step ends that if and only if it binds a
   * free session to an entry that has left the index.
   */
  lemma SessionAgreementEndsExactly(cfg: Config, sys: Sys, ev: Event)
    requires StructInv(sys) && SessionsAreIndexed(sys.pool)
    ensures SessionsAreIndexed(Step(cfg, sys, ev).pool) <==> !BindsLate(sys, ev)
  {
    hide StructInv, Step, BearersAreIndexed, SessionsAreIndexed, AdmitsLate, BindsLate;
    StepsGoByRule(cfg, sys, ev);
  }

  /** The pool when b's first entry has been built, has died, and has been replaced. */
  function Replaced(hint: string, b: string, p: Principal): State {
    State(map[hint := 1], map[], map[],
          [EntryState([hint], b, [], Ready(p, false)), EntryState([hint], b, [], Pending)])
  }

  /** A request built the entry but has not yet filed its bearer when the connection dies and another request comes. */
  lemma EvictedBeforeAdmission(cfg: Config, b: string, p: Principal) returns (events: seq<Event>, sys: Sys)
    requires Regular(cfg) && cfg.owner(b) == Some(p)
    ensures Exec(cfg, INIT, events) == sys && sys.pool == Replaced(cfg.hint(b), b, p)
    ensures 0 in sys.requests && sys.requests[0] == Request(b, "", Founding(0))
  {
    hide Solo, Enter, S.Connect;
    var hint := cfg.hint(b);
    EntersBuild(EMPTY, b, hint);
    var s1 := NewEntry(EMPTY, hint, b);
    events, sys := Arrives(cfg, [], INIT, 0, b);
    var more, sys1 := Continue(cfg, sys, 0, [], sys, EMPTY, Entering, Fine, s1, Building(0, None));
    more, sys1 := SoloBuild(cfg, sys, 0, more, sys1, s1, 0, None, Fine);
    var s2 := BuiltAlone(cfg, b, p);
    more, sys1 := Continue(cfg, sys, 0, more, sys1, s2, Building(0, None), Fine, s2, Founding(0));
    Joins(cfg, events, sys, 0, more, sys1, s2, Founding(0));
    events, sys := DiesAndReturns(cfg, events + more, sys1, b, p);
  }

  /** The first build of b's entry, with nothing else in the pool. */
  lemma BuiltAlone(cfg: Config, b: string, p: Principal) returns (s: State)
    requires Regular(cfg) && cfg.owner(b) == Some(p)
    ensures s == S.Connect(cfg, NewEntry(EMPTY, cfg.hint(b), b), 0, Fine)
    ensures s == State(map[cfg.hint(b) := 0], map[], map[], [EntryState([cfg.hint(b)], b, [], Ready(p, true))])
  {
    s := S.Connect(cfg, NewEntry(EMPTY, cfg.hint(b), b), 0, Fine);
  }

  /** What b finds when it is sent again after its entry's death: it evicts the corpse and founds another. */
  lemma EntersReplacement(hint: string, b: string, p: Principal)
    ensures var dead := State(map[hint := 0], map[], map[], [EntryState([hint], b, [], Ready(p, false))]);
            Closed(dead) && Enter(dead, b, "", hint) == (Replaced(hint, b, p), ToBuild(1))
  {
    var dead := State(map[hint := 0], map[], map[], [EntryState([hint], b, [], Ready(p, false))]);
    assert Evict(dead, 0) == State(map[], map[], map[], dead.info);
    assert NewEntry(Evict(dead, 0), hint, b) == Replaced(hint, b, p);
  }

  lemma Dies(cfg: Config, events: seq<Event>, sys: Sys, key: string, b: string, p: Principal)
    returns (events': seq<Event>, sys': Sys)
    requires Exec(cfg, INIT, events) == sys
    requires sys.pool == State(map[key := 0], map[], map[], [EntryState([key], b, [], Ready(p, true))])
    ensures Exec(cfg, INIT, events') == sys' && sys'.requests == sys.requests
    ensures sys'.pool == State(map[key := 0], map[], map[], [EntryState([key], b, [], Ready(p, false))])
  {
    hide Advance;
    events', sys' := events + [Die(0)], Step(cfg, sys, Die(0));
    ExecSnoc(cfg, INIT, events, Die(0));
  }

  /** The connection dies and b is sent again: the corpse is evicted and replaced. */
  lemma DiesAndReturns(cfg: Config, events: seq<Event>, sys: Sys, b: string, p: Principal)
    returns (events': seq<Event>, sys': Sys)
    requires Exec(cfg, INIT, events) == sys && b != "" && sys.requests.Keys == {0}
    requires sys.pool == State(map[cfg.hint(b) := 0], map[], map[], [EntryState([cfg.hint(b)], b, [], Ready(p, true))])
    ensures Exec(cfg, INIT, events') == sys' && sys'.pool == Replaced(cfg.hint(b), b, p)
    ensures 0 in sys'.requests && sys'.requests[0] == sys.requests[0]
  {
    hide Solo, Enter, Replaced;
    EntersReplacement(cfg.hint(b), b, p);
    events', sys' := Dies(cfg, events, sys, cfg.hint(b), b, p);
    var dead := sys'.pool;
    events', sys' := Arrives(cfg, events', sys', 1, b);
    assert sys'.pool == dead by { Arrived(cfg, sys', 1, dead); }
    events', sys' := Extend(cfg, INIT, events', sys', 1, Fine, Replaced(cfg.hint(b), b, p), Building(1, None));
  }

  lemma Arrived(cfg: Config, sys: Sys, t: nat, s: State)
    requires Solo(cfg, sys, t, [], sys, s, Entering)
    ensures sys.pool == s
  {
  }

  /**
   * Any bearer the realm admits can end up filed under an entry that no key leads to any more,
   * and be served by it: dead, so a lookup finds no server there, but still in the bearer index.
   */
  lemma AgreementNeedsQuiet(cfg: Config, b: string)
    requires Regular(cfg) && cfg.owner(b).Some?
    ensures exists events: seq<Event> ::
              var sys := Exec(cfg, INIT, events);
              && b in sys.pool.byBearer && !S.Indexed(sys.pool, sys.pool.byBearer[b])
              && 0 in sys.requests && sys.requests[0] == Request(b, "", Served(sys.pool.byBearer[b]))
              && ServerFor(sys.pool, b).None?
  {
    var p := cfg.owner(b).value;
    var events, sys := EvictedBeforeAdmission(cfg, b, p);
    AdmitEffect(sys.pool, 0, b);
    var s := Admit(sys.pool, 0, b);
    events, sys := Extend(cfg, INIT, events, sys, 0, Fine, s, Served(0));
    assert Exec(cfg, INIT, events).pool == s && s.byBearer[b] == 0 && !S.Indexed(s, 0);
    assert s.info[0].build == Ready(p, false);
  }

  // ---- which bearer is presented ----

  /** A pool with one live entry. */
  function Single(h: string, p: Principal, latest: string, tail: seq<string>): State {
    State(map[h := 0], map b | b in tail :: 0, map[], [EntryState([h], latest, tail, Ready(p, true))])
  }

  lemma SingleFounded(h: string, p: Principal, b: string)
    ensures S.Founded(EMPTY, h, b, p) == Single(h, p, b, [b])
  {
  }

  lemma SingleAdmits(h: string, p: Principal, latest: string, a: string, b: string)
    requires a != b
    ensures Admit(Single(h, p, latest, [a]), 0, b) == Single(h, p, latest, [a, b])
  {
    AdmitEffect(Single(h, p, latest, [a]), 0, b);
    assert [a] + [b] == [a, b];
  }

  lemma SingleAdmitsMore(h: string, p: Principal, latest: string, a: string, b: string, c: string)
    requires a != b && b != c && a != c
    ensures Admit(Single(h, p, latest, [a, b]), 0, c) == Single(h, p, latest, [b, c])
  {
    AdmitEffect(Single(h, p, latest, [a, b]), 0, c);
  }

  /** A bearer that routes to the one entry, and proves its principal, is about to be admitted. */
  lemma ReachesAdmission(cfg: Config, start: Sys, t: nat, h: string, p: Principal, latest: string, tail: seq<string>,
                         b: string)
    returns (more: seq<Event>, sys: Sys)
    requires Regular(cfg) && cfg.owner(b) == Some(p) && cfg.hint(b) == h && b !in tail && b != latest
    requires Solo(cfg, start, t, [], start, Single(h, p, latest, tail), Entering) && t in start.requests
    requires start.requests[t] == Request(b, "", Entering)
    ensures Solo(cfg, start, t, more, sys, Single(h, p, latest, tail), Admitting(0, false))
  {
    hide Solo, Enter;
    var s := Single(h, p, latest, tail);
    EntersProbe(s, b, h);
    more, sys := Continue(cfg, start, t, [], start, s, Entering, Fine, s, Probing(0, false));
    more, sys := Continue(cfg, start, t, more, sys, s, Probing(0, false), Fine, s, Comparing(0, false, p));
    more, sys := Continue(cfg, start, t, more, sys, s, Comparing(0, false, p), Fine, s, Admitting(0, false));
  }

  lemma IsAdmitted(cfg: Config, start: Sys, t: nat, events: seq<Event>, sys: Sys, s: State, s': State)
    returns (events': seq<Event>, sys': Sys)
    requires Solo(cfg, start, t, events, sys, s, Admitting(0, false)) && Closed(s) && |s.info| > 0
    requires t in start.requests && start.requests[t].sid == "" && s' == Admit(s, 0, start.requests[t].bearer)
    ensures Solo(cfg, start, t, events', sys', s', Adopting(0))
  {
    hide Solo, Admit;
    events', sys' := Continue(cfg, start, t, events, sys, s, Admitting(0, false), Fine, s', Adopting(0));
  }

  /** One request has founded an entry, and another, with b, has been admitted to it and is about to adopt. */
  lemma FirstIsAdmitted(cfg: Config, a: string, b: string, c: string, p: Principal)
    returns (events: seq<Event>, sys: Sys)
    requires Sound(cfg) && cfg.owner(a) == cfg.owner(b) == Some(p) && cfg.hint(a) == cfg.hint(b)
    requires a != b && b != c && a != c
    ensures Exec(cfg, INIT, events) == sys && sys.pool == Single(cfg.hint(a), p, a, [a, b])
            && sys.requests.Keys == {0, 1}
    ensures sys.requests[1] == Request(b, "", Adopting(0))
  {
    hide Solo, Admit, S.Resolve, Single, S.Founded, Enter, Locate, Step, Advance;
    var h := cfg.hint(a);
    var start: Sys;
    events, start := Arrives(cfg, [], INIT, 0, a);
    var more, sys' := ResolveIsASoloRun(cfg, start, 0, Fine, Fine);
    FreshFounds(cfg, EMPTY, a, p);
    SingleFounded(h, p, a);
    Joins(cfg, events, start, 0, more, sys', Single(h, p, a, [a]), Served(0));
    SingleClosed(h, p, a, [a]);
    events, start := Arrives(cfg, events + more, sys', 1, b);
    more, sys' := ReachesAdmission(cfg, start, 1, h, p, a, [a], b);
    SingleAdmits(h, p, a, a, b);
    var s := Single(h, p, a, [a, b]);
    more, sys' := IsAdmitted(cfg, start, 1, more, sys', Single(h, p, a, [a]), s);
    Joins(cfg, events, start, 1, more, sys', s, Adopting(0));
    events, sys := events + more, sys';
  }

  lemma SingleClosed(h: string, p: Principal, latest: string, tail: seq<string>)
    ensures Closed(Single(h, p, latest, tail)) && |Single(h, p, latest, tail).info| == 1
    ensures forall b :: Adopt(Single(h, p, latest, tail), 0, b) == Single(h, p, b, tail)
    ensures Single(h, p, latest, tail).info[0] == EntryState([h], latest, tail, Ready(p, true))
  {
  }

  /**
   * With three bearers of one principal on one hint, b can be proven and admitted before c is ever
   * presented, and adopted after c: the entry then presents b, though c is the freshest in its tail.
   */
  lemma LateAdoption(cfg: Config, a: string, b: string, c: string, p: Principal)
    returns (events: seq<Event>, more: seq<Event>)
    requires Sound(cfg) && cfg.owner(a) == cfg.owner(b) == cfg.owner(c) == Some(p)
    requires cfg.hint(a) == cfg.hint(b) == cfg.hint(c) && a != b && b != c && a != c
    ensures var admitted := Exec(cfg, INIT, events);
            var overtaken := Exec(cfg, admitted, more);
            var adopted := Step(cfg, overtaken, Run(1, Fine, ""));
            && admitted.requests.Keys == {0, 1} && admitted.requests[1] == Request(b, "", Adopting(0))
            && admitted.pool.info == [EntryState([cfg.hint(a)], a, [a, b], Ready(p, true))]
            && overtaken.requests.Keys == {0, 1, 2} && overtaken.requests[2] == Request(c, "", Served(0))
            && overtaken.pool.info == [EntryState([cfg.hint(a)], c, [b, c], Ready(p, true))]
            && adopted.requests[1] == Request(b, "", Served(0))
            && adopted.pool.info == [EntryState([cfg.hint(a)], b, [b, c], Ready(p, true))]
  {
    hide Solo, Admit, Single, Enter, Advance;
    var h := cfg.hint(a);
    var sys: Sys;
    events, sys := FirstIsAdmitted(cfg, a, b, c, p);
    more := SecondOvertakes(cfg, events, sys, a, b, c, p);
    SingleClosed(h, p, a, [a, b]);
    SingleClosed(h, p, c, [b, c]);
    SingleClosed(h, p, b, [b, c]);
    Adopts(cfg, Exec(cfg, sys, more), 1, b, Single(h, p, b, [b, c]));
  }

  /** The adoption is one step outside the mutex. */
  lemma Adopts(cfg: Config, sys: Sys, t: nat, b: string, s': State)
    requires Closed(sys.pool) && |sys.pool.info| > 0 && t in sys.requests
             && sys.requests[t] == Request(b, "", Adopting(0))
    requires s' == Adopt(sys.pool, 0, b)
    ensures Step(cfg, sys, Run(t, Fine, "")).pool == s'
    ensures t in Step(cfg, sys, Run(t, Fine, "")).requests
    ensures Step(cfg, sys, Run(t, Fine, "")).requests[t] == Request(b, "", Served(0))
  {
  }

  lemma OvertakesAlone(cfg: Config, start: Sys, h: string, a: string, b: string, c: string, p: Principal)
    returns (steps: seq<Event>, sys: Sys)
    requires Regular(cfg) && cfg.owner(c) == Some(p) && cfg.hint(c) == h && a != b && b != c && a != c
    requires Solo(cfg, start, 2, [], start, Single(h, p, a, [a, b]), Entering) && 2 in start.requests
    requires start.requests[2] == Request(c, "", Entering)
    ensures Solo(cfg, start, 2, steps, sys, Single(h, p, c, [b, c]), Served(0))
  {
    hide Solo, Admit, Single, Advance;
    SingleClosed(h, p, a, [a, b]);
    steps, sys := ReachesAdmission(cfg, start, 2, h, p, a, [a, b], c);
    steps, sys := SoloAdmit(cfg, start, 2, steps, sys, Single(h, p, a, [a, b]), 0, false);
    SingleAdmitsMore(h, p, a, a, b, c);
    SingleClosed(h, p, a, [b, c]);
  }

  /** c arrives, is proven, admitted and adopted, while b waits to be adopted. */
  lemma SecondOvertakes(cfg: Config, events: seq<Event>, sys: Sys, a: string, b: string, c: string, p: Principal)
    returns (more: seq<Event>)
    requires Sound(cfg) && cfg.owner(c) == Some(p) && cfg.hint(a) == cfg.hint(c) && a != b && b != c && a != c
    requires Exec(cfg, INIT, events) == sys && sys.pool == Single(cfg.hint(a), p, a, [a, b])
             && sys.requests.Keys == {0, 1}
    ensures var sys' := Exec(cfg, sys, more);
            && sys'.pool == Single(cfg.hint(a), p, c, [b, c]) && sys'.requests.Keys == {0, 1, 2}
            && sys'.requests[1] == sys.requests[1] && sys'.requests[2] == Request(c, "", Served(0))
  {
    hide Solo, Admit, Single, Exec, Step, Closed;
    var h := cfg.hint(a);
    SingleClosed(h, p, a, [a, b]);
    var arrived, start := Arrives(cfg, events, sys, 2, c);
    var steps, sys' := OvertakesAlone(cfg, start, h, a, b, c, p);
    Joins(cfg, arrived, start, 2, steps, sys', Single(h, p, c, [b, c]), Served(0));
    more := [Arrive(2, c, "")] + steps;
    ExecAppend(cfg, INIT, events, more);
    assert arrived + steps == events + more;
  }
}
