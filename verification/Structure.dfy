/**
 * What the interleaved node keeps whoever its principals are, however bearers are routed, and even
 * if the parser panics: the indexes agree with the entries, builds run once, entries only age.
 */
module Structure {
  import opened Wrappers
  import opened Routing
  import opened PoolSpec
  import opened PoolInvariants
  import opened Interleaving

  /** Names agree with entries, tails are short, and only a build that left no error admits anyone. */
  ghost predicate Sturdy(s: State) {
    && IndexInv(s)
    && forall e | 0 <= e < |s.info| :: |s.info[e].admitted| <= KEEP && (!s.info[e].Built() ==> s.info[e].admitted == [])
  }

  /** Where a request can stand. */
  ghost predicate Placed(s: State, t: nat, r: Request) {
    match r.pc
    case Entering | Ensuring(_) | Refused | Finished(_, _) => true
    case Building(e, _) => e < |s.info|
    case Connecting(e, _) => e < |s.info| && s.info[e].build == Running(t)
    case Dialed(e, _, _) => e < |s.info| && s.info[e].build == Running(t)
    case Evicting(e) => e < |s.info| && s.info[e].build.Failed?
    case Probing(e, _) => e < |s.info|
    case Comparing(e, _, who) => e < |s.info| && who.persona != ""
    case Adopting(e) => e < |s.info| && s.info[e].Built()
    case Founding(e) => e < |s.info| && s.info[e].Built()
    case Admitting(e, _) => e < |s.info| && s.info[e].Built()
    case Served(e) => e < |s.info| && s.info[e].Built()
    case Answering(e, _) => e < |s.info| && s.info[e].Built()
  }

  ghost predicate StructInv(sys: Sys) {
    && Sturdy(sys.pool)
    && forall t | t in sys.requests :: Placed(sys.pool, t, sys.requests[t])
  }

  /** How a step of request t may change the pool. */
  ghost predicate Steady(s: State, s': State, t: nat) {
    && Closed(s) && |s.info| <= |s'.info|
    && (forall e | 0 <= e < |s.info| ::
          && Ages(s.info[e], s'.info[e])
          && (s.info[e].build.Running? && s.info[e].build.runner != t ==> s'.info[e].build == s.info[e].build))
    && KeepsLiveBindings(s, s')
  }

  // ---- the locked helpers, and the steps outside the mutex ----

  lemma SteadyReflexive(s: State, t: nat)
    requires Closed(s)
    ensures Steady(s, s, t)
  {
  }

  lemma SteadyTransitive(s: State, s1: State, s2: State, t: nat)
    requires Steady(s, s1, t) && Steady(s1, s2, t)
    requires forall e | 0 <= e < |s.info| && AliveAt(s, e) :: AliveAt(s1, e)
    ensures Steady(s, s2, t)
  {
    forall e | 0 <= e < |s.info|
      ensures Ages(s.info[e], s2.info[e])
    {
      assert Ages(s.info[e], s1.info[e]) && Ages(s1.info[e], s2.info[e]);
    }
  }

  lemma EvictIsSteady(s: State, e: nat, t: nat)
    requires Sturdy(s) && e < |s.info| && !AliveAt(s, e)
    ensures Sturdy(Evict(s, e)) && Steady(s, Evict(s, e), t) && Evict(s, e).info == s.info
  {
    EvictKeepsIndex(s, e);
    assert Evict(s, e).info == s.info;
  }

  lemma AdmitIsSteady(s: State, e: nat, b: string, t: nat)
    requires Sturdy(s) && e < |s.info| && s.info[e].Built()
    ensures Sturdy(Admit(s, e, b)) && Steady(s, Admit(s, e, b), t)
    ensures |Admit(s, e, b).info| == |s.info|
    ensures forall o | 0 <= o < |s.info| :: Admit(s, e, b).info[o].build == s.info[o].build
  {
    hide Unname, KeepsLiveBindings;
    if b !in s.info[e].admitted {
      AdmitEffect(s, e, b);
    }
    AdmitKeepsNames(s, e, b);
  }

  lemma AdmitKeepsNames(s: State, e: nat, b: string)
    requires IndexInv(s) && e < |s.info| && |s.info[e].admitted| <= KEEP
    ensures IndexInv(Admit(s, e, b)) && KeepsLiveBindings(s, Admit(s, e, b))
  {
    if b !in s.info[e].admitted {
      AdmitEffect(s, e, b);
    }
  }

  lemma BindIsSteady(s: State, sid: string, e: nat, t: nat)
    requires Sturdy(s) && e < |s.info|
    ensures Sturdy(Bind(s, sid, e)) && Steady(s, Bind(s, sid, e), t)
  {
  }

  lemma AdoptIsSteady(s: State, e: nat, b: string, t: nat)
    requires Sturdy(s) && e < |s.info| && s.info[e].Built()
    ensures Sturdy(Adopt(s, e, b)) && Steady(s, Adopt(s, e, b), t)
  {
  }

  lemma BuildIsSteady(s: State, e: nat, build: Build, t: nat)
    requires Sturdy(s) && e < |s.info| && (s.info[e].build == Pending || s.info[e].build == Running(t))
    requires !build.Pending? && (build.Running? ==> s.info[e].build.Pending?)
    ensures Sturdy(SetBuild(s, e, build)) && Steady(s, SetBuild(s, e, build), t)
  {
  }

  lemma NewEntryIsSteady(s: State, key: string, b: string, t: nat)
    requires Sturdy(s) && key !in s.entries
    ensures Sturdy(NewEntry(s, key, b)) && Steady(s, NewEntry(s, key, b), t)
  {
  }

  lemma LocateIsSteady(s: State, key: string, b: string, t: nat)
    requires Sturdy(s)
    ensures Sturdy(Locate(s, key, b).0) && Steady(s, Locate(s, key, b).0, t)
  {
    hide Sturdy, Steady, Evict, NewEntry, IndexInv;
    SturdyIsClosed(s);
    SteadyReflexive(s, t);
    if key in s.entries && !AliveAt(s, s.entries[key]) {
      var e := s.entries[key];
      EvictIsSteady(s, e, t);
      FreeKey(s, key);
      NewEntryIsSteady(Evict(s, e), key, b, t);
      SteadyTransitive(s, Evict(s, e), NewEntry(Evict(s, e), key, b), t);
    } else if key !in s.entries {
      NewEntryIsSteady(s, key, b, t);
    }
  }

  lemma SturdyIsClosed(s: State)
    requires Sturdy(s)
    ensures IndexInv(s) && Closed(s)
  {
  }

  /** A bearer that is found, or stands in a tail, is at an entry whose build left no error. */
  lemma FoundIsBuilt(s: State, b: string)
    requires Sturdy(s)
    ensures b in s.byBearer ==> s.byBearer[b] < |s.info| && s.info[s.byBearer[b]].Built()
    ensures forall e | 0 <= e < |s.info| && b in s.info[e].admitted :: s.info[e].Built()
  {
  }

  // ---- the first critical section of resolve ----

  lemma EnterByHintIsSteady(s: State, t: nat, r: Request, hint: string)
    requires Sturdy(s)
    ensures var (s', g) := EnterByHint(s, r.bearer, hint);
            Sturdy(s') && Steady(s, s', t) && Placed(s', t, r.(pc := Next(g)))
  {
    hide Sturdy, Steady, Locate, IndexInv;
    SturdyIsClosed(s);
    LocateIsSteady(s, hint, r.bearer, t);
  }

  lemma EnterUnboundIsSteady(s: State, t: nat, r: Request, hint: string)
    requires Sturdy(s)
    ensures var (s', g) := EnterUnbound(s, r.bearer, r.sid, hint);
            Sturdy(s') && Steady(s, s', t) && Placed(s', t, r.(pc := Next(g)))
  {
    hide Sturdy, Steady, EnterByHint, Evict, IndexInv;
    SturdyIsClosed(s);
    FoundIsBuilt(s, r.bearer);
    if r.bearer in s.byBearer {
      var e := s.byBearer[r.bearer];
      if AliveAt(s, e) {
        BindIsSteady(s, r.sid, e, t);
      } else {
        EvictIsSteady(s, e, t);
        EnterByHintIsSteady(Evict(s, e), t, r, hint);
        SturdyIsClosed(Evict(s, e));
        SteadyTransitive(s, Evict(s, e), EnterByHint(Evict(s, e), r.bearer, hint).0, t);
      }
    } else {
      EnterByHintIsSteady(s, t, r, hint);
    }
  }

  lemma EnterIsSteady(s: State, t: nat, r: Request, hint: string)
    requires Sturdy(s) && Closed(s)
    ensures var (s', g) := Enter(s, r.bearer, r.sid, hint);
            Sturdy(s') && Steady(s, s', t) && Placed(s', t, r.(pc := Next(g)))
  {
    hide Sturdy, Steady, EnterUnbound, Evict, IndexInv;
    FoundIsBuilt(s, r.bearer);
    if BoundLive(s, r.sid) {
      SteadyReflexive(s, t);
    } else if r.sid != "" && r.sid in s.sessions {
      var e := s.sessions[r.sid];
      EvictIsSteady(s, e, t);
      SturdyIsClosed(Evict(s, e));
      EnterUnboundIsSteady(Evict(s, e), t, r, hint);
      SteadyTransitive(s, Evict(s, e), EnterUnbound(Evict(s, e), r.bearer, r.sid, hint).0, t);
    } else {
      EnterUnboundIsSteady(s, t, r, hint);
    }
  }

  /** e is the entry a name leads to, if any, and it is alive. */
  predicate LeadsAlive(s: State, names: map<string, nat>, x: string) {
    x in names && names[x] < |s.info| && AliveAt(s, names[x])
  }

  /** If a name leads to a dead entry, that entry is gone from every index of s'. */
  ghost predicate ClearsCorpse(s: State, names: map<string, nat>, x: string, s': State) {
    x in names && names[x] < |s.info| && !AliveAt(s, names[x]) ==> Unreferenced(s', names[x])
  }

  /**
   * What the first critical section of resolve decides, case by case. On the session of a live entry
   * the pool is left alone: a bearer in the tail is served, one that is filed elsewhere is turned
   * away, any other is probed.
   */
  lemma BoundEntersExactly(s: State, b: string, sid: string, hint: string)
    requires Closed(s) && sid != "" && LeadsAlive(s, s.sessions, sid)
    ensures var e := s.sessions[sid];
            Enter(s, b, sid, hint) == (s, if b in s.info[e].admitted then ToAdopt(e)
                                          else if b in s.byBearer && s.byBearer[b] != e then ToMismatch
                                          else ToProbeBound(e))
  {
  }

  /**
   * Otherwise the corpse of the session is cleared, and a bearer that is filed at a live entry is
   * served there, with the session bound to it; no entry changes.
   */
  lemma FoundEntersExactly(s: State, b: string, sid: string, hint: string)
    requires IndexInv(s) && Closed(s) && !(sid != "" && LeadsAlive(s, s.sessions, sid)) && LeadsAlive(s, s.byBearer, b)
    ensures var (s', g) := Enter(s, b, sid, hint);
            && g == ToAdopt(s.byBearer[b]) && s'.info == s.info
            && (sid != "" ==> sid in s'.sessions && s'.sessions[sid] == s.byBearer[b])
            && (sid != "" ==> ClearsCorpse(s, s.sessions, sid, s'))
            && (sid == "" ==> s' == s)
  {
    if sid != "" && sid in s.sessions {
      var e := s.sessions[sid];
      EvictionIsExact(s, e);
      assert Evict(s, e).info == s.info;
    }
  }

  /**
   * Otherwise the corpse the bearer is filed at is cleared too, and the hint decides: a live entry
   * there is waited for if it presents the bearer and probed for if not, and no entry changes.
   */
  lemma HintEntersExactly(s: State, b: string, sid: string, hint: string)
    requires IndexInv(s) && Closed(s) && !(sid != "" && LeadsAlive(s, s.sessions, sid)) && !LeadsAlive(s, s.byBearer, b)
    requires LeadsAlive(s, s.entries, hint)
    ensures var (s', g) := Enter(s, b, sid, hint);
            var e := s.entries[hint];
            && g == (if s.info[e].latest == b then ToBuild(e) else ToProbe(e)) && s'.info == s.info
            && (sid != "" ==> sid !in s'.sessions)
            && (sid != "" ==> ClearsCorpse(s, s.sessions, sid, s')) && ClearsCorpse(s, s.byBearer, b, s')
  {
    hide Unreferenced, Evict, IndexInv;
    var s1 := if sid != "" && sid in s.sessions then Evict(s, s.sessions[sid]) else s;
    if sid != "" && sid in s.sessions {
      ClearsFirst(s, s.sessions[sid], b, hint, sid);
    }
    if b in s1.byBearer {
      ClearsFirst(s1, s1.byBearer[b], b, hint, sid);
      if sid != "" && sid in s.sessions {
        StaysCleared(s1, s1.byBearer[b], s.sessions[sid]);
      }
    }
  }

  /** Clearing a corpse frees its session, and leaves live names, and other names of the bearer, as they are. */
  lemma ClearsFirst(s: State, e: nat, b: string, hint: string, sid: string)
    requires IndexInv(s) && e < |s.info| && !AliveAt(s, e)
    ensures var s1 := Evict(s, e);
            && IndexInv(s1) && Closed(s1) && s1.info == s.info && Unreferenced(s1, e)
            && (b in s.byBearer && s.byBearer[b] != e ==> b in s1.byBearer && s1.byBearer[b] == s.byBearer[b])
            && (b in s1.byBearer ==> b in s.byBearer && s1.byBearer[b] == s.byBearer[b])
            && (b in s.byBearer && s.byBearer[b] == e ==> b !in s1.byBearer)
            && (hint in s.entries && s.entries[hint] != e ==> hint in s1.entries && s1.entries[hint] == s.entries[hint])
            && (hint in s1.entries ==> hint in s.entries && s1.entries[hint] == s.entries[hint])
            && (sid in s.sessions && s.sessions[sid] == e ==> sid !in s1.sessions)
            && (sid in s1.sessions ==> sid in s.sessions && s1.sessions[sid] == s.sessions[sid])
  {
    EvictKeepsIndex(s, e);
    EvictionIsExact(s, e);
    assert Evict(s, e).info == s.info;
  }

  lemma StaysCleared(s: State, e: nat, gone: nat)
    requires e < |s.info| && Unreferenced(s, gone)
    ensures Unreferenced(Evict(s, e), gone)
  {
  }

  /**
   * And where nothing alive is there, a corpse under the hint is cleared and a new entry founded,
   * which presents the bearer, has admitted nobody, and is waited for.
   */
  lemma FoundsExactly(s: State, b: string, sid: string, hint: string)
    requires IndexInv(s) && Closed(s) && !(sid != "" && LeadsAlive(s, s.sessions, sid)) && !LeadsAlive(s, s.byBearer, b)
    requires !LeadsAlive(s, s.entries, hint)
    ensures var (s', g) := Enter(s, b, sid, hint);
            && g == ToBuild(|s.info|) && s'.info == s.info + [EntryState([hint], b, [], Pending)]
            && hint in s'.entries && s'.entries[hint] == |s.info|
            && (sid != "" ==> sid !in s'.sessions)
            && (sid != "" ==> ClearsCorpse(s, s.sessions, sid, s'))
            && ClearsCorpse(s, s.byBearer, b, s') && ClearsCorpse(s, s.entries, hint, s')
  {
    hide Unreferenced, Evict, IndexInv;
    var s1 := if sid != "" && sid in s.sessions then Evict(s, s.sessions[sid]) else s;
    if sid != "" && sid in s.sessions {
      ClearsFirst(s, s.sessions[sid], b, hint, sid);
    }
    var s2 := if b in s1.byBearer then Evict(s1, s1.byBearer[b]) else s1;
    if b in s1.byBearer {
      ClearsFirst(s1, s1.byBearer[b], b, hint, sid);
    }
    var s3 := if hint in s2.entries then Evict(s2, s2.entries[hint]) else s2;
    if hint in s2.entries {
      ClearsFirst(s2, s2.entries[hint], b, hint, sid);
    }
    ClearedInTurn(s, s1, s2, s3, b, sid, hint);
    FoundingReferencesNone(s3, hint, b);
  }

  /** ensurePrincipal finds the live entry under the key, or clears a corpse there and founds a new one. */
  lemma LocatesExactly(s: State, key: string, b: string)
    requires IndexInv(s) && Closed(s)
    ensures var (s', e) := Locate(s, key, b);
            if LeadsAlive(s, s.entries, key) then s' == s && e == s.entries[key]
            else
              && e == |s.info| && s'.info == s.info + [EntryState([key], b, [], Pending)]
              && key in s'.entries && s'.entries[key] == |s.info| && ClearsCorpse(s, s.entries, key, s')
  {
    if key in s.entries && !AliveAt(s, s.entries[key]) {
      ClearsFirst(s, s.entries[key], b, key, "");
      FoundingReferencesNone(Evict(s, s.entries[key]), key, b);
    }
  }

  /** Whatever of the three corpses there was is unreferenced after the last of them has been cleared. */
  lemma ClearedInTurn(s: State, s1: State, s2: State, s3: State, b: string, sid: string, hint: string)
    requires IndexInv(s) && IndexInv(s1) && IndexInv(s2)
    requires !(sid != "" && LeadsAlive(s, s.sessions, sid)) && !LeadsAlive(s, s.byBearer, b)
             && !LeadsAlive(s, s.entries, hint)
    requires s1 == (if sid != "" && sid in s.sessions then Evict(s, s.sessions[sid]) else s)
    requires s2 == (if b in s1.byBearer then Evict(s1, s1.byBearer[b]) else s1)
    requires s3 == (if hint in s2.entries then Evict(s2, s2.entries[hint]) else s2)
    ensures sid != "" ==> ClearsCorpse(s, s.sessions, sid, s3)
    ensures ClearsCorpse(s, s.byBearer, b, s3) && ClearsCorpse(s, s.entries, hint, s3)
  {
    hide Unreferenced, Evict;
    if sid != "" && sid in s.sessions {
      ClearsFirst(s, s.sessions[sid], b, hint, sid);
      GoneInTurn(s1, s2, s3, s.sessions[sid], b, hint);
    }
    if b in s1.byBearer {
      ClearsFirst(s1, s1.byBearer[b], b, hint, sid);
      GoneInTurn(s2, s2, s3, s1.byBearer[b], b, hint);
    }
    if hint in s2.entries {
      ClearsFirst(s2, s2.entries[hint], b, hint, sid);
    }
  }

  lemma GoneInTurn(s1: State, s2: State, s3: State, gone: nat, b: string, hint: string)
    requires IndexInv(s1) && IndexInv(s2) && Unreferenced(s1, gone)
    requires s2 == s1 || (b in s1.byBearer && s2 == Evict(s1, s1.byBearer[b]))
    requires s3 == (if hint in s2.entries then Evict(s2, s2.entries[hint]) else s2)
    ensures Unreferenced(s3, gone)
  {
    hide Unreferenced, Evict;
    if s2 != s1 {
      StaysCleared(s1, s1.byBearer[b], gone);
    }
    if hint in s2.entries {
      StaysCleared(s2, s2.entries[hint], gone);
    }
  }

  lemma FoundingReferencesNone(s: State, key: string, b: string)
    ensures forall e | 0 <= e < |s.info| && Unreferenced(s, e) :: Unreferenced(NewEntry(s, key, b), e)
  {
  }

  // ---- every step ----

  /** What holds after a step of a request from a sturdy pool. */
  ghost predicate StepSteady(cfg: Config, s: State, t: nat, r: Request, fate: Fate, minted: string)
    requires Closed(s) && InRange(r.pc, |s.info|)
  {
    var (s', _, pc) := Advance(cfg, s, t, r, fate, minted);
    Sturdy(s') && Steady(s, s', t) && Placed(s', t, r.(pc := pc))
  }

  /** The steps of the once-only build. */
  lemma BuildStepIsSteady(cfg: Config, s: State, t: nat, r: Request, fate: Fate, minted: string)
    requires Sturdy(s) && Closed(s) && Placed(s, t, r) && (r.pc.Building? || r.pc.Connecting? || r.pc.Dialed?)
    ensures StepSteady(cfg, s, t, r, fate, minted)
  {
    hide Sturdy, Steady;
    var s' := Advance(cfg, s, t, r, fate, minted).0;
    SteadyReflexive(s, t);
    if s' != s {
      BuildIsSteady(s, r.pc.e, s'.info[r.pc.e].build, t);
    }
  }

  /** Admitting, and perhaps binding, as one critical section; and adopting. */
  lemma AdmitStepIsSteady(cfg: Config, s: State, t: nat, r: Request, fate: Fate, minted: string)
    requires Sturdy(s) && Closed(s) && Placed(s, t, r)
    requires r.pc.Founding? || r.pc.Admitting? || r.pc.Adopting? || r.pc.Answering?
    ensures StepSteady(cfg, s, t, r, fate, minted)
  {
    hide Sturdy, Steady, Admit;
    var e := r.pc.e;
    SteadyReflexive(s, t);
    AdoptIsSteady(s, e, r.bearer, t);
    BindIsSteady(s, minted, e, t);
    AdmitIsSteady(s, e, r.bearer, t);
    var s1 := Admit(s, e, r.bearer);
    BindIsSteady(s1, r.sid, e, t);
    SteadyTransitive(s, s1, Bind(s1, r.sid, e), t);
  }

  lemma AdvanceIsSteady(cfg: Config, s: State, t: nat, r: Request, fate: Fate, minted: string)
    requires NamesPrincipals(cfg.owner) && Sturdy(s) && Placed(s, t, r)
    ensures Closed(s) && InRange(r.pc, |s.info|)
    ensures StepSteady(cfg, s, t, r, fate, minted)
  {
    hide Sturdy, Steady, Enter, Locate, Evict, Admit, Bind, Adopt, SetBuild, ServerFor, IndexInv;
    SturdyIsClosed(s);
    SteadyReflexive(s, t);
    match r.pc {
      case Entering => EnterIsSteady(s, t, r, cfg.hint(r.bearer));
      case Evicting(e) => EvictIsSteady(s, e, t);
      case Ensuring(who) => LocateIsSteady(s, PrincipalKey(who), r.bearer, t);
      case Building(_, _) => BuildStepIsSteady(cfg, s, t, r, fate, minted);
      case Connecting(_, _) => BuildStepIsSteady(cfg, s, t, r, fate, minted);
      case Dialed(_, _, _) => BuildStepIsSteady(cfg, s, t, r, fate, minted);
      case Founding(_) => AdmitStepIsSteady(cfg, s, t, r, fate, minted);
      case Admitting(_, _) => AdmitStepIsSteady(cfg, s, t, r, fate, minted);
      case Adopting(_) => AdmitStepIsSteady(cfg, s, t, r, fate, minted);
      case Answering(_, _) => AdmitStepIsSteady(cfg, s, t, r, fate, minted);
      case _ =>
    }
  }

  /** Where a request stands survives the steps of the others. */
  lemma PlacedStays(s: State, s': State, t: nat, u: nat, r: Request)
    requires Placed(s, u, r) && u != t && Steady(s, s', t)
    ensures Placed(s', u, r)
  {
    if !(r.pc.Entering? || r.pc.Refused? || r.pc.Finished? || r.pc.Ensuring?) {
      assert Ages(s.info[r.pc.e], s'.info[r.pc.e]);
    }
  }

  lemma RunKeepsStructure(cfg: Config, sys: Sys, t: nat, fate: Fate, minted: string)
    requires NamesPrincipals(cfg.owner) && StructInv(sys) && t in sys.requests
    ensures StructInv(Step(cfg, sys, Run(t, fate, minted)))
    ensures Steady(sys.pool, Step(cfg, sys, Run(t, fate, minted)).pool, t)
  {
    hide Sturdy, Steady, Placed, Advance, Closed, NamesPrincipals;
    AdvanceIsSteady(cfg, sys.pool, t, sys.requests[t], fate, minted);
    var sys' := Step(cfg, sys, Run(t, fate, minted));
    forall u | u in sys'.requests && u != t
      ensures Placed(sys'.pool, u, sys'.requests[u])
    {
      PlacedStays(sys.pool, sys'.pool, t, u, sys.requests[u]);
    }
  }

  /** Deaths and shutdowns shut entries and drop names. */
  lemma ClosureKeepsStructure(sys: Sys, s': State)
    requires StructInv(sys) && Sturdy(s') && |s'.info| == |sys.pool.info|
    requires forall e | 0 <= e < |s'.info| :: s'.info[e] == sys.pool.info[e] || s'.info[e] == sys.pool.info[e].Shut()
    ensures StructInv(sys.(pool := s'))
    ensures forall e | 0 <= e < |s'.info| :: Ages(sys.pool.info[e], s'.info[e])
  {
    hide Sturdy;
    forall t | t in sys.requests
      ensures Placed(s', t, sys.requests[t])
    {
      var r := sys.requests[t];
      assert Placed(sys.pool, t, r);
    }
  }

  lemma DeathIsSturdy(s: State, e: nat)
    requires Sturdy(s) && e < |s.info| && s.info[e].build.Ready?
    ensures Sturdy(SetBuild(s, e, Ready(s.info[e].build.who, false)))
    ensures KeepsLiveBindings(s, SetBuild(s, e, Ready(s.info[e].build.who, false)))
  {
  }

  lemma CloseIsSturdy(s: State)
    requires Sturdy(s)
    ensures Sturdy(CloseAll(s))
  {
  }

  /** Every event keeps the structure, ages the entries, and unless it is a shutdown keeps live bindings. */
  lemma StepKeepsStructure(cfg: Config, sys: Sys, ev: Event)
    requires NamesPrincipals(cfg.owner) && StructInv(sys) && Closed(sys.pool)
    ensures StructInv(Step(cfg, sys, ev)) && Closed(Step(cfg, sys, ev).pool)
    ensures |sys.pool.info| <= |Step(cfg, sys, ev).pool.info|
    ensures forall e | 0 <= e < |sys.pool.info| :: Ages(sys.pool.info[e], Step(cfg, sys, ev).pool.info[e])
    ensures ev != Close ==> KeepsLiveBindings(sys.pool, Step(cfg, sys, ev).pool)
  {
    hide Sturdy, Advance, NamesPrincipals;
    SturdyIsClosed(sys.pool);
    match ev {
      case Arrive(_, _, _) =>
      case Run(t, fate, minted) =>
        if t in sys.requests {
          RunKeepsStructure(cfg, sys, t, fate, minted);
        }
      case Die(e) =>
        if e < |sys.pool.info| && sys.pool.info[e].build.Ready? {
          DeathIsSturdy(sys.pool, e);
          ClosureKeepsStructure(sys, Step(cfg, sys, ev).pool);
        }
      case Close =>
        CloseIsSturdy(sys.pool);
        ClosureKeepsStructure(sys, CloseAll(sys.pool));
    }
    SturdyIsClosed(Step(cfg, sys, ev).pool);
  }

  lemma {:induction false} ExecKeepsStructure(cfg: Config, sys: Sys, events: seq<Event>)
    requires NamesPrincipals(cfg.owner) && StructInv(sys)
    ensures StructInv(Exec(cfg, sys, events)) && IndexInv(Exec(cfg, sys, events).pool)
    decreases |events|
  {
    hide Sturdy, Placed, Step, NamesPrincipals;
    SturdyIsClosed(sys.pool);
    if events != [] {
      StepKeepsStructure(cfg, sys, events[0]);
      ExecKeepsStructure(cfg, Step(cfg, sys, events[0]), events[1..]);
    }
  }

  lemma InitIsSturdy()
    ensures StructInv(INIT)
  {
  }

  // ---- what follows for every run ----

  /**
   * Over any run: a build starts once and in one request, a principal once published is final, a
   * failed or spent build and a dead connection stay so, and until its build ends well an entry
   * presents the bearer that founded it.
   */
  lemma {:induction false} EntriesAge(cfg: Config, sys: Sys, events: seq<Event>, e: nat)
    requires NamesPrincipals(cfg.owner) && StructInv(sys) && e < |sys.pool.info|
    ensures e < |Exec(cfg, sys, events).pool.info|
    ensures Ages(sys.pool.info[e], Exec(cfg, sys, events).pool.info[e])
    decreases |events|
  {
    hide Sturdy, Placed, Step, NamesPrincipals;
    SturdyIsClosed(sys.pool);
    if events != [] {
      StepKeepsStructure(cfg, sys, events[0]);
      EntriesAge(cfg, Step(cfg, sys, events[0]), events[1..], e);
    }
  }

  /** Request r is inside the build of entry e. */
  ghost predicate RunsBuild(r: Request, e: nat) {
    (r.pc.Connecting? || r.pc.Dialed?) && r.pc.e == e
  }

  /** No two requests are ever inside the build of one entry. */
  lemma OneBuilder(cfg: Config, events: seq<Event>, t: nat, u: nat, e: nat)
    requires NamesPrincipals(cfg.owner)
    requires var sys := Exec(cfg, INIT, events);
             && t in sys.requests && u in sys.requests
             && RunsBuild(sys.requests[t], e) && RunsBuild(sys.requests[u], e)
    ensures t == u
  {
    InitIsSturdy();
    ExecKeepsStructure(cfg, INIT, events);
    var sys := Exec(cfg, INIT, events);
    assert Placed(sys.pool, t, sys.requests[t]) && Placed(sys.pool, u, sys.requests[u]);
  }

  /** At any moment of any run an eviction, late or repeated, removes every reference to its entry and no other. */
  lemma EvictionIsExactAlways(cfg: Config, events: seq<Event>, e: nat)
    requires NamesPrincipals(cfg.owner) && e < |Exec(cfg, INIT, events).pool.info|
    ensures var s := Exec(cfg, INIT, events).pool;
            && Unreferenced(Evict(s, e), e)
            && (forall other | 0 <= other < |s.info| && other != e :: SameFor(s, Evict(s, e), other))
            && Evict(Evict(s, e), e) == Evict(s, e)
            && (s.info[e].build.Ready? ==> !AliveAt(Evict(s, e), e))
  {
    InitIsSturdy();
    ExecKeepsStructure(cfg, INIT, events);
    EvictionIsExact(Exec(cfg, INIT, events).pool, e);
  }

  /** In any run of any realm the server lookup finds the live entry a bearer is filed under, and nothing else. */
  lemma LookupExactly(cfg: Config, events: seq<Event>, b: string, e: nat)
    requires NamesPrincipals(cfg.owner)
    ensures var s := Exec(cfg, INIT, events).pool;
            && Closed(s)
            && (ServerFor(s, b) == Some(e) <==> b in s.byBearer && s.byBearer[b] == e && AliveAt(s, e))
  {
    InitIsSturdy();
    ExecKeepsStructure(cfg, INIT, events);
  }

  /** A session stays bound to its entry for as long as the entry lives and the node is not closed. */
  lemma {:induction false} LiveBindingsAreStable(cfg: Config, sys: Sys, events: seq<Event>, sid: string)
    requires NamesPrincipals(cfg.owner) && StructInv(sys) && Close !in events
    requires sid in sys.pool.sessions
    requires var sys' := Exec(cfg, sys, events);
             sys.pool.sessions[sid] < |sys'.pool.info| && AliveAt(sys'.pool, sys.pool.sessions[sid])
    ensures var s' := Exec(cfg, sys, events).pool;
            sid in s'.sessions && s'.sessions[sid] == sys.pool.sessions[sid]
    decreases |events|
  {
    hide Sturdy, Placed, Step, NamesPrincipals;
    SturdyIsClosed(sys.pool);
    if events != [] {
      var e := sys.pool.sessions[sid];
      EntriesAge(cfg, sys, events, e);
      assert AliveAt(sys.pool, e);
      StepKeepsStructure(cfg, sys, events[0]);
      LiveBindingsAreStable(cfg, Step(cfg, sys, events[0]), events[1..], sid);
    }
  }
}
