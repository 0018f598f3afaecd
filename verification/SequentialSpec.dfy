/** What a resolve that runs alone guarantees, and what follows for sequences of requests. */
module SequentialSpec {
  import opened Wrappers
  import opened Grants
  import opened Routing
  import opened PoolSpec
  import opened PoolInvariants
  import opened Sequential

  lemma NoTraceReflexive(s: State)
    requires Closed(s)
    ensures NoTrace(s, s)
  {
  }

  /** A live entry between calls: what the paths that meet one need to know of it. */
  lemma LiveIsSettled(cfg: Config, s: State, e: nat)
    requires SeqInv(cfg, s) && e < |s.info| && AliveAt(s, e)
    ensures Indexed(s, e) && s.info[e].build.Ready?
    ensures s.info[e].latest in s.byBearer && s.byBearer[s.info[e].latest] == e
    ensures forall b | b in s.info[e].admitted ::
              b in s.byBearer && s.byBearer[b] == e && cfg.owner(b) == Some(s.info[e].build.who)
    ensures LandsRight(cfg, s.info[e]) && Rooted(cfg, s.info[e])
  {
    assert Settled(s, e) && EntryInv(cfg, s.info[e], Possible(cfg));
  }

  lemma FoundIsAdmitted(cfg: Config, s: State, b: string)
    requires SeqInv(cfg, s) && b in s.byBearer
    ensures var e := s.byBearer[b]; e < |s.info| && b in s.info[e].admitted && Indexed(s, e)
  {
  }

  // ---- the paths ----

  /** A bearer found at a live entry is served without a dial. */
  lemma AdoptOutcome(cfg: Config, s: State, e: nat, b: string, sid: string)
    requires SeqInv(cfg, s) && e < |s.info| && AliveAt(s, e) && b in s.info[e].admitted && Bindable(s, sid, e)
    ensures var s' := Adopt(Bind(s, sid, e), e, b);
            SeqInv(cfg, s') && Success(cfg, s', e, b, sid) && Closed(s) && Grows(s, s', b)
  {
    hide SeqInv, Success, Bind, Adopt, Grows;
    LiveIsSettled(cfg, s, e);
    AdmitSeq(cfg, s, e, b, sid);
    assert Admit(s, e, b) == s;
  }

  lemma BoundOutcome(cfg: Config, s: State, b: string, sid: string, first: Fate, second: Fate)
    requires Sound(cfg) && SeqInv(cfg, s) && Closed(s) && BoundLive(s, sid)
    ensures var o := Resolve(cfg, s, b, sid, first, second);
            var e := s.sessions[sid];
            && OutcomeOk(cfg, s, b, sid, o) && o.connects == 0
            && s.info[e].build.Ready?
            && (b in s.info[e].admitted ==> o.verdict == Served(e) && o.probes == 0)
            && (b !in s.info[e].admitted && b in s.byBearer ==> o.verdict == Mismatch && o.probes == 0)
            && (b !in s.info[e].admitted && b !in s.byBearer ==>
                  && o.probes == 1
                  && o.verdict == match Proves(cfg, first, b)
                                  case None => Refused
                                  case Some(who) => if who == s.info[e].build.who then Served(e) else Mismatch)
  {
    hide SeqInv, Success, NoTrace, Grows, Adopt, Admit, Agree;
    var e := s.sessions[sid];
    LiveIsSettled(cfg, s, e);
    NoTraceReflexive(s);
    if b in s.info[e].admitted {
      AdoptOutcome(cfg, s, e, b, sid);
    } else if b in s.byBearer {
      FoundIsAdmitted(cfg, s, b);
    } else if Proves(cfg, first, b).Some? {
      var who := Proves(cfg, first, b).value;
      if who == s.info[e].build.who {
        AdmitSeq(cfg, s, e, b, sid);
        assert Bind(Admit(s, e, b), sid, e) == Admit(s, e, b) by { AdmitKeepsSessions(s, e, b); }
      }
    }
  }

  lemma AdmitKeepsSessions(s: State, e: nat, b: string)
    requires e < |s.info|
    ensures Admit(s, e, b).sessions == s.sessions
  {
  }

  /** A bearer that meets another principal's entry under its hint can be steered, and its principal is contested. */
  lemma DivertedIsContested(cfg: Config, b: string, who: Principal, met: Principal)
    requires Sound(cfg) && cfg.owner(b) == Some(who) && Founder(cfg, cfg.hint(b), met) && met != who
    ensures Steerable(cfg.hint, b) && Contested(cfg, who)
  {
    var x :| cfg.hint(x) == cfg.hint(b) && cfg.owner(x) == Some(met);
    assert x != "" && x != b;
  }

  /** A diverted bearer founds its principal's entry. */
  lemma LandingFounds(cfg: Config, s: State, key: string, b: string, sid: string, connect: Fate)
    requires Sound(cfg) && SeqInv(cfg, s) && Closed(s) && key !in s.entries && b !in s.byBearer && NotBound(s, sid)
    requires cfg.owner(b).Some?
    requires LandsRight(cfg, EntryState([key], b, [], Pending)) && Rooted(cfg, EntryState([key], b, [], Pending))
    requires Contested(cfg, cfg.owner(b).value)
    ensures var o := Land(cfg, NewEntry(s, key, b), b, sid, |s.info|, connect);
            && OutcomeOk(cfg, s, b, sid, o) && o.probes == 1 && (o.verdict.Served? || o.verdict.Refused?)
            && (connect.Fine? ==> o.verdict.Served?)
  {
    hide SeqInv, Success, NoTrace, Grows, Adopt, Admit, Bind, Evict, LandsRight, Rooted, Contested;
    FoundingOutcome(cfg, s, key, b, sid, connect);
  }

  /** Or finds it alive. */
  lemma LandingFinds(cfg: Config, s: State, b: string, sid: string, own: nat, who: Principal, connect: Fate)
    requires SeqInv(cfg, s) && Closed(s) && b !in s.byBearer && NotBound(s, sid)
    requires cfg.owner(b) == Some(who) && Steerable(cfg.hint, b)
    requires own < |s.info| && AliveAt(s, own) && PrincipalKey(who) in s.info[own].keys
    ensures var o := Land(cfg, s, b, sid, own, connect);
            OutcomeOk(cfg, s, b, sid, o) && o.probes == 1 && o.verdict.Served?
  {
    hide SeqInv, Success, NoTrace, Grows, Adopt, Admit, Bind, Evict;
    LiveIsSettled(cfg, s, own);
    AdmitSeq(cfg, s, own, b, sid);
  }

  /** A bearer no entry has admitted meets a live entry that is not its own: it is probed and diverted. */
  lemma DivertedOutcome(cfg: Config, s: State, b: string, sid: string, e: nat, who: Principal, probe: Fate,
                        connect: Fate)
    requires Sound(cfg) && Unconfused(cfg) && SeqInv(cfg, s) && Closed(s)
    requires b !in s.byBearer && NotBound(s, sid)
    requires e < |s.info| && Proves(cfg, probe, b) == Some(who) && !s.info[e].Is(who)
    requires s.info[e].build.Ready? && Founder(cfg, cfg.hint(b), s.info[e].build.who)
    ensures var o := Candidate(cfg, s, b, sid, e, probe, connect);
            && OutcomeOk(cfg, s, b, sid, o) && o.probes == 1 && (o.verdict.Served? || o.verdict.Refused?)
            && (connect.Fine? && cfg.owner(b).Some? ==> o.verdict.Served?)
  {
    hide SeqInv, OutcomeOk, NoTrace, Evict, NewEntry, Land, Agree, LandsRight, Rooted, Contested;
    var key := PrincipalKey(who);
    DivertedIsContested(cfg, b, who, s.info[e].build.who);
    PrincipalKeyLandsRight(cfg, b, who);
    LocateSeq(cfg, s, key, b);
    if key in s.entries && AliveAt(s, s.entries[key]) {
      LandingFinds(cfg, s, b, sid, s.entries[key], who, connect);
    } else {
      var s0 := if key in s.entries then Evict(s, s.entries[key]) else s;
      PrunedAbsent(s, s0, b, sid);
      SeqInvCloses(cfg, s0);
      LandingFounds(cfg, s0, key, b, sid, connect);
      AfterClearing(cfg, s, s0, b, sid, Land(cfg, NewEntry(s0, key, b), b, sid, |s0.info|, connect));
    }
  }

  /** Clearing corpses adds no names. */
  lemma PrunedAbsent(s: State, s': State, b: string, sid: string)
    requires Closed(s) && NoTrace(s, s')
    ensures b !in s.byBearer ==> b !in s'.byBearer
    ensures NotBound(s, sid) ==> NotBound(s', sid)
  {
  }

  lemma CandidateOutcome(cfg: Config, s: State, b: string, sid: string, e: nat, probe: Fate, connect: Fate)
    requires Sound(cfg) && Unconfused(cfg) && SeqInv(cfg, s) && Closed(s)
    requires b !in s.byBearer && NotBound(s, sid) && e < |s.info| && AliveAt(s, e) && cfg.hint(b) in s.info[e].keys
    ensures var o := Candidate(cfg, s, b, sid, e, probe, connect);
            && OutcomeOk(cfg, s, b, sid, o) && o.probes == 1 && (o.verdict.Served? || o.verdict.Refused?)
            && (Proves(cfg, probe, b).None? ==> o.verdict == Refused)
            && (probe.Fine? && connect.Fine? && cfg.owner(b).Some? ==> o.verdict.Served?)
  {
    hide SeqInv, Success, NoTrace, Grows, Adopt, Admit, Agree, Locate, Connect, Evict;
    NoTraceReflexive(s);
    LiveIsSettled(cfg, s, e);
    if Proves(cfg, probe, b).Some? {
      var who := Proves(cfg, probe, b).value;
      if s.info[e].Is(who) {
        AdmitSeq(cfg, s, e, b, sid);
      } else {
        MeetsUnderHint(cfg, s.info[e], b);
        DivertedOutcome(cfg, s, b, sid, e, who, probe, connect);
      }
    }
  }

  /** The build of a new entry under the bearer's hint is the admission. */
  lemma FoundingFinish(cfg: Config, s: State, b: string, sid: string, fate: Fate)
    requires Sound(cfg) && SeqInv(cfg, s) && Closed(s) && b !in s.byBearer && NotBound(s, sid)
    requires cfg.hint(b) !in s.entries
    ensures Closed(NewEntry(s, cfg.hint(b), b))
    ensures var o := FinishBuild(cfg, NewEntry(s, cfg.hint(b), b), b, sid, |s.info|, fate);
            && OutcomeOk(cfg, s, b, sid, o) && o.probes == 0 && o.connects == 1
               && (o.verdict.Served? || o.verdict.Refused?)
            && (o.verdict.Served? <==> Proves(cfg, fate, b).Some? && fate.Fine?)
  {
    hide SeqInv, Success, NoTrace, Grows, Adopt, Admit, Bind, Evict, LandsRight, Rooted;
    if b != "" {
      HintLandsRight(cfg, b);
    }
    FoundingOutcome(cfg, s, cfg.hint(b), b, sid, fate);
  }

  /** Nothing alive sits on the hint: a corpse there is cleared first. */
  lemma FoundedByHint(cfg: Config, s: State, b: string, sid: string, first: Fate, second: Fate)
    requires Sound(cfg) && SeqInv(cfg, s) && Closed(s) && b !in s.byBearer && NotBound(s, sid)
    requires !(cfg.hint(b) in s.entries && AliveAt(s, s.entries[cfg.hint(b)]))
    ensures Leads(EnterByHint(s, b, cfg.hint(b)))
    ensures var o := Finish(cfg, EnterByHint(s, b, cfg.hint(b)), b, sid, first, second);
            && OutcomeOk(cfg, s, b, sid, o) && o.probes == 0 && o.connects == 1
               && (o.verdict.Served? || o.verdict.Refused?)
            && (o.verdict.Served? <==> Proves(cfg, first, b).Some? && first.Fine?)
  {
    hide SeqInv, OutcomeOk, NoTrace, Evict, Leads, FinishBuild;
    var key := cfg.hint(b);
    EnterByHintLeads(s, b, key);
    LocateSeq(cfg, s, key, b);
    var s0 := if key in s.entries then Evict(s, s.entries[key]) else s;
    PrunedAbsent(s, s0, b, sid);
    SeqInvCloses(cfg, s0);
    FoundingFinish(cfg, s0, b, sid, first);
    AfterClearing(cfg, s, s0, b, sid, FinishBuild(cfg, NewEntry(s0, key, b), b, sid, |s0.info|, first));
    assert EnterByHint(s, b, key) == (NewEntry(s0, key, b), ToBuild(|s0.info|));
  }

  lemma ByHintOutcome(cfg: Config, s: State, b: string, sid: string, first: Fate, second: Fate)
    requires Sound(cfg) && Unconfused(cfg) && SeqInv(cfg, s) && Closed(s)
    requires b !in s.byBearer && NotBound(s, sid)
    ensures Leads(EnterByHint(s, b, cfg.hint(b)))
    ensures var o := Finish(cfg, EnterByHint(s, b, cfg.hint(b)), b, sid, first, second);
            && OutcomeOk(cfg, s, b, sid, o) && o.probes + o.connects > 0 && (o.verdict.Served? || o.verdict.Refused?)
            && (Proves(cfg, first, b).None? ==> o.verdict == Refused)
            && (first.Fine? && second.Fine? && cfg.owner(b).Some? ==> o.verdict.Served?)
  {
    hide SeqInv, OutcomeOk, Candidate, FinishBuild, Leads, LandsRight, Rooted;
    var key := cfg.hint(b);
    if key in s.entries && AliveAt(s, s.entries[key]) {
      EnterByHintLeads(s, b, key);
      LocateSeq(cfg, s, key, b);
      LiveIsSettled(cfg, s, s.entries[key]);
      CandidateOutcome(cfg, s, b, sid, s.entries[key], first, second);
    } else {
      FoundedByHint(cfg, s, b, sid, first, second);
    }
  }

  lemma UnboundOutcome(cfg: Config, s: State, b: string, sid: string, first: Fate, second: Fate)
    requires Sound(cfg) && Unconfused(cfg) && SeqInv(cfg, s) && Closed(s) && NotBound(s, sid)
    ensures Leads(EnterUnbound(s, b, sid, cfg.hint(b)))
    ensures var o := Finish(cfg, EnterUnbound(s, b, sid, cfg.hint(b)), b, sid, first, second);
            && OutcomeOk(cfg, s, b, sid, o) && !o.verdict.Mismatch?
            && (InLiveTail(s, b) ==> o.verdict == Served(s.byBearer[b]) && o.probes + o.connects == 0)
            && (!InLiveTail(s, b) ==>
                  && o.probes + o.connects > 0
                  && (Proves(cfg, first, b).None? ==> o.verdict == Refused)
                  && (first.Fine? && second.Fine? && cfg.owner(b).Some? ==> o.verdict.Served?))
  {
    hide SeqInv, Success, NoTrace, Grows, Adopt, Admit, Agree, Evict, Leads, EnterByHint, Finish;
    EnterUnboundLeads(s, b, sid, cfg.hint(b));
    if InLiveTail(s, b) {
      FoundIsAdmitted(cfg, s, b);
      AdoptOutcome(cfg, s, s.byBearer[b], b, sid);
      FinishAdopt(cfg, Bind(s, sid, s.byBearer[b]), s.byBearer[b], b, sid, first, second);
    } else if b in s.byBearer {
      var s0 := Evict(s, s.byBearer[b]);
      CorpseOfBearer(cfg, s, b);
      PrunedAbsent(s, s0, b, sid);
      ByHintOutcome(cfg, s0, b, sid, first, second);
      AfterClearing(cfg, s, s0, b, sid, Finish(cfg, EnterByHint(s0, b, cfg.hint(b)), b, sid, first, second));
    } else {
      ByHintOutcome(cfg, s, b, sid, first, second);
    }
  }

  lemma FinishAdopt(cfg: Config, s: State, e: nat, b: string, sid: string, first: Fate, second: Fate)
    requires Leads((s, ToAdopt(e)))
    ensures Finish(cfg, (s, ToAdopt(e)), b, sid, first, second) == Outcome(Adopt(s, e, b), Served(e), 0, 0)
  {
  }

  lemma CorpseOfBearer(cfg: Config, s: State, b: string)
    requires SeqInv(cfg, s) && Closed(s) && b in s.byBearer && !AliveAt(s, s.byBearer[b])
    ensures var s0 := Evict(s, s.byBearer[b]); SeqInv(cfg, s0) && Closed(s0) && NoTrace(s, s0) && b !in s0.byBearer
  {
    EvictSeq(cfg, s, s.byBearer[b]);
  }

  lemma AfterClearing(cfg: Config, s: State, s0: State, b: string, sid: string, o: Outcome)
    requires Closed(s) && Closed(s0) && NoTrace(s, s0) && OutcomeOk(cfg, s0, b, sid, o)
    ensures OutcomeOk(cfg, s, b, sid, o)
  {
    hide SeqInv, Success, NoTrace, Grows;
    if o.verdict.Served? {
      NoTraceGrows(s, s0, o.s, b);
    } else {
      NoTraceTransitive(s, s0, o.s);
    }
  }

  lemma SessionCorpse(cfg: Config, s: State, sid: string)
    requires SeqInv(cfg, s) && Closed(s) && sid in s.sessions && !AliveAt(s, s.sessions[sid])
    ensures var s0 := Evict(s, s.sessions[sid]); SeqInv(cfg, s0) && Closed(s0) && NoTrace(s, s0) && sid !in s0.sessions
    ensures forall b :: InLiveTail(s, b) <==> InLiveTail(Evict(s, s.sessions[sid]), b)
    ensures forall b | InLiveTail(s, b) :: Evict(s, s.sessions[sid]).byBearer[b] == s.byBearer[b]
  {
    EvictSeq(cfg, s, s.sessions[sid]);
  }

  /**
   * resolve, run alone between calls. On a live session the verdict is exactly determined by the
   * session's tail, the other tails, and one probe. Otherwise a bearer in a live tail is served
   * from there without a dial, and any other must dial: it is refused if its first dial does not
   * prove it and served if nothing fails.
   */
  lemma ResolveSpec(cfg: Config, s: State, b: string, sid: string, first: Fate, second: Fate)
    requires Sound(cfg) && Unconfused(cfg) && SeqInv(cfg, s) && Closed(s)
    ensures OutcomeOk(cfg, s, b, sid, Resolve(cfg, s, b, sid, first, second))
    ensures BoundLive(s, sid) ==>
              var o := Resolve(cfg, s, b, sid, first, second);
              var e := s.sessions[sid];
              && s.info[e].build.Ready? && o.connects == 0
              && (o.probes == 0 <==> b in s.byBearer)
              && o.verdict == if b in s.info[e].admitted then Served(e)
                              else if b in s.byBearer then Mismatch
                              else match Proves(cfg, first, b)
                                   case None => Refused
                                   case Some(who) => if who == s.info[e].build.who then Served(e) else Mismatch
    ensures !BoundLive(s, sid) ==>
              var o := Resolve(cfg, s, b, sid, first, second);
              && !o.verdict.Mismatch?
              && (InLiveTail(s, b) ==> o.verdict == Served(s.byBearer[b]) && o.probes + o.connects == 0)
              && (!InLiveTail(s, b) ==>
                    && o.probes + o.connects > 0
                    && (Proves(cfg, first, b).None? ==> o.verdict == Refused)
                    && (first.Fine? && second.Fine? && cfg.owner(b).Some? ==> o.verdict.Served?))
  {
    hide SeqInv, OutcomeOk, Evict, EnterUnbound, Finish, InLiveTail, Leads, NoTrace;
    EnterLeads(s, b, sid, cfg.hint(b));
    if BoundLive(s, sid) {
      BoundOutcome(cfg, s, b, sid, first, second);
      TailIsFound(cfg, s, b, s.sessions[sid]);
    } else if sid != "" && sid in s.sessions {
      var s0 := Evict(s, s.sessions[sid]);
      SessionCorpse(cfg, s, sid);
      UnboundOutcome(cfg, s0, b, sid, first, second);
      AfterClearing(cfg, s, s0, b, sid, Finish(cfg, EnterUnbound(s0, b, sid, cfg.hint(b)), b, sid, first, second));
    } else {
      UnboundOutcome(cfg, s, b, sid, first, second);
    }
  }

  lemma TailIsFound(cfg: Config, s: State, b: string, e: nat)
    requires SeqInv(cfg, s) && e < |s.info| && AliveAt(s, e)
    ensures b in s.info[e].admitted ==> b in s.byBearer && s.byBearer[b] == e
  {
    LiveIsSettled(cfg, s, e);
  }
}
