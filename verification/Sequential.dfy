/**
 * The pool when requests come one at a time: resolve as a function of the state and of how the
 * realm answers, and what holds between calls.
 */
module Sequential {
  import opened Wrappers
  import opened Text
  import opened Grants
  import opened Routing
  import opened PoolSpec
  import opened PoolInvariants

  /** `Crashed` is the end of a request in a panic. */
  datatype Verdict = Served(e: nat) | Refused | Mismatch | Crashed

  /** The result of a resolve: the state left behind, the verdict, and how often it dialled. */
  datatype Outcome = Outcome(s: State, verdict: Verdict, probes: nat, connects: nat)

  /** The build of this entry has yet to run, and will end in a panic. */
  predicate CrashesBuild(cfg: Config, s: State, e: nat, fate: Fate)
    requires e < |s.info|
  {
    s.info[e].build.Pending? && Crashes(cfg, fate, s.info[e].latest)
  }

  /** The once-only build: connect presents the entry's latest bearer. */
  function Connect(cfg: Config, s: State, e: nat, fate: Fate): (s': State)
    requires e < |s.info|
    ensures |s'.info| == |s.info|
  {
    if !s.info[e].build.Pending? then s
    else if CrashesBuild(cfg, s, e, fate) then SetBuild(s, e, Spent)
    else
      var who := Proves(cfg, fate, s.info[e].latest);
      SetBuild(s, e, if who.Some? && fate.Fine? then Ready(who.value, true) else Failed)
  }

  function Dials(s: State, e: nat): nat
    requires e < |s.info|
  {
    if s.info[e].build.Pending? then 1 else 0
  }

  /** resolve from the build on: the build is the admission. */
  function FinishBuild(cfg: Config, s: State, bearer: string, sid: string, e: nat, connect: Fate): Outcome
    requires Closed(s) && e < |s.info|
  {
    var s' := Connect(cfg, s, e, connect);
    if CrashesBuild(cfg, s, e, connect) then Outcome(s', Crashed, 0, 1)
    else if s'.info[e].build.Failed? then Outcome(Evict(s', e), Refused, 0, Dials(s, e))
    else Outcome(Bind(Admit(s', e, bearer), sid, e), Served(e), 0, Dials(s, e))
  }

  /** candidate, with ensurePrincipal for a bearer that is diverted to its own principal's entry. */
  function Candidate(cfg: Config, s: State, bearer: string, sid: string, e: nat, probe: Fate, connect: Fate): Outcome
    requires Closed(s) && e < |s.info|
  {
    if Crashes(cfg, probe, bearer) then Outcome(s, Crashed, 1, 0)
    else
      match Proves(cfg, probe, bearer)
      case None => Outcome(s, Refused, 1, 0)
      case Some(who) =>
        if s.info[e].Is(who) then Outcome(Adopt(Bind(Admit(s, e, bearer), sid, e), e, bearer), Served(e), 1, 0)
        else
          var (s1, own) := Locate(s, PrincipalKey(who), bearer);
          Land(cfg, s1, bearer, sid, own, connect)
  }

  /** A diverted bearer lands: the build of its principal's entry, then admission there. */
  function Land(cfg: Config, s: State, bearer: string, sid: string, own: nat, connect: Fate): Outcome
    requires own < |s.info|
  {
    var s' := Connect(cfg, s, own, connect);
    if CrashesBuild(cfg, s, own, connect) then Outcome(s', Crashed, 1, 1)
    else if s'.info[own].build.Failed? then Outcome(Evict(s', own), Refused, 1, Dials(s, own))
    else Outcome(Adopt(Bind(Admit(s', own, bearer), sid, own), own, bearer), Served(own), 1, Dials(s, own))
  }

  /** candidateForBound */
  function CandidateForBound(cfg: Config, s: State, bearer: string, bound: nat, probe: Fate): Outcome
    requires Closed(s) && bound < |s.info|
  {
    if Crashes(cfg, probe, bearer) then Outcome(s, Crashed, 1, 0)
    else
      match Proves(cfg, probe, bearer)
      case None => Outcome(s, Refused, 1, 0)
      case Some(who) =>
        if !s.info[bound].Is(who) then Outcome(s, Mismatch, 1, 0)
        else Outcome(Adopt(Admit(s, bound, bearer), bound, bearer), Served(bound), 1, 0)
  }

  /** resolve after its first critical section. */
  function Finish(cfg: Config, r: (State, Goto), bearer: string, sid: string, first: Fate, second: Fate): Outcome
    requires Leads(r)
  {
    match r.1
    case ToAdopt(e) => Outcome(Adopt(r.0, e, bearer), Served(e), 0, 0)
    case ToMismatch => Outcome(r.0, Mismatch, 0, 0)
    case ToProbeBound(e) => CandidateForBound(cfg, r.0, bearer, e, first)
    case ToBuild(e) => FinishBuild(cfg, r.0, bearer, sid, e, first)
    case ToProbe(e) => Candidate(cfg, r.0, bearer, sid, e, first, second)
  }

  /** resolve, running alone. `first` and `second` are the fates of its first and second dial. */
  function Resolve(cfg: Config, s: State, bearer: string, sid: string, first: Fate, second: Fate): Outcome
    requires Closed(s)
  {
    EnterLeads(s, bearer, sid, cfg.hint(bearer));
    Finish(cfg, Enter(s, bearer, sid, cfg.hint(bearer)), bearer, sid, first, second)
  }

  // ---- what holds between calls ----

  /** Every admission the realm could make. */
  ghost function Possible(cfg: Config): Evidence {
    iset b: string, p: Principal | cfg.owner(b) == Some(p) :: (b, p)
  }

  /** Entry e is in the index. */
  predicate Indexed(s: State, e: nat) {
    e < |s.info| && |s.info[e].keys| == 1 && s.info[e].keys[0] in s.entries && s.entries[s.info[e].keys[0]] == e
  }

  ghost predicate NoDuplicates(tail: seq<string>) {
    forall i, j | 0 <= i < j < |tail| :: tail[i] != tail[j]
  }

  /** An indexed entry is built, its tail is duplicate-free, holds `latest`, and is what the bearer index says. */
  ghost predicate Settled(s: State, e: nat)
    requires e < |s.info|
  {
    var i := s.info[e];
    && i.build.Ready? && NoDuplicates(i.admitted) && i.latest in i.admitted
    && forall b | b in i.admitted :: b in s.byBearer && s.byBearer[b] == e
  }

  /** The indexes agree with each other and with the entries. */
  ghost predicate Agree(s: State) {
    && (forall e | 0 <= e < |s.info| :: |s.info[e].keys| == 1)
    && (forall e | 0 <= e < |s.info| && AliveAt(s, e) :: Indexed(s, e))
    && (forall e | 0 <= e < |s.info| && Indexed(s, e) :: Settled(s, e))
    && (forall b | b in s.byBearer :: Indexed(s, s.byBearer[b]))
    && (forall sid | sid in s.sessions :: Indexed(s, s.sessions[sid]))
  }

  /** A bearer of this principal shares its hint with a bearer of another, and so can be diverted. */
  ghost predicate Contested(cfg: Config, who: Principal) {
    exists z, q ::
      && cfg.owner(z) == Some(who) && cfg.owner(q).Some? && cfg.owner(q) != cfg.owner(z)
      && cfg.hint(q) == cfg.hint(z)
  }

  /** Only diverted principals are filed under principal keys. */
  ghost predicate Detoured(cfg: Config, i: EntryState) {
    i.build.Ready? && (exists k :: k in i.keys && HasPrefix(k, "pri:")) ==> Contested(cfg, i.build.who)
  }

  ghost predicate Detours(cfg: Config, s: State) {
    forall e | 0 <= e < |s.info| :: Detoured(cfg, s.info[e])
  }

  ghost predicate SeqInv(cfg: Config, s: State) {
    && PoolInv(cfg, s, Possible(cfg))
    && Agree(s)
    && Detours(cfg, s)
  }

  lemma SeqInvCloses(cfg: Config, s: State)
    requires SeqInv(cfg, s)
    ensures Closed(s)
  {
  }

  lemma EmptySeqInv(cfg: Config)
    ensures SeqInv(cfg, EMPTY)
  {
  }

  /** A bearer is found exactly by the indexed entry that has it in its tail. */
  lemma IndexAgreement(cfg: Config, s: State, b: string, e: nat)
    requires SeqInv(cfg, s) && e < |s.info|
    ensures (b in s.byBearer && s.byBearer[b] == e) <==> (Indexed(s, e) && b in s.info[e].admitted)
    ensures Indexed(s, e) ==> 1 <= |s.info[e].admitted| <= KEEP
    ensures Indexed(s, e) <==> exists k :: k in s.entries && s.entries[k] == e
  {
  }

  /** b is in the tail of a live entry. */
  predicate InLiveTail(s: State, b: string)
    requires Closed(s)
  {
    b in s.byBearer && AliveAt(s, s.byBearer[b])
  }

  // ---- leaving no trace ----

  /** m' is m without some names of dead entries. */
  ghost predicate Pruned(s: State, m: map<string, nat>, m': map<string, nat>)
    requires forall k | k in m :: m[k] < |s.info|
  {
    && (forall k | k in m' :: k in m && m[k] == m'[k])
    && (forall k | k in m && AliveAt(s, m[k]) :: k in m')
  }

  /**
   * Nothing has changed and nothing has been named: entries keep their state, any further one is
   * a failed build, and the indexes have at most lost names of dead entries.
   */
  ghost predicate NoTrace(s: State, s': State)
    requires Closed(s)
  {
    && s.info <= s'.info
    && (forall e | |s.info| <= e < |s'.info| :: s'.info[e].build.Failed?)
    && Pruned(s, s.entries, s'.entries)
    && Pruned(s, s.byBearer, s'.byBearer)
    && Pruned(s, s.sessions, s'.sessions)
  }

  lemma NoTraceTransitive(s: State, s1: State, s2: State)
    requires Closed(s) && Closed(s1) && NoTrace(s, s1) && NoTrace(s1, s2)
    ensures NoTrace(s, s2)
  {
    forall e | |s.info| <= e < |s2.info|
      ensures s2.info[e].build.Failed?
    {
      if e < |s1.info| {
        assert s1.info[e].build.Failed? && s2.info[e] == s1.info[e];
      }
    }
  }

  /** b is found at entry e. */
  predicate FoundAt(s: State, b: string, e: nat) {
    b in s.byBearer && s.byBearer[b] == e
  }

  /** The tail after b has been admitted: the freshest last, at most KEEP of them. */
  function NextTail(tail: seq<string>, b: string): seq<string> {
    if b in tail then tail else if |tail| < KEEP then tail + [b] else tail[1..] + [b]
  }

  /**
   * All that happens to the pool while a bearer is served: the entry that serves it presents it
   * and has it in its tail, all others are unchanged, any further one is a failed build, live
   * sessions keep their entry, and no other bearer is newly found.
   */
  ghost predicate Grows(s: State, s': State, b: string)
    requires Closed(s)
  {
    && |s.info| <= |s'.info|
    && (forall e | 0 <= e < |s.info| ::
          s'.info[e] == if FoundAt(s', b, e) then s.info[e].(latest := b, admitted := NextTail(s.info[e].admitted, b))
                        else s.info[e])
    && (forall e | 0 <= e < |s.info| && FoundAt(s', b, e) :: AliveAt(s, e))
    && (forall e | |s.info| <= e < |s'.info| ::
          if FoundAt(s', b, e) then s'.info[e].latest == b && s'.info[e].admitted == [b] else s'.info[e].build.Failed?)
    && (forall sid | sid in s.sessions && AliveAt(s, s.sessions[sid]) ::
          sid in s'.sessions && s'.sessions[sid] == s.sessions[sid])
    && (forall x | x in s'.byBearer :: x == b || x in s.byBearer)
  }

  lemma NoTraceGrows(s: State, s1: State, s2: State, b: string)
    requires Closed(s) && Closed(s1) && NoTrace(s, s1) && Grows(s1, s2, b)
    ensures Grows(s, s2, b)
  {
    forall e | 0 <= e < |s.info|
      ensures s1.info[e] == s.info[e]
    {
    }
  }

  // ---- the building blocks ----

  lemma EvictAgrees(s: State, e: nat)
    requires IndexInv(s) && Agree(s) && e < |s.info| && !AliveAt(s, e)
    ensures var s' := Evict(s, e);
            IndexInv(s') && Agree(s') && NoTrace(s, s') && s'.info == s.info && Unreferenced(s', e)
  {
    EvictionIsExact(s, e);
    var s' := Evict(s, e);
    assert s'.info == s.info;
    forall o | 0 <= o < |s.info| && o != e
      ensures Indexed(s', o) <==> Indexed(s, o)
      ensures Indexed(s, o) ==> Settled(s', o)
    {
      assert SameFor(s, s', o);
      if Indexed(s, o) {
        assert Settled(s, o);
      }
    }
    assert !Indexed(s', e);
  }

  /** Evicting a corpse leaves no trace. */
  lemma EvictSeq(cfg: Config, s: State, e: nat)
    requires SeqInv(cfg, s) && e < |s.info| && !AliveAt(s, e)
    ensures SeqInv(cfg, Evict(s, e)) && NoTrace(s, Evict(s, e)) && Unreferenced(Evict(s, e), e)
  {
    EvictKeepsInv(cfg, s, Possible(cfg), e);
    EvictAgrees(s, e);
  }

  /** A new entry whose build succeeds, admitted. */
  ghost function Founded(s: State, key: string, b: string, who: Principal): State {
    State(s.entries[key := |s.info|], s.byBearer[b := |s.info|], s.sessions,
          s.info + [EntryState([key], b, [b], Ready(who, true))])
  }

  lemma FoundedIndexInv(s: State, key: string, b: string, who: Principal)
    requires IndexInv(s)
    ensures IndexInv(Founded(s, key, b, who))
  {
  }

  lemma FoundedAgrees(s: State, key: string, b: string, who: Principal)
    requires Closed(s) && Agree(s) && key !in s.entries && b !in s.byBearer
    ensures Agree(Founded(s, key, b, who))
  {
    var s' := Founded(s, key, b, who);
    var n := |s.info|;
    assert s'.info[n] == EntryState([key], b, [b], Ready(who, true));
    assert Indexed(s', n) && Settled(s', n);
    forall o | 0 <= o < n
      ensures s'.info[o] == s.info[o]
      ensures Indexed(s', o) <==> Indexed(s, o)
      ensures Indexed(s, o) ==> Settled(s', o)
    {
      if Indexed(s, o) {
        assert Settled(s, o);
      }
    }
  }

  lemma BindAgrees(s: State, sid: string, e: nat)
    requires Agree(s) && Indexed(s, e)
    ensures Agree(Bind(s, sid, e)) && Indexed(Bind(s, sid, e), e)
  {
    var s' := Bind(s, sid, e);
    forall o | 0 <= o < |s.info|
      ensures Indexed(s', o) <==> Indexed(s, o)
      ensures Indexed(s, o) ==> Settled(s', o)
    {
      if Indexed(s, o) {
        assert Settled(s, o);
      }
    }
  }

  /** Entries keep their keys and what they have published. */
  lemma DetoursKept(cfg: Config, s: State, s': State)
    requires Detours(cfg, s) && |s'.info| == |s.info|
    requires forall e | 0 <= e < |s.info| ::
               s'.info[e].keys == s.info[e].keys
               && (s'.info[e].build.Ready? ==> s.info[e].build.Ready? && s'.info[e].build.who == s.info[e].build.who)
    ensures Detours(cfg, s')
  {
    forall e | 0 <= e < |s.info|
      ensures Detoured(cfg, s'.info[e])
    {
      assert Detoured(cfg, s.info[e]);
    }
  }

  lemma FoundedPoolInv(cfg: Config, s: State, key: string, b: string, who: Principal)
    requires PoolInv(cfg, s, Possible(cfg)) && cfg.owner(b) == Some(who)
    requires LandsRight(cfg, EntryState([key], b, [], Pending)) && Rooted(cfg, EntryState([key], b, [], Pending))
    ensures PoolInv(cfg, Founded(s, key, b, who), Possible(cfg))
  {
    hide Agree, Detours;
    FoundedIndexInv(s, key, b, who);
    var s' := Founded(s, key, b, who);
    forall e | 0 <= e < |s'.info|
      ensures EntryInv(cfg, s'.info[e], Possible(cfg))
    {
      if e < |s.info| {
        assert EntryInv(cfg, s.info[e], Possible(cfg));
      }
    }
  }

  lemma FoundedDetours(cfg: Config, s: State, key: string, b: string, who: Principal)
    requires Detours(cfg, s)
    requires HasPrefix(key, "pri:") ==> Contested(cfg, who)
    ensures Detours(cfg, Founded(s, key, b, who))
    ensures Indexed(Founded(s, key, b, who), |s.info|)
  {
  }

  lemma FoundedSeq(cfg: Config, s: State, key: string, b: string, sid: string, who: Principal)
    requires SeqInv(cfg, s) && key !in s.entries && b !in s.byBearer && cfg.owner(b) == Some(who)
    requires LandsRight(cfg, EntryState([key], b, [], Pending)) && Rooted(cfg, EntryState([key], b, [], Pending))
    requires HasPrefix(key, "pri:") ==> Contested(cfg, who)
    ensures SeqInv(cfg, Bind(Founded(s, key, b, who), sid, |s.info|))
    ensures Indexed(Bind(Founded(s, key, b, who), sid, |s.info|), |s.info|)
  {
    hide Agree, EntryInv, LandsRight, Rooted, Contested, Indexed;
    FoundedPoolInv(cfg, s, key, b, who);
    FoundedAgrees(s, key, b, who);
    var s' := Founded(s, key, b, who);
    assert Detours(cfg, s') && Indexed(s', |s.info|) by {
      FoundedDetours(cfg, s, key, b, who);
    }
    DetoursKept(cfg, s', Bind(s', sid, |s.info|));
    BindKeepsInv(cfg, s', Possible(cfg), sid, |s.info|);
    BindAgrees(s', sid, |s.info|);
  }

  lemma CorpseUntraced(s: State, corpse: EntryState)
    requires IndexInv(s) && |corpse.keys| == 1 && corpse.build.Failed?
    ensures var s' := s.(info := s.info + [corpse]); IndexInv(s') && NoTrace(s, s')
  {
    hide Agree;
  }

  lemma CorpseAgrees(s: State, corpse: EntryState)
    requires IndexInv(s) && Agree(s) && |corpse.keys| == 1 && corpse.build.Failed?
    ensures var s' := s.(info := s.info + [corpse]); IndexInv(s') && Agree(s') && NoTrace(s, s')
  {
    hide NoTrace;
    CorpseUntraced(s, corpse);
    var s' := s.(info := s.info + [corpse]);
    forall o | 0 <= o < |s.info|
      ensures Indexed(s', o) <==> Indexed(s, o)
      ensures Indexed(s, o) ==> Settled(s', o)
    {
      if Indexed(s, o) {
        assert Settled(s, o);
      }
    }
  }

  /** Evicting a new entry whose build failed leaves only its corpse. */
  lemma EvictFailed(s: State, key: string, b: string)
    requires Closed(s) && key !in s.entries
    ensures Evict(SetBuild(NewEntry(s, key, b), |s.info|, Failed), |s.info|)
            == s.(info := s.info + [EntryState([key], b, [], Failed)])
  {
    var s' := Evict(SetBuild(NewEntry(s, key, b), |s.info|, Failed), |s.info|);
    assert s'.entries == s.entries;
    assert s'.byBearer == s.byBearer;
    assert s'.sessions == s.sessions;
  }

  lemma CorpseSeq(cfg: Config, s: State, key: string, b: string)
    requires SeqInv(cfg, s)
    ensures var s' := s.(info := s.info + [EntryState([key], b, [], Failed)]); SeqInv(cfg, s') && NoTrace(s, s')
  {
    hide Agree, NoTrace;
    var corpse := EntryState([key], b, [], Failed);
    var s' := s.(info := s.info + [corpse]);
    CorpseAgrees(s, corpse);
    forall e | 0 <= e < |s'.info|
      ensures EntryInv(cfg, s'.info[e], Possible(cfg))
    {
      if e < |s.info| {
        assert EntryInv(cfg, s.info[e], Possible(cfg));
      }
    }
  }

  /** Giving an indexed entry a new tail that holds the bearer it now presents. */
  lemma RetailAgrees(s: State, e: nat, tail: seq<string>, byBearer: map<string, nat>, b: string)
    requires Agree(s) && Indexed(s, e)
    requires NoDuplicates(tail) && b in tail
    requires forall x | x in tail :: x in byBearer && byBearer[x] == e
    requires forall x | x in s.byBearer && s.byBearer[x] != e :: x in byBearer && byBearer[x] == s.byBearer[x]
    requires forall x | x in byBearer && byBearer[x] != e :: x in s.byBearer && s.byBearer[x] == byBearer[x]
    ensures var s' := s.(byBearer := byBearer, info := s.info[e := s.info[e].(admitted := tail, latest := b)]);
            Agree(s') && Indexed(s', e)
  {
    var s' := s.(byBearer := byBearer, info := s.info[e := s.info[e].(admitted := tail, latest := b)]);
    assert Settled(s, e);
    assert Settled(s', e);
    forall o | 0 <= o < |s.info| && o != e
      ensures Indexed(s', o) <==> Indexed(s, o)
      ensures Indexed(s, o) ==> Settled(s', o)
    {
      if Indexed(s, o) {
        assert Settled(s, o);
      }
    }
  }

  /** After an admission the tail is again duplicate-free, holds the bearer, and is what the index says. */
  lemma AdmitTail(s: State, e: nat, b: string)
    requires e < |s.info| && Settled(s, e) && |s.info[e].admitted| <= KEEP
    requires b in s.byBearer ==> s.byBearer[b] == e
    ensures var s' := Admit(s, e, b);
            && s' == s.(byBearer := s'.byBearer, info := s.info[e := s.info[e].(admitted := s'.info[e].admitted)])
            && NoDuplicates(s'.info[e].admitted) && b in s'.info[e].admitted
            && s'.info[e].admitted == NextTail(s.info[e].admitted, b)
            && (forall x | x in s'.info[e].admitted :: x in s'.byBearer && s'.byBearer[x] == e)
            && (forall x | x in s.byBearer && s.byBearer[x] != e :: x in s'.byBearer && s'.byBearer[x] == s.byBearer[x])
            && (forall x | x in s'.byBearer && s'.byBearer[x] != e ::
                  x in s.byBearer && s.byBearer[x] == s'.byBearer[x])
            && (forall x | x in s'.byBearer :: x == b || x in s.byBearer)
  {
    if b !in s.info[e].admitted {
      AdmitEffect(s, e, b);
    }
  }

  /** The trim may drop the bearer that was presented so far; the adoption that follows mends it. */
  lemma AdmitAgrees(s: State, e: nat, b: string)
    requires Agree(s) && Indexed(s, e) && |s.info[e].admitted| <= KEEP
    requires b in s.byBearer ==> s.byBearer[b] == e
    ensures var s' := Adopt(Admit(s, e, b), e, b); Agree(s') && Indexed(s', e)
  {
    hide Admit, NoDuplicates;
    var s1 := Admit(s, e, b);
    AdmitTail(s, e, b);
    RetailAgrees(s, e, s1.info[e].admitted, s1.byBearer, b);
    assert Adopt(s1, e, b).info == s.info[e := s.info[e].(admitted := s1.info[e].admitted, latest := b)];
  }

  /** What a caller that has been served can rely on, whichever way it was served. */
  ghost predicate Success(cfg: Config, s: State, e: nat, b: string, sid: string) {
    && Indexed(s, e) && AliveAt(s, e)
    && s.info[e].build.Ready? && cfg.owner(b) == Some(s.info[e].build.who)
    && s.info[e].latest == b && b in s.info[e].admitted
    && b in s.byBearer && s.byBearer[b] == e
    && (sid != "" ==> sid in s.sessions && s.sessions[sid] == e)
  }

  /** sid is free for binding, or bound to e already. */
  predicate Bindable(s: State, sid: string, e: nat) {
    sid != "" && sid in s.sessions ==> s.sessions[sid] == e
  }

  predicate NotBound(s: State, sid: string) {
    sid == "" || sid !in s.sessions
  }

  lemma AdmitKeepsDetours(cfg: Config, s: State, e: nat, b: string, sid: string)
    requires Detours(cfg, s) && e < |s.info|
    ensures Detours(cfg, Adopt(Bind(Admit(s, e, b), sid, e), e, b))
  {
    hide Detoured, Detours, Trim;
    DetoursKept(cfg, s, Adopt(Bind(Admit(s, e, b), sid, e), e, b));
  }

  lemma AdmitKeepsSeqInv(cfg: Config, s: State, e: nat, b: string, sid: string)
    requires SeqInv(cfg, s) && Indexed(s, e) && cfg.owner(b) == Some(s.info[e].build.who)
    requires b in s.byBearer ==> s.byBearer[b] == e
    ensures SeqInv(cfg, Adopt(Bind(Admit(s, e, b), sid, e), e, b))
  {
    hide LandsRight, Rooted, Contested, Detoured;
    var s1 := Admit(s, e, b);
    var s2 := Bind(s1, sid, e);
    AdmitKeepsDetours(cfg, s, e, b, sid);
    assert Settled(s, e) && EntryInv(cfg, s.info[e], Possible(cfg));
    AdmitKeepsInv(cfg, s, Possible(cfg), e, b);
    assert s1.info[e].build == s.info[e].build;
    BindKeepsInv(cfg, s1, Possible(cfg), sid, e);
    AdoptKeepsInv(cfg, s2, Possible(cfg), e, b);
    AdmitAgrees(s, e, b);
    BindAgrees(Adopt(s1, e, b), sid, e);
    assert Bind(Adopt(s1, e, b), sid, e) == Adopt(s2, e, b);
  }

  lemma AdmitSucceeds(cfg: Config, s: State, e: nat, b: string, sid: string)
    requires Indexed(s, e) && AliveAt(s, e) && Settled(s, e) && |s.info[e].admitted| <= KEEP
    requires s.info[e].build.Ready? && cfg.owner(b) == Some(s.info[e].build.who)
    requires (b in s.byBearer ==> s.byBearer[b] == e) && Bindable(s, sid, e)
    requires Closed(s)
    ensures Success(cfg, Adopt(Bind(Admit(s, e, b), sid, e), e, b), e, b, sid)
    ensures Grows(s, Adopt(Bind(Admit(s, e, b), sid, e), e, b), b)
  {
    hide NoDuplicates, Admit;
    AdmitTail(s, e, b);
  }

  /** Admitting a proven bearer at a live entry, binding the session, presenting the bearer. */
  lemma AdmitSeq(cfg: Config, s: State, e: nat, b: string, sid: string)
    requires SeqInv(cfg, s) && Indexed(s, e) && AliveAt(s, e)
    requires s.info[e].build.Ready? && cfg.owner(b) == Some(s.info[e].build.who)
    requires (b in s.byBearer ==> s.byBearer[b] == e) && Bindable(s, sid, e)
    ensures var s' := Adopt(Bind(Admit(s, e, b), sid, e), e, b);
            SeqInv(cfg, s') && Success(cfg, s', e, b, sid) && Closed(s) && Grows(s, s', b)
  {
    hide Admit, Bind, Adopt, Success, Grows;
    AdmitKeepsSeqInv(cfg, s, e, b, sid);
    assert Settled(s, e) && EntryInv(cfg, s.info[e], Possible(cfg));
    AdmitSucceeds(cfg, s, e, b, sid);
  }

  // ---- resolve, path by path ----

  /** What every resolve guarantees: it starts from s, keeps the invariant, dials at most once each way. */
  ghost predicate OutcomeOk(cfg: Config, s: State, b: string, sid: string, o: Outcome)
    requires Closed(s)
  {
    && SeqInv(cfg, o.s)
    && (if o.verdict.Served? then Success(cfg, o.s, o.verdict.e, b, sid) && Grows(s, o.s, b) else NoTrace(s, o.s))
    && !o.verdict.Crashed? && o.probes <= 1 && o.connects <= 1
  }

  /** What locating a key comes to between calls: a live entry, or a new one after clearing a corpse. */
  lemma LocateSeq(cfg: Config, s: State, key: string, b: string)
    requires SeqInv(cfg, s)
    ensures key in s.entries && AliveAt(s, s.entries[key]) ==>
              && Locate(s, key, b) == (s, s.entries[key]) && Indexed(s, s.entries[key])
              && key in s.info[s.entries[key]].keys
    ensures !(key in s.entries && AliveAt(s, s.entries[key])) ==>
              var s1 := if key in s.entries then Evict(s, s.entries[key]) else s;
              && SeqInv(cfg, s1) && NoTrace(s, s1) && key !in s1.entries && |s1.info| == |s.info|
              && Locate(s, key, b) == (NewEntry(s1, key, b), |s1.info|)
  {
    if key in s.entries && !AliveAt(s, s.entries[key]) {
      EvictSeq(cfg, s, s.entries[key]);
    }
  }

  lemma BuildFounds(cfg: Config, s: State, key: string, b: string, fate: Fate)
    requires Proves(cfg, fate, b).Some? && fate.Fine? && !cfg.panics(b)
    ensures var s2 := Connect(cfg, NewEntry(s, key, b), |s.info|, fate);
            && s2.info[|s.info|].build.Ready?
            && Admit(s2, |s.info|, b) == Founded(s, key, b, Proves(cfg, fate, b).value)
  {
    var s2 := Connect(cfg, NewEntry(s, key, b), |s.info|, fate);
    AdmitEffect(s2, |s.info|, b);
    assert [] + [b] == [b];
  }

  lemma FoundedSucceeds(cfg: Config, s: State, key: string, b: string, sid: string, who: Principal)
    requires Closed(s) && NotBound(s, sid) && cfg.owner(b) == Some(who)
    ensures var s' := Bind(Founded(s, key, b, who), sid, |s.info|);
            Success(cfg, s', |s.info|, b, sid) && Adopt(s', |s.info|, b) == s' && Grows(s, s', b)
  {
    var s' := Bind(Founded(s, key, b, who), sid, |s.info|);
    assert s'.info[|s.info|] == EntryState([key], b, [b], Ready(who, true));
    assert Adopt(s', |s.info|, b).info == s'.info;
  }

  /** The build of a new entry, as the one admission of its founding bearer. */
  lemma FoundingOutcome(cfg: Config, s: State, key: string, b: string, sid: string, fate: Fate)
    requires SeqInv(cfg, s) && key !in s.entries && b !in s.byBearer && NotBound(s, sid) && !cfg.panics(b)
    requires cfg.owner(b).Some? ==>
               && LandsRight(cfg, EntryState([key], b, [], Pending)) && Rooted(cfg, EntryState([key], b, [], Pending))
               && (HasPrefix(key, "pri:") ==> Contested(cfg, cfg.owner(b).value))
    ensures Closed(s)
    ensures var n := |s.info|;
            var s2 := Connect(cfg, NewEntry(s, key, b), n, fate);
            if Proves(cfg, fate, b).Some? && fate.Fine? then
              var s' := Bind(Admit(s2, n, b), sid, n);
              && s2.info[n].build.Ready? && SeqInv(cfg, s') && Success(cfg, s', n, b, sid)
              && Adopt(s', n, b) == s' && Grows(s, s', b)
            else
              && s2.info[n].build.Failed? && SeqInv(cfg, Evict(s2, n)) && NoTrace(s, Evict(s2, n))
  {
    hide Success, Grows, Agree, PoolInv, NoTrace, LandsRight, Rooted, Bind, Admit, Adopt, Evict, Founded;
    var n := |s.info|;
    var s2 := Connect(cfg, NewEntry(s, key, b), n, fate);
    var who := Proves(cfg, fate, b);
    SeqInvCloses(cfg, s);
    if who.Some? && fate.Fine? {
      BuildFounds(cfg, s, key, b, fate);
      FoundedSeq(cfg, s, key, b, sid, who.value);
      FoundedSucceeds(cfg, s, key, b, sid, who.value);
    } else {
      assert s2 == SetBuild(NewEntry(s, key, b), n, Failed);
      EvictFailed(s, key, b);
      CorpseSeq(cfg, s, key, b);
    }
  }
}
