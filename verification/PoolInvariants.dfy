/** What every critical section of the pool keeps, whatever other requests are doing. */
module PoolInvariants {
  import opened Wrappers
  import opened Text
  import opened Grants
  import opened Routing
  import opened PoolSpec

  /** The admissions the realm has made: bearer b was admitted as principal p. */
  type Evidence = iset<(string, Principal)>

  /** The realm never admits a bearer as anyone but its owner. */
  ghost predicate Truthful(cfg: Config, proofs: Evidence) {
    forall b, p | (b, p) in proofs :: cfg.owner(b) == Some(p)
  }

  /** Some bearer of this principal is routed to this key. */
  ghost predicate Founder(cfg: Config, key: string, who: Principal) {
    exists x :: cfg.hint(x) == key && cfg.owner(x) == Some(who)
  }

  /**
   * An entry filed under a principal key belongs to that principal: once built it is theirs, and
   * before that its founding bearer is. This is so for every bearer that can come looking there.
   */
  ghost predicate LandsRight(cfg: Config, i: EntryState) {
    forall b | cfg.owner(b).Some? && Steerable(cfg.hint, b) && PrincipalKey(cfg.owner(b).value) in i.keys ::
      && (i.Unbuilt() ==> cfg.owner(i.latest) == cfg.owner(b))
      && (i.build.Ready? ==> Some(i.build.who) == cfg.owner(b))
  }

  /** An entry filed under a hint was founded by a bearer with that hint. */
  ghost predicate Rooted(cfg: Config, i: EntryState) {
    forall k | k in i.keys && !HasPrefix(k, "pri:") ::
      && (i.Unbuilt() ==> i.latest != "" && cfg.hint(i.latest) == k)
      && (i.build.Ready? ==> Founder(cfg, k, i.build.who))
  }

  /** The trust rule, for one entry. */
  ghost predicate Trusted(i: EntryState, proofs: Evidence) {
    && (!i.build.Ready? ==> i.admitted == [])
    && (i.build.Ready? ==> (i.latest, i.build.who) in proofs)
    && (i.build.Ready? ==> forall b | b in i.admitted :: (b, i.build.who) in proofs)
  }

  ghost predicate EntryInv(cfg: Config, i: EntryState, proofs: Evidence) {
    && |i.admitted| <= KEEP
    && !i.build.Spent?
    && Trusted(i, proofs)
    && LandsRight(cfg, i)
    && Rooted(cfg, i)
  }

  /** Names agree with the entries they refer to. */
  ghost predicate IndexInv(s: State) {
    && Closed(s)
    && (forall k | k in s.entries :: k in s.info[s.entries[k]].keys)
    && (forall b | b in s.byBearer :: b in s.info[s.byBearer[b]].admitted)
  }

  /** Sessions lead to built entries. */
  ghost predicate SessionsBuilt(s: State)
    requires Closed(s)
  {
    forall sid | sid in s.sessions :: s.info[s.sessions[sid]].build.Ready?
  }

  ghost predicate PoolInv(cfg: Config, s: State, proofs: Evidence) {
    && IndexInv(s)
    && SessionsBuilt(s)
    && forall e | 0 <= e < |s.info| :: EntryInv(cfg, s.info[e], proofs)
  }

  lemma BearersFindBuiltEntries(cfg: Config, s: State, proofs: Evidence, b: string)
    requires PoolInv(cfg, s, proofs) && b in s.byBearer
    ensures s.info[s.byBearer[b]].build.Ready?
    ensures (b, s.info[s.byBearer[b]].build.who) in proofs
  {
  }

  // ---- what a step may do to an entry it has no business with ----

  ghost predicate SameNames(m: map<string, nat>, m': map<string, nat>, e: nat) {
    forall k :: (k in m && m[k] == e) <==> (k in m' && m'[k] == e)
  }

  /** Entry e is untouched: its fields, its routes, its bearers and its sessions. */
  ghost predicate SameFor(s: State, s': State, e: nat) {
    && e < |s.info| && e < |s'.info|
    && s'.info[e] == s.info[e]
    && SameNames(s.entries, s'.entries, e)
    && SameNames(s.byBearer, s'.byBearer, e)
    && SameNames(s.sessions, s'.sessions, e)
  }

  /** No name refers to e. */
  ghost predicate Unreferenced(s: State, e: nat) {
    && (forall k | k in s.entries :: s.entries[k] != e)
    && (forall b | b in s.byBearer :: s.byBearer[b] != e)
    && (forall sid | sid in s.sessions :: s.sessions[sid] != e)
  }

  /**
   * Eviction is exact: it removes every reference to e and none to any other entry. Doing it
   * again changes nothing, whatever has taken e's key since.
   */
  lemma EvictionIsExact(s: State, e: nat)
    requires IndexInv(s) && e < |s.info|
    ensures Unreferenced(Evict(s, e), e)
    ensures forall other | 0 <= other < |s.info| && other != e :: SameFor(s, Evict(s, e), other)
    ensures Evict(Evict(s, e), e) == Evict(s, e)
    ensures s.info[e].build.Ready? ==> !AliveAt(Evict(s, e), e)
  {
    var s' := Evict(s, e);
    assert Evict(s', e).entries == s'.entries;
    assert Evict(s', e).byBearer == s'.byBearer;
    assert Evict(s', e).sessions == s'.sessions;
    assert Evict(s', e).info == s'.info;
  }

  /** A late second eviction leaves a replacement that took the same key alone. */
  lemma LateEvictionSparesReplacement(s: State, e: nat, key: string, bearer: string)
    requires IndexInv(s) && e < |s.info|
    ensures var s' := NewEntry(Evict(s, e), key, bearer);
            && Unreferenced(Evict(s', e), e)
            && SameFor(s', Evict(s', e), |s.info|)
            && Evict(s', e) == s'
  {
    EvictionIsExact(s, e);
    var s' := NewEntry(Evict(s, e), key, bearer);
    assert Evict(s', e).entries == s'.entries;
    assert Evict(s', e).byBearer == s'.byBearer;
    assert Evict(s', e).sessions == s'.sessions;
    assert Evict(s', e).info == s'.info;
  }

  // ---- each locked helper keeps the invariant ----

  lemma EvictKeepsInv(cfg: Config, s: State, proofs: Evidence, e: nat)
    requires PoolInv(cfg, s, proofs) && e < |s.info|
    ensures PoolInv(cfg, Evict(s, e), proofs)
  {
    hide EntryInv, IndexInv, Evict;
    EvictKeepsIndex(s, e);
    var s' := Evict(s, e);
    forall o | 0 <= o < |s'.info|
      ensures EntryInv(cfg, s'.info[o], proofs)
    {
      EvictLeavesInfo(s, e, o);
      ShutKeepsEntryInv(cfg, s.info[o], proofs);
    }
    IndexIsClosed(s);
    EvictKeepsSessions(s, e);
  }

  lemma EvictKeepsSessions(s: State, e: nat)
    requires Closed(s) && SessionsBuilt(s) && e < |s.info|
    ensures Closed(Evict(s, e)) && SessionsBuilt(Evict(s, e))
  {
  }

  lemma EvictLeavesInfo(s: State, e: nat, o: nat)
    requires e < |s.info| && o < |s.info|
    ensures |Evict(s, e).info| == |s.info|
    ensures Evict(s, e).info[o] == if o == e then s.info[o].Shut() else s.info[o]
  {
  }

  lemma ShutKeepsEntryInv(cfg: Config, i: EntryState, proofs: Evidence)
    requires EntryInv(cfg, i, proofs)
    ensures EntryInv(cfg, i.Shut(), proofs)
  {
  }

  /** With at most KEEP bearers in the tail, admitting one drops at most the oldest. */
  lemma AdmitEffect(s: State, e: nat, bearer: string)
    requires e < |s.info| && |s.info[e].admitted| <= KEEP && bearer !in s.info[e].admitted
    ensures var tail := s.info[e].admitted;
            var s' := Admit(s, e, bearer);
            var grown := s.byBearer[bearer := e];
            && s'.entries == s.entries && s'.sessions == s.sessions
            && (|tail| < KEEP ==>
                  && s'.byBearer == grown
                  && s'.info == s.info[e := s.info[e].(admitted := tail + [bearer])])
            && (|tail| == KEEP ==>
                  && s'.byBearer == Unname(grown, [tail[0]], e)
                  && s'.info == s.info[e := s.info[e].(admitted := [tail[1], bearer])])
  {
    var tail := s.info[e].admitted;
    var grown := s.byBearer[bearer := e];
    if |tail| == KEEP {
      assert (tail + [bearer])[1..] == [tail[1], bearer];
      assert Trim(tail + [bearer], grown, e) == Trim([tail[1], bearer], Unname(grown, [tail[0]], e), e);
    }
  }

  /** Replacing the tail of a built entry, and its share of the bearer index, by proven bearers. */
  lemma RetailKeepsInv(cfg: Config, s: State, proofs: Evidence, e: nat, tail: seq<string>, byBearer: map<string, nat>)
    requires PoolInv(cfg, s, proofs) && e < |s.info| && s.info[e].build.Ready?
    requires |tail| <= KEEP && forall b | b in tail :: (b, s.info[e].build.who) in proofs
    requires forall b | b in byBearer ::
               if byBearer[b] == e then b in tail else b in s.byBearer && s.byBearer[b] == byBearer[b]
    ensures PoolInv(cfg, s.(byBearer := byBearer, info := s.info[e := s.info[e].(admitted := tail)]), proofs)
  {
  }

  lemma AdmitKeepsInv(cfg: Config, s: State, proofs: Evidence, e: nat, bearer: string)
    requires PoolInv(cfg, s, proofs) && e < |s.info|
    requires s.info[e].build.Ready? && (bearer, s.info[e].build.who) in proofs
    ensures PoolInv(cfg, Admit(s, e, bearer), proofs)
  {
    var tail := s.info[e].admitted;
    if bearer !in tail {
      AdmitEffect(s, e, bearer);
      var s' := Admit(s, e, bearer);
      RetailKeepsInv(cfg, s, proofs, e, s'.info[e].admitted, s'.byBearer);
      assert s' == s.(byBearer := s'.byBearer, info := s.info[e := s.info[e].(admitted := s'.info[e].admitted)]);
    }
  }

  lemma BindKeepsInv(cfg: Config, s: State, proofs: Evidence, sid: string, e: nat)
    requires PoolInv(cfg, s, proofs) && e < |s.info| && s.info[e].build.Ready?
    ensures PoolInv(cfg, Bind(s, sid, e), proofs)
  {
  }

  lemma AdoptKeepsInv(cfg: Config, s: State, proofs: Evidence, e: nat, bearer: string)
    requires PoolInv(cfg, s, proofs) && e < |s.info|
    requires s.info[e].build.Ready? && (bearer, s.info[e].build.who) in proofs
    ensures PoolInv(cfg, Adopt(s, e, bearer), proofs)
  {
  }

  lemma NewEntryKeepsInv(cfg: Config, s: State, proofs: Evidence, key: string, bearer: string)
    requires PoolInv(cfg, s, proofs)
    requires LandsRight(cfg, EntryState([key], bearer, [], Pending))
             && Rooted(cfg, EntryState([key], bearer, [], Pending))
    ensures PoolInv(cfg, NewEntry(s, key, bearer), proofs)
  {
  }

  /** A build advances, fails, or publishes the principal its founding bearer was admitted as. */
  lemma BuildKeepsInv(cfg: Config, s: State, proofs: Evidence, e: nat, build: Build)
    requires PoolInv(cfg, s, proofs) && Truthful(cfg, proofs) && e < |s.info| && s.info[e].Unbuilt()
    requires !build.Spent? && (build.Ready? ==> (s.info[e].latest, build.who) in proofs)
    ensures PoolInv(cfg, SetBuild(s, e, build), proofs)
  {
  }

  lemma DeathKeepsInv(cfg: Config, s: State, proofs: Evidence, e: nat)
    requires PoolInv(cfg, s, proofs) && e < |s.info| && s.info[e].build.Ready?
    ensures PoolInv(cfg, SetBuild(s, e, Ready(s.info[e].build.who, false)), proofs)
  {
  }

  lemma CloseKeepsInv(cfg: Config, s: State, proofs: Evidence)
    requires PoolInv(cfg, s, proofs)
    ensures PoolInv(cfg, CloseAll(s), proofs)
  {
  }

  lemma MoreEvidenceKeepsInv(cfg: Config, s: State, proofs: Evidence, more: Evidence)
    requires PoolInv(cfg, s, proofs) && proofs <= more
    ensures PoolInv(cfg, s, more)
  {
  }

  /** An entry founded under a hint is nobody's principal entry. */
  lemma HintLandsRight(cfg: Config, bearer: string)
    requires Sound(cfg) && bearer != ""
    ensures LandsRight(cfg, EntryState([cfg.hint(bearer)], bearer, [], Pending))
    ensures Rooted(cfg, EntryState([cfg.hint(bearer)], bearer, [], Pending))
  {
    forall b | cfg.owner(b).Some?
      ensures PrincipalKey(cfg.owner(b).value) != cfg.hint(bearer)
    {
      PrincipalKeyIsPrefixed(cfg.owner(b).value);
    }
  }

  /** An entry founded under the principal key of its founding bearer lands right. */
  lemma PrincipalKeyLandsRight(cfg: Config, bearer: string, who: Principal)
    requires Unconfused(cfg) && cfg.owner(bearer) == Some(who) && Steerable(cfg.hint, bearer)
    ensures LandsRight(cfg, EntryState([PrincipalKey(who)], bearer, [], Pending))
    ensures Rooted(cfg, EntryState([PrincipalKey(who)], bearer, [], Pending))
  {
    PrincipalKeyIsPrefixed(who);
  }

  /**
   * A live entry that a bearer finds under its hint, and is not itself founding, is of the bearer's
   * own principal unless another bearer shares the hint.
   */
  lemma MeetsUnderHint(cfg: Config, i: EntryState, bearer: string)
    requires Sound(cfg) && Rooted(cfg, i) && i.Alive() && !i.build.Spent? && cfg.hint(bearer) in i.keys
    requires i.Unbuilt() ==> i.latest != bearer
    ensures Steerable(cfg.hint, bearer) || (i.build.Ready? && cfg.owner(bearer) == Some(i.build.who))
    ensures i.build.Ready? ==> Founder(cfg, cfg.hint(bearer), i.build.who)
  {
    if i.build.Ready? {
      var x :| cfg.hint(x) == cfg.hint(bearer) && cfg.owner(x) == Some(i.build.who);
      assert x == bearer || x != "";
    } else {
      assert cfg.hint(i.latest) == cfg.hint(bearer);
    }
  }

  lemma NewEntryTouchesNone(s: State, key: string, bearer: string, e: nat)
    requires IndexInv(s) && e < |s.info|
    requires key in s.entries ==> s.entries[key] != e
    ensures SameFor(s, NewEntry(s, key, bearer), e)
  {
  }

  lemma SameForTransitive(s: State, s1: State, s2: State, e: nat)
    requires SameFor(s, s1, e) && SameFor(s1, s2, e)
    ensures SameFor(s, s2, e)
  {
  }

  lemma EvictKeepsIndex(s: State, e: nat)
    requires IndexInv(s) && e < |s.info|
    ensures IndexInv(Evict(s, e)) && |Evict(s, e).info| == |s.info|
  {
  }

  lemma LocateSparesLive(s: State, key: string, bearer: string, other: nat)
    requires IndexInv(s) && other < |s.info| && AliveAt(s, other)
    ensures SameFor(s, Locate(s, key, bearer).0, other)
  {
    hide IndexInv, SameFor, Evict, NewEntry, AliveAt, Unreferenced;
    IndexIsClosed(s);
    if key in s.entries {
      var e := s.entries[key];
      if AliveAt(s, e) {
        SameForReflexive(s, other);
      } else {
        EvictionIsExact(s, e);
        EvictKeepsIndex(s, e);
        FreeKey(s, key);
        NewEntryTouchesNone(Evict(s, e), key, bearer, other);
        SameForTransitive(s, Evict(s, e), NewEntry(Evict(s, e), key, bearer), other);
      }
    } else {
      NewEntryTouchesNone(s, key, bearer, other);
    }
  }

  lemma IndexIsClosed(s: State)
    requires IndexInv(s)
    ensures Closed(s)
  {
  }

  lemma SameForReflexive(s: State, e: nat)
    requires e < |s.info|
    ensures SameFor(s, s, e)
  {
  }

  /** Evicting the entry under a key frees the key. */
  lemma FreeKey(s: State, key: string)
    requires IndexInv(s) && key in s.entries
    ensures key !in Evict(s, s.entries[key]).entries
  {
  }

  lemma LocateKeepsInv(cfg: Config, s: State, proofs: Evidence, key: string, bearer: string)
    requires PoolInv(cfg, s, proofs)
    requires LandsRight(cfg, EntryState([key], bearer, [], Pending))
             && Rooted(cfg, EntryState([key], bearer, [], Pending))
    ensures PoolInv(cfg, Locate(s, key, bearer).0, proofs)
  {
    hide EntryInv, Evict, NewEntry, LandsRight;
    if key in s.entries && !AliveAt(s, s.entries[key]) {
      EvictKeepsInv(cfg, s, proofs, s.entries[key]);
      NewEntryKeepsInv(cfg, Evict(s, s.entries[key]), proofs, key, bearer);
    } else if key !in s.entries {
      NewEntryKeepsInv(cfg, s, proofs, key, bearer);
    }
  }

  /** Locating a key keeps the invariant and touches no live entry. */
  lemma LocateKeeps(cfg: Config, s: State, proofs: Evidence, key: string, bearer: string)
    requires PoolInv(cfg, s, proofs)
    requires LandsRight(cfg, EntryState([key], bearer, [], Pending))
             && Rooted(cfg, EntryState([key], bearer, [], Pending))
    ensures var (s', e) := Locate(s, key, bearer);
            && PoolInv(cfg, s', proofs)
            && key in s'.info[e].keys && s'.info[e].Alive()
            && (e < |s.info| || s'.info[e] == EntryState([key], bearer, [], Pending))
            && |s.info| <= |s'.info|
            && forall other | 0 <= other < |s.info| && AliveAt(s, other) :: SameFor(s, s', other)
  {
    hide EntryInv, LandsRight, SameFor;
    LocateKeepsInv(cfg, s, proofs, key, bearer);
    forall other | 0 <= other < |s.info| && AliveAt(s, other)
      ensures SameFor(s, Locate(s, key, bearer).0, other)
    {
      LocateSparesLive(s, key, bearer, other);
    }
  }
}
