/**
 * pool.go as functions on values: the state guarded by the pool's mutex, and the critical
 * sections that change it. An entry is identified by its position in `info`, in order of creation.
 */
module PoolSpec {
  import opened Wrappers
  import opened Grants
  import opened Routing

  /**
   * The once-only build of an entry. `Running(runner)` is a build in progress in request `runner`.
   * `Ready` publishes the principal; `open` is the liveness of the pooled connection. `Spent` is what
   * a panic leaves: the build has had its one run, without an error and without a connection.
   */
  datatype Build = Pending | Running(runner: nat) | Failed | Spent | Ready(who: Principal, open: bool)

  /**
   * How far an attempt against the realm gets: refused at the dial, no principal in the user info,
   * then the stages of connect, or all the way.
   */
  datatype Fate = DialRefused | NoUserInfo | NoSigner | NoRealmClient | NoStream | Fine {
    /** The bearer was admitted and the server was asked who it is. */
    predicate Admits() {
      !DialRefused? && !NoUserInfo?
    }
  }

  /** The principal an attempt with this bearer proves, if any: probe, and the first half of connect. */
  function Proves(cfg: Config, fate: Fate, bearer: string): Option<Principal> {
    if fate.Admits() then cfg.owner(bearer) else None
  }

  /** The attempt ends in the panic of the parser. */
  predicate Crashes(cfg: Config, fate: Fate, bearer: string) {
    fate.Admits() && cfg.panics(bearer)
  }

  /** Only an attempt that is refused at the dial, or gets no user info, proves nothing of a bearer the realm knows. */
  lemma ProvesExactly(cfg: Config, fate: Fate, bearer: string, who: Principal)
    ensures Proves(cfg, fate, bearer) == Some(who) <==>
            fate != DialRefused && fate != NoUserInfo && cfg.owner(bearer) == Some(who)
    ensures Crashes(cfg, fate, bearer) <==> fate != DialRefused && fate != NoUserInfo && cfg.panics(bearer)
  {
  }

  datatype EntryState = EntryState(keys: seq<string>, latest: string, admitted: seq<string>, build: Build) {
    /** aliveLocked */
    predicate Alive() {
      match build
      case Failed => false
      case Ready(_, open) => open
      case _ => true
    }

    predicate Unbuilt() {
      build.Pending? || build.Running?
    }

    /** The build has had its run and left no error. */
    predicate Built() {
      build.Ready? || build.Spent?
    }

    /** The fields `persona` and `account` are empty until the build publishes them. */
    predicate Is(who: Principal) {
      && who.persona == (if build.Ready? then build.who.persona else "")
      && who.account == (if build.Ready? then build.who.account else "")
    }

    /** shutdown: closing the realm client closes its connection. */
    function Shut(): EntryState {
      if build.Ready? then this.(build := Ready(build.who, false)) else this
    }
  }

  datatype State = State(entries: map<string, nat>, byBearer: map<string, nat>, sessions: map<string, nat>,
                         info: seq<EntryState>)

  const EMPTY := State(map[], map[], map[], [])

  /** Every reference is to an entry. */
  ghost predicate Closed(s: State) {
    && (forall k | k in s.entries :: s.entries[k] < |s.info|)
    && (forall b | b in s.byBearer :: s.byBearer[b] < |s.info|)
    && (forall sid | sid in s.sessions :: s.sessions[sid] < |s.info|)
  }

  predicate AliveAt(s: State, e: nat)
    requires e < |s.info|
  {
    s.info[e].Alive()
  }

  /** Delete those of `names` that refer to e. */
  function Unname(m: map<string, nat>, names: seq<string>, e: nat): map<string, nat> {
    map k | k in m && !(k in names && m[k] == e) :: m[k]
  }

  /** Delete every name of e. */
  function Forget(m: map<string, nat>, e: nat): map<string, nat> {
    map k | k in m && m[k] != e :: m[k]
  }

  /** evictLocked */
  function Evict(s: State, e: nat): State
    requires e < |s.info|
  {
    State(Unname(s.entries, s.info[e].keys, e), Unname(s.byBearer, s.info[e].admitted, e), Forget(s.sessions, e),
          s.info[e := s.info[e].Shut()])
  }

  const KEEP := 2

  /** The tail trim of admitLocked: what is left of the tail and of the bearer index. */
  function Trim(tail: seq<string>, byBearer: map<string, nat>, e: nat): (seq<string>, map<string, nat>) {
    if |tail| <= KEEP then (tail, byBearer)
    else Trim(tail[1..], Unname(byBearer, [tail[0]], e), e)
  }

  /** admitLocked */
  function Admit(s: State, e: nat, bearer: string): State
    requires e < |s.info|
  {
    if bearer in s.info[e].admitted then s
    else
      var trimmed := Trim(s.info[e].admitted + [bearer], s.byBearer[bearer := e], e);
      s.(byBearer := trimmed.1, info := s.info[e := s.info[e].(admitted := trimmed.0)])
  }

  /** bindLocked */
  function Bind(s: State, sid: string, e: nat): State {
    if sid == "" || sid in s.sessions then s else s.(sessions := s.sessions[sid := e])
  }

  /** newEntryLocked: the new entry is the last one. */
  function NewEntry(s: State, key: string, bearer: string): State {
    s.(entries := s.entries[key := |s.info|], info := s.info + [EntryState([key], bearer, [], Pending)])
  }

  /** adopt */
  function Adopt(s: State, e: nat, bearer: string): State
    requires e < |s.info|
  {
    s.(info := s.info[e := s.info[e].(latest := bearer)])
  }

  /** The progress of an entry's build, or the death of its connection. */
  function SetBuild(s: State, e: nat, build: Build): State
    requires e < |s.info|
  {
    s.(info := s.info[e := s.info[e].(build := build)])
  }

  /** serverFor: the entry whose server is returned, if any. */
  function ServerFor(s: State, bearer: string): Option<nat> {
    if bearer in s.byBearer && s.byBearer[bearer] < |s.info| && AliveAt(s, s.byBearer[bearer])
    then Some(s.byBearer[bearer]) else None
  }

  /** close: every indexed entry is shut down and the indexes are emptied. */
  function CloseAll(s: State): State {
    State(map[], map[], map[],
          seq(|s.info|, i requires 0 <= i < |s.info| => if i in s.entries.Values then s.info[i].Shut() else s.info[i]))
  }

  // ---- the critical sections that decide where a request goes ----

  /** What `resolve` does after its first critical section. */
  datatype Goto =
    | ToAdopt(e: nat)
    | ToMismatch
    | ToProbeBound(e: nat)
    | ToBuild(e: nat)
    | ToProbe(e: nat)

  /** The session names a live entry. */
  predicate BoundLive(s: State, sid: string)
    requires Closed(s)
  {
    sid != "" && sid in s.sessions && AliveAt(s, s.sessions[sid])
  }

  /** resolve, from taking the mutex to first releasing it. */
  function Enter(s: State, bearer: string, sid: string, hint: string): (State, Goto)
    requires Closed(s)
  {
    if BoundLive(s, sid) then (s, EnterBound(s, bearer, s.sessions[sid]))
    else if sid != "" && sid in s.sessions then EnterUnbound(Evict(s, s.sessions[sid]), bearer, sid, hint)
    else EnterUnbound(s, bearer, sid, hint)
  }

  /** The request is on the session of a live entry. */
  function EnterBound(s: State, bearer: string, bound: nat): Goto
    requires bound < |s.info|
  {
    if bearer in s.info[bound].admitted then ToAdopt(bound)
    else if bearer in s.byBearer && s.byBearer[bearer] != bound then ToMismatch
    else ToProbeBound(bound)
  }

  /** The request is not on a live session: look the bearer up. */
  function EnterUnbound(s: State, bearer: string, sid: string, hint: string): (State, Goto)
    requires Closed(s)
  {
    if bearer in s.byBearer then
      var e := s.byBearer[bearer];
      if AliveAt(s, e) then (Bind(s, sid, e), ToAdopt(e)) else EnterByHint(Evict(s, e), bearer, hint)
    else EnterByHint(s, bearer, hint)
  }

  /** The bearer is not admitted anywhere alive: route by hint. */
  function EnterByHint(s: State, bearer: string, hint: string): (State, Goto)
    requires Closed(s)
  {
    var (s', e) := Locate(s, hint, bearer);
    (s', if s'.info[e].latest == bearer then ToBuild(e) else ToProbe(e))
  }

  /** The live entry under a key; a corpse there is evicted and replaced, as is a missing entry. */
  function Locate(s: State, key: string, bearer: string): (r: (State, nat))
    requires Closed(s)
    ensures r.1 < |r.0.info|
  {
    if key in s.entries && AliveAt(s, s.entries[key]) then (s, s.entries[key])
    else
      var s1 := if key in s.entries then Evict(s, s.entries[key]) else s;
      (NewEntry(s1, key, bearer), |s.info|)
  }

  /** A critical section leaves every reference to an entry, and sends the request to one. */
  ghost predicate Leads(r: (State, Goto)) {
    Closed(r.0) && (r.1.ToMismatch? || r.1.e < |r.0.info|)
  }

  lemma EvictClosed(s: State, e: nat)
    requires Closed(s) && e < |s.info|
    ensures Closed(Evict(s, e))
  {
  }

  lemma EnterUnboundLeads(s: State, bearer: string, sid: string, hint: string)
    requires Closed(s)
    ensures Leads(EnterUnbound(s, bearer, sid, hint))
  {
    if bearer in s.byBearer {
      EvictClosed(s, s.byBearer[bearer]);
      EnterByHintLeads(Evict(s, s.byBearer[bearer]), bearer, hint);
    } else {
      EnterByHintLeads(s, bearer, hint);
    }
  }

  lemma EnterByHintLeads(s: State, bearer: string, hint: string)
    requires Closed(s)
    ensures Leads(EnterByHint(s, bearer, hint))
  {
    if hint in s.entries {
      EvictClosed(s, s.entries[hint]);
    }
  }

  lemma EnterLeads(s: State, bearer: string, sid: string, hint: string)
    requires Closed(s)
    ensures Leads(Enter(s, bearer, sid, hint))
  {
    if !BoundLive(s, sid) {
      if sid in s.sessions {
        EvictClosed(s, s.sessions[sid]);
        EnterUnboundLeads(Evict(s, s.sessions[sid]), bearer, sid, hint);
      }
      EnterUnboundLeads(s, bearer, sid, hint);
    }
  }
}
