/**
 * pool.go as it is written: the pool and its entries as objects, the maps and fields updated in
 * place under the mutex. Every method is proved against the functions of PoolSpec and Sequential
 * on the abstract state `Abs()`.
 */
module PoolImpl {
  import opened Wrappers
  import opened Grants
  import opened Routing
  import opened PoolSpec
  import S = Sequential
  import R = SequentialRuns

  /**
   * The realm as the node sees it: attempts to connect are numbered, `fates` says how far each
   * one gets, and `open` are the connections that have not been closed or died. `leaked` are those
   * that a panic has left without a holder.
   */
  class Realm {
    const owner: string -> Option<Principal>
    const panics: string -> bool
    const fates: nat -> Fate
    var attempts: nat
    var open: set<nat>
    var leaked: set<nat>
    var tokens: map<nat, string>

    ghost predicate Valid()
      reads this
    {
      forall c | c in open :: c < attempts
    }

    constructor (owner: string -> Option<Principal>, panics: string -> bool, fates: nat -> Fate)
      ensures Valid() && open == {} && leaked == {} && attempts == 0
      ensures this.owner == owner && this.panics == panics && this.fates == fates
    {
      this.owner, this.panics, this.fates := owner, panics, fates;
      attempts, open, leaked, tokens := 0, {}, {}, map[];
    }

    /** nats.Connect */
    method Connect(token: string) returns (nc: Option<nat>)
      requires Valid()
      modifies this`attempts, this`open, this`tokens
      ensures Valid() && attempts == old(attempts) + 1
      ensures nc == if fates(old(attempts)).DialRefused? then None else Some(old(attempts))
      ensures open == if nc.Some? then old(open) + {nc.value} else old(open)
      ensures nc.Some? ==> nc.value in tokens && tokens[nc.value] == token
    {
      nc := if fates(attempts).DialRefused? then None else Some(attempts);
      if nc.Some? {
        open := open + {nc.value};
        tokens := tokens[nc.value := token];
      }
      attempts := attempts + 1;
    }

    /** principalOf: the server answers from the token the connection was opened with, and the answer is parsed. */
    method PrincipalOf(nc: nat) returns (who: Match)
      requires nc in tokens
      ensures who == if fates(nc).NoUserInfo? then Skip else Parsed(tokens[nc])
    {
      who := if fates(nc).NoUserInfo? then Skip else Parsed(tokens[nc]);
    }

    /** What the parser makes of the allow list of a token. */
    function Parsed(token: string): Match {
      if panics(token) then Panics else match owner(token) case Some(who) => Hit(who) case None => Skip
    }

    /** A panic unwinds past the last holder of a connection. */
    method Abandon(nc: nat)
      requires Valid()
      modifies this`open, this`leaked
      ensures Valid() && open == old(open) - {nc} && leaked == old(leaked) + {nc}
    {
      open, leaked := open - {nc}, leaked + {nc};
    }

    /** The server, or the network, closes a connection for good. */
    method Drop(nc: nat)
      requires Valid()
      modifies this`open
      ensures Valid() && open == old(open) - {nc}
    {
      open := open - {nc};
    }

    /** Close of a connection, or of the realm client that owns it. */
    method Close(nc: nat)
      requires Valid()
      modifies this`open
      ensures Valid() && open == old(open) - {nc}
    {
      open := open - {nc};
    }
  }

  /** The per-principal tool surface, on one connection. */
  datatype Server = Server(conn: nat, who: Principal)

  class Entry {
    ghost const id: nat
    const keys: seq<string>
    var latest: string
    var built: bool
    var err: bool
    var nc: Option<nat>
    var persona: string
    var account: string
    var server: Option<Server>
    var admitted: seq<string>

    /** The entry as a value, given which connections are open. */
    ghost function Snapshot(open: set<nat>): EntryState
      reads this
    {
      EntryState(keys, latest, admitted,
                 if !built then Pending
                 else if err then Failed
                 else if nc.None? then Spent
                 else Ready(Principal(persona, account), nc.value in open))
    }

    /** Only a build that ended well publishes anything, and it publishes everything. */
    ghost predicate Consistent()
      reads `built, `err, `nc, `server, `persona, `account
    {
      if built && !err && nc.Some? then server == Some(Server(nc.value, Principal(persona, account)))
      else nc.None? && server.None? && persona == "" && account == "" && (err ==> built)
    }

    constructor (ghost id: nat, key: string, bearer: string)
      ensures this.id == id && Consistent() && nc.None?
      ensures Snapshot({}) == EntryState([key], bearer, [], Pending)
    {
      this.id := id;
      keys, latest, admitted := [key], bearer, [];
      built, err, nc, server := false, false, None, None;
      persona, account := "", "";
    }
  }

  /** What resolve returns: an entry, or one of its errors; or it panics. */
  datatype Resolved = Ok(e: Entry) | Err(mismatch: bool) | Panic

  /** How connect ends. */
  datatype Ending = Published | Failing | Panicking

  /** What a probe with this bearer learns. */
  ghost function Answer(cfg: Config, fate: Fate, bearer: string): Match {
    if Crashes(cfg, fate, bearer) then Panics
    else match Proves(cfg, fate, bearer) case Some(who) => Hit(who) case None => Skip
  }

  ghost function VerdictOf(r: Resolved): S.Verdict {
    match r
    case Ok(e) => S.Served(e.id)
    case Err(mismatch) => if mismatch then S.Mismatch else S.Refused
    case Panic => S.Crashed
  }

  /** Names of entries, as names of their identities. */
  ghost function Ids(m: map<string, Entry>): map<string, nat> {
    map k | k in m :: m[k].id
  }

  ghost function Infos(all: seq<Entry>, open: set<nat>): (infos: seq<EntryState>)
    reads all
    ensures |infos| == |all| && forall i | 0 <= i < |all| :: infos[i] == all[i].Snapshot(open)
  {
    seq(|all|, i requires 0 <= i < |all| reads all => all[i].Snapshot(open))
  }

  ghost predicate Known(m: map<string, Entry>, all: seq<Entry>) {
    forall k | k in m :: m[k].id < |all| && all[m[k].id] == m[k]
  }

  /** Entries are numbered in order, agree with themselves, and share no connection. */
  ghost predicate Numbered(all: seq<Entry>, attempts: nat)
    reads all`built, all`err, all`nc, all`server, all`persona, all`account
  {
    && (forall i | 0 <= i < |all| :: all[i].id == i && all[i].Consistent())
    && (forall i | 0 <= i < |all| && all[i].nc.Some? :: all[i].nc.value < attempts)
    && (forall i, j | 0 <= i < j < |all| && all[i].nc.Some? :: all[i].nc != all[j].nc)
  }

  /** Every open connection is the pooled connection of some entry. */
  ghost predicate NoStrays(all: seq<Entry>, open: set<nat>)
    reads all`nc
  {
    forall c | c in open :: exists i :: 0 <= i < |all| && all[i].nc == Some(c)
  }

  lemma Appended(all: seq<Entry>, e: Entry, attempts: nat, open: set<nat>)
    requires Numbered(all, attempts) && NoStrays(all, open) && e.id == |all| && e.Consistent() && e.nc.None?
    ensures Numbered(all + [e], attempts) && NoStrays(all + [e], open)
    ensures Infos(all + [e], open) == Infos(all, open) + [e.Snapshot(open)]
  {
    forall c | c in open
      ensures exists i :: 0 <= i < |all + [e]| && (all + [e])[i].nc == Some(c)
    {
      var i :| 0 <= i < |all| && all[i].nc == Some(c);
      assert (all + [e])[i] == all[i];
    }
  }

  lemma KnownGrows(m: map<string, Entry>, all: seq<Entry>, e: Entry)
    requires Known(m, all)
    ensures Known(m, all + [e])
  {
  }

  /** Setting a name, on objects and on identities. */
  lemma Named(m: map<string, Entry>, all: seq<Entry>, k: string, e: Entry)
    requires Known(m, all) && e.id < |all| && all[e.id] == e
    ensures Known(m[k := e], all) && Ids(m[k := e]) == Ids(m)[k := e.id]
  {
  }

  lemma Removed(m: map<string, Entry>, all: seq<Entry>, k: string)
    requires Known(m, all)
    ensures Known(m - {k}, all) && Ids(m - {k}) == Ids(m) - {k}
  {
  }

  /** Deleting a name if it refers to e. */
  lemma DropName(m: map<string, Entry>, all: seq<Entry>, k: string, e: Entry)
    requires Known(m, all) && e.id < |all| && all[e.id] == e
    ensures if k in m && m[k] == e then Known(m - {k}, all) && Ids(m - {k}) == Unname(Ids(m), [k], e.id)
            else Ids(m) == Unname(Ids(m), [k], e.id)
  {
  }

  /** One more name considered for deletion. */
  lemma UnnameStep(m: map<string, nat>, names: seq<string>, i: nat, e: nat)
    requires i < |names|
    ensures var done := Unname(m, names[..i], e);
            Unname(m, names[..i + 1], e) == if names[i] in done && done[names[i]] == e then done - {names[i]} else done
  {
    assert names[..i + 1] == names[..i] + [names[i]];
  }

  /** Deleting the names that refer to e, on objects and on identities. */
  lemma Unnamed(m: map<string, Entry>, m': map<string, Entry>, all: seq<Entry>, names: seq<string>, e: Entry)
    requires Known(m, all) && Known(m', all) && e.id < |all| && all[e.id] == e
    requires Ids(m') == Unname(Ids(m), names, e.id)
    ensures m' == map k | k in m && !(k in names && m[k] == e) :: m[k]
  {
    forall k
      ensures k in m' <==> k in m && !(k in names && m[k] == e)
      ensures k in m' ==> m'[k] == m[k]
    {
      assert k in m' <==> k in Ids(m');
      assert k in m <==> k in Ids(m);
    }
  }

  /** Closing an entry's connection shuts that entry and no other. */
  lemma ShutOne(all: seq<Entry>, attempts: nat, open: set<nat>, e: Entry)
    requires Numbered(all, attempts) && NoStrays(all, open) && e.id < |all| && all[e.id] == e
    ensures var rest := if e.nc.Some? then open - {e.nc.value} else open;
            && NoStrays(all, rest)
            && Infos(all, rest) == Infos(all, open)[e.id := Infos(all, open)[e.id].Shut()]
  {
    var rest := if e.nc.Some? then open - {e.nc.value} else open;
    forall i | 0 <= i < |all|
      ensures Infos(all, rest)[i] == if i == e.id then Infos(all, open)[i].Shut() else Infos(all, open)[i]
    {
    }
  }

  lemma Bounded(all: seq<Entry>, attempts: nat, e: Entry)
    requires Numbered(all, attempts) && e.id < |all| && all[e.id] == e
    ensures e.Consistent() && (e.nc.Some? ==> e.nc.value < attempts)
  {
  }

  /** What is known of all entries but e, which may be changing: none of it reads e. */
  ghost predicate Rest(all: seq<Entry>, e: Entry, attempts: nat, open: set<nat>, own: Option<nat>, was: seq<EntryState>)
    reads set x | x in all && x != e
  {
    && e.id < |all| == |was| && all[e.id] == e
    && (forall i | 0 <= i < |all| && i != e.id ::
          && all[i] != e && all[i].id == i && all[i].Consistent() && all[i].Snapshot(open) == was[i]
          && (all[i].nc.Some? ==> all[i].nc.value < attempts && all[i].nc != own))
    && (forall i, j | 0 <= i < j < |all| && i != e.id && j != e.id :: all[i].nc.Some? ==> all[i].nc != all[j].nc)
    && (forall c | c in open && Some(c) != own :: exists i :: 0 <= i < |all| && i != e.id && all[i].nc == Some(c))
  }

  lemma Part(all: seq<Entry>, e: Entry, attempts: nat, open: set<nat>)
    requires Numbered(all, attempts) && NoStrays(all, open) && e.id < |all| && all[e.id] == e
    ensures Rest(all, e, attempts, open, e.nc, Infos(all, open))
  {
    forall c | c in open && Some(c) != e.nc
      ensures exists i :: 0 <= i < |all| && i != e.id && all[i].nc == Some(c)
    {
      var i :| 0 <= i < |all| && all[i].nc == Some(c);
      assert i != e.id;
    }
  }

  /** e has changed, but not its connection. */
  lemma Rejoin(all: seq<Entry>, e: Entry, attempts: nat, open: set<nat>, was: seq<EntryState>, now: nat)
    requires Rest(all, e, attempts, open, e.nc, was) && attempts <= now
    requires e.Consistent() && (e.nc.Some? ==> e.nc.value < attempts)
    ensures Numbered(all, now) && NoStrays(all, open)
    ensures Infos(all, open) == was[e.id := e.Snapshot(open)]
  {
    forall c | c in open
      ensures exists i :: 0 <= i < |all| && all[i].nc == Some(c)
    {
      if e.nc == Some(c) {
        assert all[e.id].nc == Some(c);
      }
    }
  }

  /** e has published a new connection. */
  lemma RejoinPublished(all: seq<Entry>, e: Entry, n: nat, open: set<nat>, was: seq<EntryState>)
    requires Rest(all, e, n, open, None, was) && e.Consistent() && e.nc == Some(n)
    ensures Numbered(all, n + 1) && NoStrays(all, open + {n})
    ensures Infos(all, open + {n}) == was[e.id := e.Snapshot(open + {n})]
  {
    assert all[e.id].nc == Some(n);
  }

  class Pool {
    const cfg: Config
    const realm: Realm
    var entries: map<string, Entry>
    var byBearer: map<string, Entry>
    var sessions: map<string, Entry>
    /** Every entry ever created, in order. */
    ghost var all: seq<Entry>
    /** The mutex is held. */
    ghost var held: bool

    ghost predicate Valid()
      reads this, realm, all
    {
      && realm.Valid() && realm.owner == cfg.owner && realm.panics == cfg.panics
      && Numbered(all, realm.attempts) && NoStrays(all, realm.open)
      && Known(entries, all) && Known(byBearer, all) && Known(sessions, all)
    }

    ghost function Abs(): (s: State)
      reads this, realm, all
      ensures |s.info| == |all|
    {
      State(Ids(entries), Ids(byBearer), Ids(sessions), Infos(all, realm.open))
    }

    ghost predicate Knows(e: Entry)
      reads this
    {
      e.id < |all| && all[e.id] == e
    }

    constructor (cfg: Config, realm: Realm)
      requires realm.Valid() && realm.owner == cfg.owner && realm.panics == cfg.panics && realm.open == {}
      ensures Valid() && !held && Abs() == EMPTY && all == []
      ensures this.cfg == cfg && this.realm == realm
    {
      this.cfg, this.realm := cfg, realm;
      entries, byBearer, sessions := map[], map[], map[];
      all, held := [], false;
    }

    // ---- the mutex ----

    method Lock()
      requires !held && Valid()
      modifies this`held
      ensures held && Valid() && Abs() == old(Abs())
    {
      hide NoStrays, Numbered, Infos, Known, Ids;
      held := true;
    }

    method Unlock()
      requires held && Valid()
      modifies this`held
      ensures !held && Valid() && Abs() == old(Abs())
    {
      hide NoStrays, Numbered, Infos, Known, Ids;
      held := false;
    }

    /** Reading the maps takes the mutex. */
    function EntryAt(key: string): (r: Option<Entry>)
      requires held && Valid()
      reads this, realm, all
      ensures r.Some? <==> key in Abs().entries
      ensures r.Some? ==> Knows(r.value) && r.value.id == Abs().entries[key]
    {
      if key in entries then Some(entries[key]) else None
    }

    function BearerAt(bearer: string): (r: Option<Entry>)
      requires held && Valid()
      reads this, realm, all
      ensures r.Some? <==> bearer in Abs().byBearer
      ensures r.Some? ==> Knows(r.value) && r.value.id == Abs().byBearer[bearer]
    {
      if bearer in byBearer then Some(byBearer[bearer]) else None
    }

    function SessionAt(sid: string): (r: Option<Entry>)
      requires held && Valid()
      reads this, realm, all
      ensures r.Some? <==> sid in Abs().sessions
      ensures r.Some? ==> Knows(r.value) && r.value.id == Abs().sessions[sid]
    {
      if sid in sessions then Some(sessions[sid]) else None
    }

    // ---- locked helpers ----

    /** aliveLocked */
    method AliveLocked(e: Entry) returns (alive: bool)
      requires held && Valid() && Knows(e)
      ensures alive == AliveAt(Abs(), e.id)
    {
      alive := !e.err && (e.nc.None? || e.nc.value in realm.open);
    }

    method NewEntryLocked(key: string, bearer: string) returns (e: Entry)
      requires held && Valid()
      modifies this`entries, this`all
      ensures Valid() && fresh(e) && all == old(all) + [e] && e.id == |old(all)| && Knows(e)
      ensures Abs() == NewEntry(old(Abs()), key, bearer)
      ensures entries == old(entries)[key := e] && e.keys == [key] && e.latest == bearer && e.admitted == [] && !e.built
    {
      hide Numbered, NoStrays, Known, Infos, Ids, Evict;
      e := new Entry(|all|, key, bearer);
      Appended(all, e, realm.attempts, realm.open);
      KnownGrows(entries, all, e);
      KnownGrows(byBearer, all, e);
      KnownGrows(sessions, all, e);
      Named(entries, all + [e], key, e);
      entries := entries[key := e];
      all := all + [e];
    }

    method BindLocked(sid: string, e: Entry)
      requires held && Valid() && Knows(e)
      modifies this`sessions
      ensures Valid()
      ensures Abs() == Bind(old(Abs()), sid, e.id)
      ensures sessions == if sid == "" || sid in old(sessions) then old(sessions) else old(sessions)[sid := e]
    {
      hide Numbered, NoStrays, Infos;
      if sid == "" {
        return;
      }
      if sid !in sessions {
        Named(sessions, all, sid, e);
        sessions := sessions[sid := e];
      }
    }

    /** evictLocked, first loop: the routing keys. */
    method EvictKeys(e: Entry)
      requires held && Valid() && Knows(e)
      modifies this`entries
      ensures Known(entries, all) && Ids(entries) == Unname(old(Ids(entries)), e.keys, e.id)
      ensures entries == map k | k in old(entries) && !(k in e.keys && old(entries)[k] == e) :: old(entries)[k]
    {
      hide Numbered, NoStrays, Infos;
      for i := 0 to |e.keys|
        invariant Known(entries, all) && Ids(entries) == Unname(old(Ids(entries)), e.keys[..i], e.id)
      {
        UnnameStep(old(Ids(entries)), e.keys, i, e.id);
        if e.keys[i] in entries && entries[e.keys[i]] == e {
          Removed(entries, all, e.keys[i]);
          entries := entries - {e.keys[i]};
        }
      }
      assert e.keys[..|e.keys|] == e.keys;
      Unnamed(old(entries), entries, all, e.keys, e);
    }

    /** evictLocked, second loop: the admitted bearers. */
    method EvictBearers(e: Entry)
      requires held && Valid() && Knows(e)
      modifies this`byBearer
      ensures Known(byBearer, all) && Ids(byBearer) == Unname(old(Ids(byBearer)), e.admitted, e.id)
      ensures byBearer == map b | b in old(byBearer) && !(b in e.admitted && old(byBearer)[b] == e) :: old(byBearer)[b]
    {
      hide Numbered, NoStrays, Infos;
      for i := 0 to |e.admitted|
        invariant Known(byBearer, all) && Ids(byBearer) == Unname(old(Ids(byBearer)), e.admitted[..i], e.id)
      {
        UnnameStep(old(Ids(byBearer)), e.admitted, i, e.id);
        if e.admitted[i] in byBearer && byBearer[e.admitted[i]] == e {
          Removed(byBearer, all, e.admitted[i]);
          byBearer := byBearer - {e.admitted[i]};
        }
      }
      assert e.admitted[..|e.admitted|] == e.admitted;
      Unnamed(old(byBearer), byBearer, all, e.admitted, e);
    }

    /** evictLocked, third loop: the sessions, in whatever order. */
    method EvictSessions(e: Entry)
      requires held && Valid() && Knows(e)
      modifies this`sessions
      ensures Known(sessions, all) && Ids(sessions) == Forget(old(Ids(sessions)), e.id)
      ensures sessions == map sid | sid in old(sessions) && old(sessions)[sid] != e :: old(sessions)[sid]
    {
      hide Numbered, NoStrays, Infos;
      var todo := sessions.Keys;
      while todo != {}
        invariant forall sid | sid in sessions :: sid in old(sessions) && sessions[sid] == old(sessions)[sid]
        invariant forall sid | sid in old(sessions) :: sid in sessions <==> sid in todo || old(sessions)[sid] != e
        invariant todo <= sessions.Keys
      {
        var sid :| sid in todo;
        if sessions[sid] == e {
          sessions := sessions - {sid};
        }
        todo := todo - {sid};
      }
      assert Ids(sessions) == Forget(old(Ids(sessions)), e.id);
    }

    /** shutdown */
    method Shutdown(e: Entry)
      requires Valid() && Knows(e)
      modifies realm`open
      ensures Valid()
      ensures Abs() == old(Abs()).(info := old(Abs()).info[e.id := old(Abs()).info[e.id].Shut()])
      ensures realm.open == if e.nc.Some? then old(realm.open) - {e.nc.value} else old(realm.open)
    {
      hide Numbered, NoStrays, Infos, Known, Ids;
      ShutOne(all, realm.attempts, realm.open, e);
      if e.nc.Some? {
        realm.Close(e.nc.value);
      }
    }

    /** What referred to e is gone from the maps, what referred to others is not, and e's connection is closed. */
    twostate predicate Forgotten(e: Entry)
      reads this, realm, e
    {
      && entries == (map k | k in old(entries) && !(k in e.keys && old(entries)[k] == e) :: old(entries)[k])
      && byBearer == (map b | b in old(byBearer) && !(b in e.admitted && old(byBearer)[b] == e) :: old(byBearer)[b])
      && sessions == (map sid | sid in old(sessions) && old(sessions)[sid] != e :: old(sessions)[sid])
      && realm.open == if e.nc.Some? then old(realm.open) - {e.nc.value} else old(realm.open)
    }

    /** evictLocked */
    method EvictLocked(e: Entry)
      requires held && Valid() && Knows(e)
      modifies this`entries, this`byBearer, this`sessions, realm`open
      ensures Valid() && Forgotten(e)
      ensures Abs() == Evict(old(Abs()), e.id)
    {
      hide Numbered, NoStrays, Infos, Known, Ids;
      assert old(Abs()).info[e.id] == e.Snapshot(realm.open);
      EvictKeys(e);
      EvictBearers(e);
      EvictSessions(e);
      Shutdown(e);
    }

    /** isAdmittedLocked */
    method IsAdmittedLocked(e: Entry, bearer: string) returns (admitted: bool)
      requires held
      ensures admitted == (bearer in e.admitted)
    {
      for i := 0 to |e.admitted|
        invariant bearer !in e.admitted[..i]
      {
        if e.admitted[i] == bearer {
          return true;
        }
      }
      return false;
    }

    /** admitLocked, the trim of the tail. */
    method TrimLocked(e: Entry)
      requires held && Known(byBearer, all) && Knows(e)
      modifies this`byBearer, e`admitted
      ensures Known(byBearer, all)
      ensures (e.admitted, Ids(byBearer)) == Trim(old(e.admitted), old(Ids(byBearer)), e.id)
    {
      while |e.admitted| > KEEP
        invariant Known(byBearer, all)
        invariant Trim(e.admitted, Ids(byBearer), e.id) == Trim(old(e.admitted), old(Ids(byBearer)), e.id)
        decreases |e.admitted|
      {
        var drop := e.admitted[0];
        e.admitted := e.admitted[1..];
        DropName(byBearer, all, drop, e);
        if drop in byBearer && byBearer[drop] == e {
          byBearer := byBearer - {drop};
        }
      }
    }

    /** admitLocked, for a bearer that is not in the tail. */
    method AdmitNew(e: Entry, bearer: string)
      requires held && Known(byBearer, all) && Knows(e)
      modifies this`byBearer, e`admitted
      ensures Known(byBearer, all)
      ensures (e.admitted, Ids(byBearer)) == Trim(old(e.admitted) + [bearer], old(Ids(byBearer))[bearer := e.id], e.id)
    {
      e.admitted := e.admitted + [bearer];
      Named(byBearer, all, bearer, e);
      byBearer := byBearer[bearer := e];
      TrimLocked(e);
    }

    /** admitLocked */
    method AdmitLocked(e: Entry, bearer: string)
      requires held && Valid() && Knows(e)
      modifies this`byBearer, e`admitted
      ensures Valid()
      ensures Abs() == Admit(old(Abs()), e.id, bearer)
    {
      hide Known, Ids, Trim, NoStrays, Numbered, Rest;
      var already := IsAdmittedLocked(e, bearer);
      ghost var was := Infos(all, realm.open);
      if !already {
        Part(all, e, realm.attempts, realm.open);
        Bounded(all, realm.attempts, e);
        AdmitNew(e, bearer);
        Rejoin(all, e, realm.attempts, realm.open, was, realm.attempts);
      }
    }

    // ---- outside the mutex ----

    /** sameLatest */
    method SameLatest(e: Entry, bearer: string) returns (same: bool)
      ensures same == (e.latest == bearer)
    {
      same := e.latest == bearer;
    }

    /** adopt */
    method AdoptBearer(e: Entry, bearer: string)
      requires !held && Valid() && Knows(e)
      modifies e`latest
      ensures Valid()
      ensures Abs() == Adopt(old(Abs()), e.id, bearer)
    {
      hide Known, Ids, NoStrays, Numbered, Rest;
      ghost var was := Infos(all, realm.open);
      Part(all, e, realm.attempts, realm.open);
      Bounded(all, realm.attempts, e);
      e.latest := bearer;
      Rejoin(all, e, realm.attempts, realm.open, was, realm.attempts);
    }

    /** probe: what it opens it closes, whatever the answer. */
    method Probe(bearer: string) returns (who: Match)
      requires !held && Valid()
      modifies realm`attempts, realm`open, realm`tokens
      ensures Valid() && Abs() == old(Abs()) && realm.open == old(realm.open)
      ensures realm.attempts == old(realm.attempts) + 1
      ensures who == Answer(cfg, realm.fates(old(realm.attempts)), bearer)
    {
      hide NoStrays, Infos, Known, Ids;
      var nc := realm.Connect(bearer);
      if nc.None? {
        return Skip;
      }
      who := realm.PrincipalOf(nc.value);
      realm.Close(nc.value);
      assert realm.open == old(realm.open);
    }

    /**
     * connect: admit with the latest bearer, ask the server who that is, build the signer, the
     * realm client and the server. Any failure closes what was opened and publishes nothing; a
     * panic publishes nothing and closes nothing.
     */
    method Connect(e: Entry) returns (ending: Ending)
      requires !held && realm.Valid() && realm.owner == cfg.owner && realm.panics == cfg.panics
      modifies realm, e`nc, e`persona, e`account, e`server
      ensures realm.Valid() && realm.attempts == old(realm.attempts) + 1
      ensures var n := old(realm.attempts);
              var who := Proves(cfg, realm.fates(n), e.latest);
              && ending == (if Crashes(cfg, realm.fates(n), e.latest) then Panicking
                            else if who.Some? && realm.fates(n).Fine? then Published
                            else Failing)
              && realm.leaked == old(realm.leaked) + (if ending.Panicking? then {n} else {})
              && (!ending.Published? ==> realm.open == old(realm.open) && unchanged(e))
              && (ending.Published? ==>
                    && realm.open == old(realm.open) + {n} && e.nc == Some(n)
                    && e.persona == who.value.persona && e.account == who.value.account
                    && e.server == Some(Server(n, who.value)))
    {
      var nc := realm.Connect(e.latest);
      if nc.None? {
        return Failing;
      }
      var answer := realm.PrincipalOf(nc.value);
      if answer.Panics? {
        realm.Abandon(nc.value);
        return Panicking;
      }
      if answer.Skip? {
        realm.Close(nc.value);
        return Failing;
      }
      var who := answer.who;
      var fate := realm.fates(nc.value);
      if fate.NoSigner? {
        realm.Close(nc.value);
        return Failing;
      }
      if fate.NoRealmClient? {
        realm.Close(nc.value);
        return Failing;
      }
      if fate.NoStream? {
        realm.Close(nc.value);
        return Failing;
      }
      e.nc, e.persona, e.account := nc, who.persona, who.account;
      e.server := Some(Server(nc.value, who));
      return Published;
    }

    /** The first and only run of an entry's build. */
    method BuildOnce(e: Entry) returns (ending: Ending)
      requires !held && Valid() && Knows(e) && !e.built
      modifies realm, e`nc, e`persona, e`account, e`server, e`err, e`built
      ensures Valid() && realm.attempts == old(realm.attempts) + 1 && e.err == ending.Failing?
      ensures !ending.Panicking? ==> realm.leaked == old(realm.leaked)
      ensures var fate := realm.fates(old(realm.attempts));
              var who := Proves(cfg, fate, old(e.latest));
              && ending.Panicking? == Crashes(cfg, fate, old(e.latest))
              && (!ending.Panicking? ==> ending.Published? == (who.Some? && fate.Fine?))
              && Abs() == SetBuild(old(Abs()), e.id, match ending
                                                     case Published => Ready(who.value, true)
                                                     case Failing => Failed
                                                     case Panicking => Spent)
    {
      hide Known, Ids, NoStrays, Numbered, Rest, Infos, Proves;
      ghost var was := Infos(all, realm.open);
      ghost var open := realm.open;
      ghost var n := realm.attempts;
      Bounded(all, n, e);
      Fields(e);
      Part(all, e, n, open);
      ending := Connect(e);
      e.err, e.built := ending.Failing?, true;
      assert e.Consistent();
      if ending.Published? {
        RejoinPublished(all, e, n, open, was);
        assert e.Snapshot(realm.open) == was[e.id].(build := Ready(Proves(cfg, realm.fates(n), e.latest).value, true));
      } else {
        Rejoin(all, e, n, open, was, n + 1);
        assert e.Snapshot(realm.open) == was[e.id].(build := if ending.Failing? then Failed else Spent);
      }
    }

    /** e.build.Do(connect): the build happens once, and a panic counts as its happening. */
    method Build(e: Entry) returns (panicked: bool)
      requires !held && Valid() && Knows(e)
      modifies realm, e`nc, e`persona, e`account, e`server, e`err, e`built
      ensures Valid()
      ensures panicked == S.CrashesBuild(cfg, old(Abs()), e.id, realm.fates(old(realm.attempts)))
      ensures Abs() == S.Connect(cfg, old(Abs()), e.id, realm.fates(old(realm.attempts)))
      ensures realm.attempts == old(realm.attempts) + S.Dials(old(Abs()), e.id)
      ensures e.err == Abs().info[e.id].build.Failed?
      ensures !panicked ==> realm.leaked == old(realm.leaked)
    {
      hide Known, Ids, NoStrays, Infos, Proves, Crashes;
      Bounded(all, realm.attempts, e);
      Fields(e);
      panicked := false;
      if !e.built {
        var ending := BuildOnce(e);
        panicked := ending.Panicking?;
      }
    }

    /** Nothing was leaked, unless the call panicked. */
    twostate predicate LeaksOnlyInPanic(new r: Resolved)
      reads this, realm
    {
      !r.Panic? ==> realm.leaked == old(realm.leaked)
    }

    // ---- the state machine ----

    lemma AbsClosed()
      requires Valid()
      ensures Closed(Abs())
    {
    }

    /** The fields compared are empty until the build publishes them. */
    lemma SamePrincipal(e: Entry, who: Principal)
      requires Valid() && Knows(e)
      ensures who.persona == e.persona && who.account == e.account <==> Abs().info[e.id].Is(who)
    {
    }

    /** Entries are only ever added. */
    twostate predicate Grown()
      reads this
    {
      old(all) <= all && forall i | |old(all)| <= i < |all| :: fresh(all[i])
    }

    /** The live entry under a key, or a new one in place of a corpse or of nothing. */
    method LocateLocked(key: string, bearer: string) returns (e: Entry)
      requires held && Valid()
      modifies this`entries, this`byBearer, this`sessions, this`all, realm`open
      ensures Valid() && Grown() && Knows(e)
      ensures (Abs(), e.id) == Locate(old(Abs()), key, bearer)
    {
      hide Valid, Abs, Evict, Forgotten;
      AbsClosed();
      var found := EntryAt(key);
      if found.Some? {
        e := found.value;
        var alive := AliveLocked(e);
        if alive {
          return;
        }
        EvictLocked(e);
      }
      e := NewEntryLocked(key, bearer);
    }

    /** A failed build is evicted at once. */
    method EvictEntry(e: Entry)
      requires !held && Valid() && Knows(e)
      modifies this`held, this`entries, this`byBearer, this`sessions, realm`open
      ensures Valid() && !held && Abs() == Evict(old(Abs()), e.id)
    {
      hide Valid, Abs, Evict, Forgotten, Locate, S.Connect, S.Dials, Adopt, Bind, Admit;
      Lock();
      EvictLocked(e);
      Unlock();
    }

    /** The critical section that follows an admission: admit, bind. */
    method AdmitAndBind(bearer: string, sid: string, e: Entry)
      requires !held && Valid() && Knows(e)
      modifies this`held, this`byBearer, this`sessions, e`admitted
      ensures Valid() && !held && Abs() == Bind(Admit(old(Abs()), e.id, bearer), sid, e.id)
    {
      hide Valid, Abs, Evict, Locate, S.Connect, S.Dials, Adopt, Bind, Admit;
      Lock();
      AdmitLocked(e, bearer);
      BindLocked(sid, e);
      Unlock();
    }

    /** ensurePrincipal */
    method EnsurePrincipal(bearer: string, who: Principal) returns (r: Resolved)
      requires !held && Valid()
      modifies this, realm, all
      ensures Valid() && !held && Grown() && LeaksOnlyInPanic(r)
      ensures var (s1, own) := Locate(old(Abs()), PrincipalKey(who), bearer);
              var s2 := S.Connect(cfg, s1, own, realm.fates(old(realm.attempts)));
              && realm.attempts == old(realm.attempts) + S.Dials(s1, own)
              && if S.CrashesBuild(cfg, s1, own, realm.fates(old(realm.attempts))) then r == Panic && Abs() == s2
                 else if s2.info[own].build.Failed? then r == Err(false) && Abs() == Evict(s2, own)
                 else r.Ok? && r.e.id == own && Knows(r.e) && Abs() == s2
    {
      hide Valid, Abs, Evict, Locate, S.Connect, S.Dials, Adopt, Bind, Admit;
      Lock();
      var own := LocateLocked(PrincipalKey(who), bearer);
      Unlock();
      var panicked := Build(own);
      if panicked {
        return Panic;
      }
      if own.err {
        EvictEntry(own);
        return Err(false);
      }
      return Ok(own);
    }

    /** candidate */
    method Candidate(bearer: string, sid: string, e: Entry) returns (r: Resolved)
      requires !held && Valid() && Knows(e)
      modifies this, realm, all
      ensures Valid() && !held && Grown() && (r.Ok? ==> Knows(r.e)) && LeaksOnlyInPanic(r)
      ensures Closed(old(Abs()))
      ensures var n := old(realm.attempts);
              var o := S.Candidate(cfg, old(Abs()), bearer, sid, e.id, realm.fates(n), realm.fates(n + 1));
              && Abs() == o.s && VerdictOf(r) == o.verdict && realm.attempts == n + o.probes + o.connects
    {
      hide Valid, Abs, Evict, Locate, S.Connect, Adopt, Bind, Admit;
      AbsClosed();
      var answer := Probe(bearer);
      if answer.Panics? {
        return Panic;
      }
      if answer.Skip? {
        return Err(false);
      }
      var who := answer.who;
      SamePrincipal(e, who);
      if who.persona == e.persona && who.account == e.account {
        AdmitAndBind(bearer, sid, e);
        AdoptBearer(e, bearer);
        return Ok(e);
      }
      r := EnsurePrincipal(bearer, who);
      if r.Ok? {
        AdmitAndBind(bearer, sid, r.e);
        AdoptBearer(r.e, bearer);
      }
    }

    /** candidateForBound */
    method CandidateForBound(bearer: string, bound: Entry) returns (r: Resolved)
      requires !held && Valid() && Knows(bound)
      modifies this, realm, all
      ensures Valid() && !held && all == old(all) && (r.Ok? ==> r.e == bound) && LeaksOnlyInPanic(r)
      ensures Closed(old(Abs()))
      ensures var n := old(realm.attempts);
              var o := S.CandidateForBound(cfg, old(Abs()), bearer, bound.id, realm.fates(n));
              && Abs() == o.s && VerdictOf(r) == o.verdict && realm.attempts == n + o.probes
    {
      hide Valid, Abs, Evict, Locate, S.Connect, S.Dials, Adopt, Bind, Admit;
      AbsClosed();
      var answer := Probe(bearer);
      if answer.Panics? {
        return Panic;
      }
      if answer.Skip? {
        return Err(false);
      }
      var who := answer.who;
      SamePrincipal(bound, who);
      if who.persona != bound.persona || who.account != bound.account {
        return Err(true);
      }
      Lock();
      AdmitLocked(bound, bearer);
      Unlock();
      AdoptBearer(bound, bearer);
      return Ok(bound);
    }

    /** An entry's fields are what the abstract state says of it. */
    lemma Fields(e: Entry)
      requires Knows(e)
      ensures Abs().info[e.id] == e.Snapshot(realm.open)
    {
    }

    /** resolve, from routing by hint on. */
    method ResolveByHint(bearer: string, sid: string) returns (r: Resolved)
      requires held && Valid()
      modifies this, realm, all
      ensures Valid() && !held && Grown() && (r.Ok? ==> Knows(r.e)) && LeaksOnlyInPanic(r)
      ensures Closed(old(Abs())) && Leads(EnterByHint(old(Abs()), bearer, cfg.hint(bearer)))
      ensures var n := old(realm.attempts);
              var o := S.Finish(cfg, EnterByHint(old(Abs()), bearer, cfg.hint(bearer)), bearer, sid,
                                realm.fates(n), realm.fates(n + 1));
              && Abs() == o.s && VerdictOf(r) == o.verdict && realm.attempts == n + o.probes + o.connects
    {
      hide Valid, Abs, Evict, Locate, S.Connect, Adopt, Bind, Admit, S.Candidate, Leads, Closed;
      AbsClosed();
      EnterByHintLeads(Abs(), bearer, cfg.hint(bearer));
      var e := LocateLocked(cfg.hint(bearer), bearer);
      Fields(e);
      var same := SameLatest(e, bearer);
      if same {
        Unlock();
        var panicked := Build(e);
        if panicked {
          return Panic;
        }
        if e.err {
          EvictEntry(e);
          return Err(false);
        }
        AdmitAndBind(bearer, sid, e);
        return Ok(e);
      }
      Unlock();
      r := Candidate(bearer, sid, e);
    }

    /** resolve, from looking the bearer up on. */
    method ResolveUnbound(bearer: string, sid: string) returns (r: Resolved)
      requires held && Valid()
      modifies this, realm, all
      ensures Valid() && !held && Grown() && (r.Ok? ==> Knows(r.e)) && LeaksOnlyInPanic(r)
      ensures Closed(old(Abs())) && Leads(EnterUnbound(old(Abs()), bearer, sid, cfg.hint(bearer)))
      ensures var n := old(realm.attempts);
              var o := S.Finish(cfg, EnterUnbound(old(Abs()), bearer, sid, cfg.hint(bearer)), bearer, sid,
                                realm.fates(n), realm.fates(n + 1));
              && Abs() == o.s && VerdictOf(r) == o.verdict && realm.attempts == n + o.probes + o.connects
    {
      hide Valid, Abs, Evict, Forgotten, EnterByHint, Adopt, Bind, Leads, Closed, S.Candidate, S.CandidateForBound, S.FinishBuild;
      AbsClosed();
      EnterUnboundLeads(Abs(), bearer, sid, cfg.hint(bearer));
      var known := BearerAt(bearer);
      if known.Some? {
        var e := known.value;
        var alive := AliveLocked(e);
        if alive {
          BindLocked(sid, e);
          Unlock();
          AdoptBearer(e, bearer);
          return Ok(e);
        }
        EvictLocked(e);
      }
      r := ResolveByHint(bearer, sid);
    }

    /** resolve, on the session of a live entry. */
    method ResolveBound(bearer: string, bound: Entry, ghost sid: string) returns (r: Resolved)
      requires held && Valid() && Knows(bound)
      modifies this, realm, all
      ensures Valid() && !held && all == old(all) && (r.Ok? ==> r.e == bound) && LeaksOnlyInPanic(r)
      ensures Closed(old(Abs())) && Leads((old(Abs()), EnterBound(old(Abs()), bearer, bound.id)))
      ensures var n := old(realm.attempts);
              var o := S.Finish(cfg, (old(Abs()), EnterBound(old(Abs()), bearer, bound.id)), bearer, sid,
                                realm.fates(n), realm.fates(n + 1));
              && Abs() == o.s && VerdictOf(r) == o.verdict && realm.attempts == n + o.probes + o.connects
    {
      hide Valid, Abs, Adopt, Admit;
      AbsClosed();
      Fields(bound);
      var admitted := IsAdmittedLocked(bound, bearer);
      if admitted {
        Unlock();
        AdoptBearer(bound, bearer);
        return Ok(bound);
      }
      var other := BearerAt(bearer);
      if other.Some? && other.value != bound {
        Unlock();
        return Err(true);
      }
      Unlock();
      r := CandidateForBound(bearer, bound);
    }

    /**
     * resolve. On objects it leaves exactly the state, gives exactly the verdict and makes
     * exactly the dials of the sequential function; the mutex is free again at the end.
     */
    method Resolve(bearer: string, sid: string) returns (r: Resolved)
      requires !held && Valid()
      modifies this, realm, all
      ensures Valid() && !held && Grown() && (r.Ok? ==> Knows(r.e)) && LeaksOnlyInPanic(r)
      ensures Closed(old(Abs()))
      ensures var n := old(realm.attempts);
              var o := S.Resolve(cfg, old(Abs()), bearer, sid, realm.fates(n), realm.fates(n + 1));
              && Abs() == o.s && VerdictOf(r) == o.verdict && realm.attempts == n + o.probes + o.connects
    {
      hide Valid, Abs, Evict, Forgotten, EnterUnbound, Adopt, Bind, Leads, Closed, S.Candidate, S.CandidateForBound, S.FinishBuild;
      AbsClosed();
      EnterLeads(Abs(), bearer, sid, cfg.hint(bearer));
      Lock();
      if sid != "" {
        var session := SessionAt(sid);
        if session.Some? {
          var bound := session.value;
          var alive := AliveLocked(bound);
          if !alive {
            EvictLocked(bound);
          } else {
            r := ResolveBound(bearer, bound, sid);
            return;
          }
        }
      }
      r := ResolveUnbound(bearer, sid);
    }

    /** serverFor: read-only, and only ever the server of a live entry that has admitted the bearer. */
    method LookupServer(bearer: string) returns (server: Option<Server>)
      requires !held && Valid()
      modifies this`held
      ensures Valid() && !held && Abs() == old(Abs()) && Closed(Abs())
      ensures server == match ServerFor(Abs(), bearer) case None => None case Some(i) => all[i].server
      ensures var s := Abs();
              && (server.Some? <==> && bearer in s.byBearer && AliveAt(s, s.byBearer[bearer])
                                    && s.info[s.byBearer[bearer]].build.Ready?)
              && (server.Some? ==>
                    && server == all[s.byBearer[bearer]].server
                    && s.info[s.byBearer[bearer]].build == Ready(server.value.who, true)
                    && server.value.conn in realm.open)
    {
      hide Numbered, NoStrays, Infos, Known, Ids;
      AbsClosed();
      Lock();
      server := None;
      var found := BearerAt(bearer);
      if found.Some? {
        var alive := AliveLocked(found.value);
        if alive {
          Bounded(all, realm.attempts, found.value);
          Fields(found.value);
          server := found.value.server;
        }
      }
      Unlock();
    }

    /** bindSession */
    method BindSession(sid: string, e: Entry)
      requires !held && Valid() && Knows(e)
      modifies this`held, this`sessions
      ensures Valid() && !held && Abs() == Bind(old(Abs()), sid, e.id)
    {
      hide Valid, Abs, Bind;
      Lock();
      BindLocked(sid, e);
      Unlock();
    }

    // ---- connections ----

    /** Between calls, every open connection is the pooled connection of an indexed entry. */
    ghost predicate Conserved()
      reads this, realm, entries.Values
    {
      forall c | c in realm.open :: exists k :: k in entries && entries[k].nc == Some(c)
    }

    lemma OpenIsLive(c: nat) returns (e: Entry)
      requires Valid() && c in realm.open && (forall i | 0 <= i < |all| :: !Abs().info[i].build.Pending?)
      ensures Knows(e) && e.nc == Some(c) && AliveAt(Abs(), e.id)
    {
      var i :| 0 <= i < |all| && all[i].nc == Some(c);
      e := all[i];
      Fields(e);
    }

    lemma InvariantConserves()
      requires Valid() && S.SeqInv(cfg, Abs())
      ensures Conserved()
    {
      R.NothingPending(cfg, Abs());
      forall c | c in realm.open
        ensures exists k :: k in entries && entries[k].nc == Some(c)
      {
        var e := OpenIsLive(c);
        var k := R.KeyOfLive(cfg, Abs(), e.id);
        assert Ids(entries)[k] == e.id && entries[k] == e;
      }
    }

    /** The death of a pooled connection, which can come at any time: on objects it is Death of the sequential model. */
    method Die(e: Entry)
      requires Valid() && Knows(e)
      modifies realm`open
      ensures Valid() && Closed(old(Abs())) && Abs() == R.Do(cfg, old(Abs()), R.Death(e.id))
      ensures S.SeqInv(cfg, old(Abs())) ==> S.SeqInv(cfg, Abs()) && Conserved()
    {
      hide Numbered, NoStrays, Infos, Known, Ids, S.SeqInv, Conserved;
      AbsClosed();
      ghost var was := Abs();
      Fields(e);
      ShutOne(all, realm.attempts, realm.open, e);
      if e.nc.Some? {
        realm.Drop(e.nc.value);
      }
      assert Abs().info == was.info[e.id := was.info[e.id].Shut()];
      Dies(was, e.id);
    }

    lemma Dies(was: State, e: nat)
      requires Valid() && Closed(was) && e < |was.info| && Abs() == was.(info := was.info[e := was.info[e].Shut()])
      ensures Abs() == R.Do(cfg, was, R.Death(e))
      ensures S.SeqInv(cfg, was) ==> S.SeqInv(cfg, Abs()) && Conserved()
    {
      hide Valid, Abs, S.SeqInv, Conserved;
      if !was.info[e].build.Ready? {
        assert was.info[e := was.info[e]] == was.info;
      }
      if S.SeqInv(cfg, was) {
        if was.info[e].build.Ready? {
          R.DeathSeq(cfg, was, e);
        }
        InvariantConserves();
      }
    }

    lemma NameIs(k: string)
      requires Valid()
      ensures k in entries <==> k in Abs().entries
      ensures k in entries ==> Knows(entries[k]) && Abs().entries[k] == entries[k].id
    {
    }

    lemma InOrder()
      requires Valid()
      ensures forall i | 0 <= i < |all| :: all[i].id == i
    {
    }

    /** close, the drain: every indexed entry is shut down once, in whatever order. */
    method ShutdownAll()
      requires held && Valid()
      modifies realm`open
      ensures Valid() && Abs() == old(Abs()).(info := CloseAll(old(Abs())).info)
    {
      hide Valid, Abs;
      ghost var was := Abs();
      var seen: set<Entry> := {};
      var todo := entries.Keys;
      while todo != {}
        invariant Valid() && todo <= entries.Keys
        invariant Abs() == was.(info := Abs().info)
        invariant forall k | k in entries :: k in todo || entries[k] in seen
        invariant forall e | e in seen :: Knows(e) && e.id in was.entries.Values
        invariant forall i | 0 <= i < |all| ::
                    Abs().info[i] == if all[i] in seen then was.info[i].Shut() else was.info[i]
      {
        var k :| k in todo;
        var e := entries[k];
        NameIs(k);
        InOrder();
        if e !in seen {
          seen := seen + {e};
          Shutdown(e);
        }
        todo := todo - {k};
      }
      InOrder();
      forall i | 0 <= i < |all|
        ensures Abs().info[i] == CloseAll(was).info[i]
      {
        if i in was.entries.Values {
          var k :| k in was.entries && was.entries[k] == i;
          NameIs(k);
        }
      }
    }

    /** close: drain, then empty the indexes. Between calls this leaves no connection open. */
    method Close()
      requires !held && Valid()
      modifies this`held, this`entries, this`byBearer, this`sessions, realm`open
      ensures Valid() && !held
      ensures Abs() == CloseAll(old(Abs()))
      ensures S.SeqInv(cfg, old(Abs())) ==> realm.open == {}
    {
      hide Valid, Abs, CloseAll, S.SeqInv;
      Lock();
      ghost var was := Abs();
      ShutdownAll();
      EmptyIndexes();
      Unlock();
      assert Abs().info == CloseAll(was).info && Abs() == CloseAll(was) by { CloseAllShape(was); }
      if S.SeqInv(cfg, was) {
        NoneOpen(was);
      }
    }

    lemma CloseAllShape(s: State)
      ensures CloseAll(s) == State(map[], map[], map[], CloseAll(s).info)
    {
    }

    method EmptyIndexes()
      requires held && Valid()
      modifies this`entries, this`byBearer, this`sessions
      ensures Valid() && Abs() == State(map[], map[], map[], old(Abs()).info)
    {
      hide Numbered, NoStrays, Infos;
      entries, byBearer, sessions := map[], map[], map[];
    }

    lemma NoneOpen(was: State)
      requires Valid() && S.SeqInv(cfg, was) && Abs() == CloseAll(was)
      ensures realm.open == {}
    {
      hide Valid, Abs, CloseAll, S.SeqInv;
      R.CloseSeq(cfg, was);
      R.NothingPending(cfg, Abs());
      if realm.open != {} {
        var c :| c in realm.open;
        var e := OpenIsLive(c);
        assert false;
      }
    }
  }
}
