/** node.go: the HTTP front door around the pool. */
module NodeImpl {
  import opened Wrappers
  import opened Text
  import opened Routing
  import opened PoolSpec
  import opened PoolImpl
  import S = Sequential
  import T = SequentialSpec
  import R = SequentialRuns
  import Q = RoutingAndSessions

  const BEARER_LANE := "Bearer "

  /** bearerFrom: the one credential lane. */
  function BearerFrom(header: string): string {
    if HasPrefix(header, BEARER_LANE) then header[|BEARER_LANE|..] else ""
  }

  /** The lane is read back exactly, and anything else carries no bearer. */
  lemma BearerLane(header: string, bearer: string)
    ensures BearerFrom("Bearer " + bearer) == bearer
    ensures bearer != "" ==> (BearerFrom(header) == bearer <==> header == "Bearer " + bearer)
  {
    assert ("Bearer " + bearer)[..7] == "Bearer ";
    if HasPrefix(header, BEARER_LANE) {
      assert header == header[..|BEARER_LANE|] + header[|BEARER_LANE|..];
    }
  }

  /** The response writer that binds the session id the SDK mints. */
  class SessionCapture {
    const pool: Pool
    const entry: Entry
    /** The session id header of the response, as the SDK has set it so far. */
    var header: string
    var done: bool

    constructor (pool: Pool, entry: Entry)
      ensures this.pool == pool && this.entry == entry && header == "" && !done
    {
      this.pool, this.entry, header, done := pool, entry, "", false;
    }

    /** capture: the first write binds whatever id is set by then; later writes bind nothing. */
    method Capture()
      requires !pool.held && pool.Valid() && pool.Knows(entry)
      modifies this`done, pool`held, pool`sessions
      ensures pool.Valid() && !pool.held && done
      ensures pool.Abs() == if old(done) then old(pool.Abs()) else Bind(old(pool.Abs()), header, entry.id)
    {
      if done {
        return;
      }
      done := true;
      if header != "" {
        pool.BindSession(header, entry);
      }
    }

    /** WriteHeader and Write capture before they pass the call on. */
    method Write()
      requires !pool.held && pool.Valid() && pool.Knows(entry)
      modifies this`done, pool`held, pool`sessions
      ensures pool.Valid() && !pool.held && done
      ensures pool.Abs() == if old(done) then old(pool.Abs()) else Bind(old(pool.Abs()), header, entry.id)
    {
      Capture();
    }
  }

  /** The outcome of a request: the metadata route, the OAuth challenge, handled by the SDK, or cut off by a panic. */
  datatype Response = Metadata | Unauthorized | Handled(server: Option<Server>) | Aborted

  /** A server is that of a built entry found alive: on an open connection, and for the entry's principal. */
  ghost predicate FitsEntry(s: State, found: Option<nat>, server: Option<Server>, open: set<nat>) {
    && (server.Some? ==>
          && found.Some? && found.value < |s.info|
          && s.info[found.value].build == Ready(server.value.who, true)
          && server.value.conn in open)
    && (server.None? ==> found.None? || found.value >= |s.info| || !s.info[found.value].build.Ready?)
  }

  class Node {
    const cfg: Config
    const pool: Pool

    ghost predicate Valid()
      reads this, pool, pool.realm, pool.all
    {
      pool.Valid() && pool.cfg == cfg && !pool.held
    }

    constructor (cfg: Config, realm: Realm)
      requires realm.Valid() && realm.owner == cfg.owner && realm.panics == cfg.panics && realm.open == {}
      ensures Valid() && pool.Abs() == EMPTY && this.cfg == cfg && pool.realm == realm
    {
      this.cfg := cfg;
      pool := new Pool(cfg, realm);
    }

    /** The server of the entry that a lookup finds. */
    ghost function ServerOf(found: Option<nat>): Option<Server>
      reads pool, pool.all
    {
      if found.Some? && found.value < |pool.all| then pool.all[found.value].server else None
    }

    /** The SDK's handler without a capture: it looks the server up. */
    method Inner(bearer: string) returns (server: Option<Server>)
      requires Valid()
      modifies pool`held
      ensures Valid() && pool.Abs() == old(pool.Abs()) && server == ServerOf(ServerFor(pool.Abs(), bearer))
      ensures FitsEntry(pool.Abs(), ServerFor(pool.Abs(), bearer), server, pool.realm.open)
    {
      hide Pool.Valid, Pool.Abs;
      server := pool.LookupServer(bearer);
    }

    /** The SDK's handler for a new session: it sets the id it mints and writes any number of times, if at all. */
    method InnerCaptured(bearer: string, w: SessionCapture, minted: string, writes: nat)
      returns (server: Option<Server>)
      requires Valid() && w.pool == pool && pool.Knows(w.entry) && !w.done
      modifies w, pool`held, pool`sessions
      ensures Valid() && pool.Abs() == Bind(old(pool.Abs()), if writes > 0 then minted else "", w.entry.id)
      ensures server == ServerOf(ServerFor(old(pool.Abs()), bearer))
      ensures FitsEntry(old(pool.Abs()), ServerFor(old(pool.Abs()), bearer), server, pool.realm.open)
    {
      hide Pool.Valid, Pool.Abs;
      server := Inner(bearer);
      w.header := minted;
      for i := 0 to writes
        invariant Valid() && w.done == (i > 0) && w.header == minted
        invariant pool.Abs() == Bind(old(pool.Abs()), if i > 0 then minted else "", w.entry.id)
      {
        w.Write();
      }
    }

    /**
     * ServeHTTP. On objects it is exactly Serve of the sequential model. From a state between
     * calls it leaves one, with no stray connection, and a request that is served reaches the
     * server of its bearer's own principal, on an open connection.
     */
    method ServeHTTP(wellKnown: bool, authorization: string, session: string, minted: string, writes: nat)
      returns (response: Response)
      requires Valid()
      modifies pool, pool.realm, pool.all
      ensures Valid() && Closed(old(pool.Abs()))
      ensures cfg.public && wellKnown ==> response == Metadata && pool.Abs() == old(pool.Abs())
      ensures !(cfg.public && wellKnown) ==>
                var n := old(pool.realm.attempts);
                var reply := R.Serve(cfg, old(pool.Abs()), BearerFrom(authorization), session,
                                     pool.realm.fates(n), pool.realm.fates(n + 1), if writes > 0 then minted else "");
                && pool.Abs() == reply.s
                && (response == Aborted <==> reply.verdict.Crashed?)
                && (response == Unauthorized <==> cfg.public && (reply.verdict.Refused? || reply.verdict.Mismatch?))
                && (response != Aborted && response != Unauthorized ==> response == Handled(ServerOf(reply.server)))
                && (response != Aborted ==> pool.realm.leaked == old(pool.realm.leaked))
                && (Sound(cfg) && Unconfused(cfg) && S.SeqInv(cfg, old(pool.Abs())) ==>
                      && S.SeqInv(cfg, pool.Abs()) && pool.Conserved() && response != Aborted
                      && (reply.verdict.Served? ==>
                            && response.Handled? && response.server.Some?
                            && cfg.owner(BearerFrom(authorization)) == Some(response.server.value.who)
                            && response.server.value.conn in pool.realm.open)
                      && (pool.realm.fates(n).Fine? && pool.realm.fates(n + 1).Fine? && session == "" ==>
                            forall b | authorization == "Bearer " + b && cfg.owner(b).Some? ::
                              && response.Handled? && response.server.Some?
                              && cfg.owner(b) == Some(response.server.value.who)))
    {
      hide Pool.Valid, Pool.Abs, Bind, S.Resolve, S.SeqInv, Sound, Unconfused, Pool.Conserved, FitsEntry, ServerOf;
      ghost var was := pool.Abs();
      ghost var n := pool.realm.attempts;
      ghost var first, second := pool.realm.fates(n), pool.realm.fates(n + 1);
      ghost var captured := if writes > 0 then minted else "";
      pool.AbsClosed();
      if cfg.public && wellKnown {
        return Metadata;
      }
      var bearer := BearerFrom(authorization);
      FineIsServed(was, authorization, first, second);
      if bearer == "" {
        Between(was, bearer, session, first, second, captured);
        if cfg.public {
          return Unauthorized;
        }
        var server := Inner(bearer);
        Between(was, bearer, session, first, second, captured);
        return Handled(server);
      }
      var r := pool.Resolve(bearer, session);
      if r.Panic? {
        Between(was, bearer, session, first, second, captured);
        NeverAborts(was, bearer, session, first, second);
        return Aborted;
      }
      if r.Err? {
        Between(was, bearer, session, first, second, captured);
        if cfg.public {
          return Unauthorized;
        }
        var server := Inner(bearer);
        Between(was, bearer, session, first, second, captured);
        return Handled(server);
      }
      if session == "" {
        var w := new SessionCapture(pool, r.e);
        var server := InnerCaptured(bearer, w, minted, writes);
        Between(was, bearer, session, first, second, captured);
        ServesOwner(was, bearer, session, first, second, captured, server);
        return Handled(server);
      }
      var server := Inner(bearer);
      Between(was, bearer, session, first, second, captured);
      ServesOwner(was, bearer, session, first, second, captured, server);
      return Handled(server);
    }

    /** Without a session, and when no dial fails, a bearer the realm knows is served. */
    lemma FineIsServed(was: State, authorization: string, first: Fate, second: Fate)
      requires Closed(was)
      ensures Sound(cfg) && Unconfused(cfg) && S.SeqInv(cfg, was) && first.Fine? && second.Fine? ==>
                forall b | authorization == "Bearer " + b && cfg.owner(b).Some? ::
                  && BearerFrom(authorization) == b && b != ""
                  && S.Resolve(cfg, was, b, "", first, second).verdict.Served?
    {
      hide S.Resolve, S.SeqInv, Unconfused;
      if Sound(cfg) && Unconfused(cfg) && S.SeqInv(cfg, was) && first.Fine? && second.Fine? {
        forall b | authorization == "Bearer " + b && cfg.owner(b).Some?
          ensures && BearerFrom(authorization) == b && b != ""
                  && S.Resolve(cfg, was, b, "", first, second).verdict.Served?
        {
          BearerLane(authorization, b);
          T.ResolveSpec(cfg, was, b, "", first, second);
        }
      }
    }

    /** Between calls of a sound node no request ends in a panic. */
    lemma NeverAborts(was: State, bearer: string, session: string, first: Fate, second: Fate)
      requires Closed(was)
      ensures Sound(cfg) && Unconfused(cfg) && S.SeqInv(cfg, was) ==>
                !S.Resolve(cfg, was, bearer, session, first, second).verdict.Crashed?
    {
      hide S.Resolve, S.SeqInv, Sound, Unconfused;
      if Sound(cfg) && Unconfused(cfg) && S.SeqInv(cfg, was) {
        T.ResolveSpec(cfg, was, bearer, session, first, second);
      }
    }

    /** After a request from a state between calls the node is between calls again, with no stray connection. */
    lemma Between(was: State, bearer: string, session: string, first: Fate, second: Fate, minted: string)
      requires Valid() && Closed(was)
      requires pool.Abs() == R.Serve(cfg, was, bearer, session, first, second, minted).s
      ensures Sound(cfg) && Unconfused(cfg) && S.SeqInv(cfg, was) ==>
                S.SeqInv(cfg, pool.Abs()) && pool.Conserved()
    {
      hide Pool.Valid, Pool.Abs, R.Serve, S.SeqInv, Pool.Conserved, Sound, Unconfused;
      if Sound(cfg) && Unconfused(cfg) && S.SeqInv(cfg, was) {
        R.ServeSeq(cfg, was, bearer, session, first, second, minted);
        pool.InvariantConserves();
      }
    }

    /** A served request reaches a server of its bearer's own principal, on an open connection. */
    lemma ServesOwner(was: State, bearer: string, session: string, first: Fate, second: Fate, minted: string,
                      server: Option<Server>)
      requires Closed(was) && bearer != ""
      requires var s := S.Resolve(cfg, was, bearer, session, first, second).s;
               FitsEntry(s, ServerFor(s, bearer), server, pool.realm.open)
      ensures Sound(cfg) && Unconfused(cfg) && S.SeqInv(cfg, was) &&
              S.Resolve(cfg, was, bearer, session, first, second).verdict.Served? ==>
                server.Some? && cfg.owner(bearer) == Some(server.value.who) && server.value.conn in pool.realm.open
    {
      hide S.Resolve, S.SeqInv, Sound, Unconfused;
      if Sound(cfg) && Unconfused(cfg) && S.SeqInv(cfg, was) {
        Q.LookupFindsServingEntry(cfg, was, bearer, session, first, second, minted);
        Q.ServedIsOwn(cfg, was, bearer, session, first, second);
      }
    }

    /** Close */
    method Close()
      requires Valid()
      modifies pool`held, pool`entries, pool`byBearer, pool`sessions, pool.realm`open
      ensures Valid() && pool.Abs() == CloseAll(old(pool.Abs()))
      ensures S.SeqInv(cfg, old(pool.Abs())) ==> pool.realm.open == {}
    {
      hide Pool.Valid, Pool.Abs, CloseAll, S.SeqInv;
      pool.Close();
    }
  }
}
