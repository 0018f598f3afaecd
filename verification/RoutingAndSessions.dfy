/** Two consequences for sequential runs: hints do not matter, and sessions come back to their entry. */
module RoutingAndSessions {
  import opened Wrappers
  import opened Grants
  import opened Routing
  import opened PoolSpec
  import opened Sequential
  import opened SequentialSpec
  import opened SequentialRuns

  // ---- routing never decides who is served ----

  /** A request without a session, against a realm that admits a fixed set of bearers. */
  predicate Plain(admits: string -> bool, op: Op) {
    op.Request? ==> op.sid == "" && op.first == op.second == if admits(op.bearer) then Fine else DialRefused
  }

  /** Everyone in a tail is admitted by the realm. */
  ghost predicate TailsAdmitted(admits: string -> bool, s: State) {
    forall b | b in s.byBearer :: admits(b)
  }

  /** The principal a request is served as. */
  function ServedAs(r: Reply): Option<Principal> {
    if r.verdict.Served? && r.verdict.e < |r.s.info| && r.s.info[r.verdict.e].build.Ready?
    then Some(r.s.info[r.verdict.e].build.who) else None
  }

  /** Who each request of a run is served as. */
  ghost function Answers(cfg: Config, s: State, ops: seq<Op>): seq<Option<Principal>>
    decreases |ops|
  {
    if ops == [] || !Closed(s) then []
    else
      var op := ops[0];
      (if op.Request? then [ServedAs(Serve(cfg, s, op.bearer, op.sid, op.first, op.second, op.minted))] else [])
      + Answers(cfg, Do(cfg, s, op), ops[1..])
  }

  /** The bearers of the requests of a run. */
  function Bearers(ops: seq<Op>): seq<string> {
    if ops == [] then [] else (if ops[0].Request? then [ops[0].bearer] else []) + Bearers(ops[1..])
  }

  /** The stateless specification: serve the owner of each bearer the realm admits. */
  function Stateless(owner: string -> Option<Principal>, admits: string -> bool, bearers: seq<string>)
    : seq<Option<Principal>>
  {
    if bearers == [] then []
    else [if admits(bearers[0]) then owner(bearers[0]) else None] + Stateless(owner, admits, bearers[1..])
  }

  lemma ResolveIsStateless(cfg: Config, admits: string -> bool, s: State, b: string)
    requires Sound(cfg) && Unconfused(cfg) && SeqInv(cfg, s) && Closed(s) && TailsAdmitted(admits, s)
    ensures var f := if admits(b) then Fine else DialRefused;
            var o := Resolve(cfg, s, b, "", f, f);
            && SeqInv(cfg, o.s) && TailsAdmitted(admits, o.s)
            && (o.verdict.Served? <==> admits(b) && cfg.owner(b).Some?)
            && (o.verdict.Served? ==> Success(cfg, o.s, o.verdict.e, b, ""))
  {
    hide SeqInv, Resolve;
    var f := if admits(b) then Fine else DialRefused;
    ResolveSpec(cfg, s, b, "", f, f);
  }

  lemma PlainRequest(cfg: Config, admits: string -> bool, s: State, op: Op)
    requires Sound(cfg) && Unconfused(cfg) && SeqInv(cfg, s) && Closed(s) && TailsAdmitted(admits, s)
    requires op.Request? && Plain(admits, op)
    ensures ServedAs(Serve(cfg, s, op.bearer, op.sid, op.first, op.second, op.minted))
            == if admits(op.bearer) then cfg.owner(op.bearer) else None
    ensures TailsAdmitted(admits, Do(cfg, s, op))
  {
    hide SeqInv, Resolve;
    if op.bearer != "" {
      ResolveIsStateless(cfg, admits, s, op.bearer);
    }
  }

  /**
   * Against a fixed realm the pool refines the stateless specification, whatever the hint and
   * whichever connections die in between.
   */
  lemma {:induction false} PoolRefinesStateless(cfg: Config, admits: string -> bool, s: State, ops: seq<Op>)
    requires Sound(cfg) && Unconfused(cfg) && SeqInv(cfg, s) && TailsAdmitted(admits, s)
    requires forall op | op in ops :: Plain(admits, op)
    ensures Answers(cfg, s, ops) == Stateless(cfg.owner, admits, Bearers(ops))
    decreases |ops|
  {
    hide SeqInv, Serve, ServedAs;
    SeqInvCloses(cfg, s);
    if ops != [] {
      var op := ops[0];
      if op.Request? {
        PlainRequest(cfg, admits, s, op);
      }
      DoKeepsSeqInv(cfg, s, op);
      PoolRefinesStateless(cfg, admits, Do(cfg, s, op), ops[1..]);
      if op.Request? {
        assert Bearers(ops)[1..] == Bearers(ops[1..]);
      } else {
        assert Bearers(ops) == Bearers(ops[1..]);
        assert Answers(cfg, s, ops) == Answers(cfg, Do(cfg, s, op), ops[1..]);
      }
    }
  }

  /** Two pools that differ in their hints, fed the same requests, serve the same principals. */
  lemma RoutingNeverDecides(cfg: Config, other: Config, admits: string -> bool, ops: seq<Op>, ops': seq<Op>)
    requires Sound(cfg) && Sound(other) && Unconfused(cfg) && Unconfused(other) && other.owner == cfg.owner
    requires forall op | op in ops :: Plain(admits, op)
    requires forall op | op in ops' :: Plain(admits, op)
    requires Bearers(ops) == Bearers(ops')
    ensures Answers(cfg, EMPTY, ops) == Answers(other, EMPTY, ops')
  {
    EmptySeqInv(cfg);
    EmptySeqInv(other);
    PoolRefinesStateless(cfg, admits, EMPTY, ops);
    PoolRefinesStateless(other, admits, EMPTY, ops');
  }

  // ---- sessions ----

  /** Entry e has stayed whose it was if it still lives, and a session bound to it is still bound to it. */
  ghost predicate StillThere(s: State, s': State, e: nat, sid: string) {
    && e < |s.info| && e < |s'.info|
    && (AliveAt(s', e) ==>
          && AliveAt(s, e)
          && (sid in s.sessions && s.sessions[sid] == e ==> sid in s'.sessions && s'.sessions[sid] == e))
  }

  lemma ResolvePersists(cfg: Config, s: State, b: string, sid: string, first: Fate, second: Fate, e: nat, kept: string)
    requires Sound(cfg) && Unconfused(cfg) && SeqInv(cfg, s) && Closed(s) && e < |s.info|
    ensures StillThere(s, Resolve(cfg, s, b, sid, first, second).s, e, kept)
  {
    hide SeqInv, Resolve, Success;
    ResolveSpec(cfg, s, b, sid, first, second);
    var o := Resolve(cfg, s, b, sid, first, second);
    if !o.verdict.Served? {
      assert o.s.info[e] == s.info[e];
    }
  }

  lemma DoPersists(cfg: Config, s: State, op: Op, e: nat, kept: string)
    requires Sound(cfg) && Unconfused(cfg) && SeqInv(cfg, s) && Closed(s) && e < |s.info|
    ensures StillThere(s, Do(cfg, s, op), e, kept)
  {
    hide SeqInv, Resolve;
    match op {
      case Request(b, sid, first, second, _) =>
        if b != "" {
          ResolvePersists(cfg, s, b, sid, first, second, e, kept);
        }
      case Death(_) =>
      case Shutdown => CloseSeq(cfg, s);
    }
  }

  lemma {:induction false} RunPersists(cfg: Config, s: State, ops: seq<Op>, e: nat, kept: string)
    requires Sound(cfg) && Unconfused(cfg) && SeqInv(cfg, s) && e < |s.info|
    ensures StillThere(s, RunOps(cfg, s, ops), e, kept)
    decreases |ops|
  {
    hide SeqInv, Do;
    SeqInvCloses(cfg, s);
    if ops != [] {
      DoPersists(cfg, s, ops[0], e, kept);
      DoKeepsSeqInv(cfg, s, ops[0]);
      RunPersists(cfg, Do(cfg, s, ops[0]), ops[1..], e, kept);
    }
  }

  /** A served request reaches the server of the entry that serves it, in that same request. */
  lemma LookupFindsServingEntry(cfg: Config, s: State, b: string, sid: string, first: Fate, second: Fate,
                                minted: string)
    requires Sound(cfg) && Unconfused(cfg) && SeqInv(cfg, s) && Closed(s)
    ensures var r := Serve(cfg, s, b, sid, first, second, minted);
            r.verdict.Served? ==> r.server == Some(r.verdict.e)
  {
    hide SeqInv, Resolve, NoTrace, Grows;
    if b != "" {
      ResolveSpec(cfg, s, b, sid, first, second);
    }
  }

  lemma ServedIsOwn(cfg: Config, s: State, b: string, sid: string, first: Fate, second: Fate)
    requires Sound(cfg) && Unconfused(cfg) && SeqInv(cfg, s) && Closed(s)
    ensures var o := Resolve(cfg, s, b, sid, first, second);
            o.verdict.Served? ==> Success(cfg, o.s, o.verdict.e, b, sid)
  {
    ResolveSpec(cfg, s, b, sid, first, second);
  }

  /** The session minted while an entry serves a request is bound to it. */
  lemma MintedIsBound(cfg: Config, s: State, b: string, first: Fate, second: Fate, minted: string)
    requires Sound(cfg) && Unconfused(cfg) && SeqInv(cfg, s) && Closed(s)
    requires Serve(cfg, s, b, "", first, second, minted).verdict.Served?
    requires minted != "" && minted !in Resolve(cfg, s, b, "", first, second).s.sessions
    ensures var r := Serve(cfg, s, b, "", first, second, minted);
            && r.verdict.e < |r.s.info| && SeqInv(cfg, r.s) && Closed(r.s)
            && minted in r.s.sessions && r.s.sessions[minted] == r.verdict.e
  {
    hide SeqInv, Resolve, NoTrace, Grows;
    ResolveSpec(cfg, s, b, "", first, second);
    ServeSeq(cfg, s, b, "", first, second, minted);
    SeqInvCloses(cfg, Serve(cfg, s, b, "", first, second, minted).s);
  }

  /** A bearer in the tail of the live entry its session is bound to is served by it, without a dial. */
  lemma ReturnsOnSession(cfg: Config, s: State, b: string, sid: string, f: Fate, g: Fate, m: string)
    requires Sound(cfg) && Unconfused(cfg) && SeqInv(cfg, s) && Closed(s) && BoundLive(s, sid)
    requires b != "" && b in s.info[s.sessions[sid]].admitted
    ensures Serve(cfg, s, b, sid, f, g, m).verdict == Served(s.sessions[sid])
    ensures Serve(cfg, s, b, sid, f, g, m).server == Some(s.sessions[sid])
    ensures Resolve(cfg, s, b, sid, f, g).probes + Resolve(cfg, s, b, sid, f, g).connects == 0
  {
    hide SeqInv, Resolve, NoTrace, Grows;
    TailIsFound(cfg, s, b, s.sessions[sid]);
    ResolveSpec(cfg, s, b, sid, f, g);
    LookupFindsServingEntry(cfg, s, b, sid, f, g, m);
  }

  /**
   * The session round trip. A session minted while e serves a request is bound to e; after any
   * further requests, deaths and shutdowns, as long as e still lives, every bearer in e's tail
   * presenting that session is served by e and reaches e's server, without a dial.
   */
  lemma SessionRoundTrip(cfg: Config, s: State, b: string, first: Fate, second: Fate, minted: string,
                         ops: seq<Op>, later: string, f: Fate, g: Fate, m: string)
    requires Sound(cfg) && Unconfused(cfg) && SeqInv(cfg, s) && Closed(s)
    requires var r := Serve(cfg, s, b, "", first, second, minted);
             && r.verdict.Served? && minted != "" && minted !in Resolve(cfg, s, b, "", first, second).s.sessions
             && var s' := RunOps(cfg, r.s, ops);
             && r.verdict.e < |s'.info| && AliveAt(s', r.verdict.e)
             && later in s'.info[r.verdict.e].admitted && later != ""
    ensures var e := Serve(cfg, s, b, "", first, second, minted).verdict.e;
            var s' := RunOps(cfg, Serve(cfg, s, b, "", first, second, minted).s, ops);
            && Closed(s')
            && Serve(cfg, s', later, minted, f, g, m).verdict == Served(e)
            && Serve(cfg, s', later, minted, f, g, m).server == Some(e)
            && Resolve(cfg, s', later, minted, f, g).probes + Resolve(cfg, s', later, minted, f, g).connects == 0
  {
    hide SeqInv, Resolve, Serve;
    var r := Serve(cfg, s, b, "", first, second, minted);
    MintedIsBound(cfg, s, b, first, second, minted);
    RunPersists(cfg, r.s, ops, r.verdict.e, minted);
    RunKeepsSeqInv(cfg, r.s, ops);
    ReturnsOnSession(cfg, RunOps(cfg, r.s, ops), later, minted, f, g, m);
  }

  /**
   * The pool does not keep one entry per principal, and the mismatch compares entries, not
   * principals: one principal with two bearers on two hints holds two live entries, and its
   * second bearer is turned away from the session of its first.
   */
  lemma MismatchWithinOnePrincipal(cfg: Config, b: string, c: string, sid: string)
    requires Sound(cfg) && cfg.owner(b).Some? && cfg.owner(c) == cfg.owner(b) && cfg.hint(b) != cfg.hint(c)
    requires sid != ""
    ensures var s := RunOps(cfg, EMPTY, [Request(b, "", Fine, Fine, sid), Request(c, "", Fine, Fine, "")]);
            && Closed(s)
            && Resolve(cfg, s, c, sid, Fine, Fine).verdict == Mismatch
            && sid in s.sessions && s.info[s.sessions[sid]].build.Ready?
            && cfg.owner(c) == Some(s.info[s.sessions[sid]].build.who)
            && InLiveTail(s, b) && InLiveTail(s, c) && s.byBearer[b] != s.byBearer[c]
            && s.info[s.byBearer[b]].build == s.info[s.byBearer[c]].build
  {
    var who := cfg.owner(b).value;
    var s1 := Bind(Founded(EMPTY, cfg.hint(b), b, who), sid, 0);
    var s2 := Founded(s1, cfg.hint(c), c, who);
    FreshFounds(cfg, EMPTY, b, who);
    FreshFounds(cfg, s1, c, who);
    var ops := [Request(b, "", Fine, Fine, sid), Request(c, "", Fine, Fine, "")];
    assert Do(cfg, EMPTY, ops[0]) == s1;
    assert ops[1..] == [ops[1]];
    assert Do(cfg, s1, ops[1]) == s2;
    assert RunOps(cfg, s2, []) == s2;
    assert RunOps(cfg, s1, [ops[1]]) == s2;
    assert RunOps(cfg, EMPTY, ops) == s2;
  }

  /** First sight of a hint, when nothing fails. */
  lemma FreshFounds(cfg: Config, s: State, b: string, who: Principal)
    requires Regular(cfg) && Closed(s) && cfg.owner(b) == Some(who) && b !in s.byBearer && cfg.hint(b) !in s.entries
    ensures Resolve(cfg, s, b, "", Fine, Fine) == Outcome(Founded(s, cfg.hint(b), b, who), Served(|s.info|), 0, 1)
  {
    BuildFounds(cfg, s, cfg.hint(b), b, Fine);
  }
}
