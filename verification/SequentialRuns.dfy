/** The node serving requests one after another, with connections dying in between. */
module SequentialRuns {
  import opened Wrappers
  import opened Routing
  import opened PoolSpec
  import opened PoolInvariants
  import opened Sequential
  import opened SequentialSpec

  /** What became of an HTTP request: resolve's verdict and the entry whose server the SDK got. */
  datatype Reply = Reply(s: State, verdict: Verdict, server: Option<nat>)

  /** ServeHTTP in local mode, or in public mode without the early 401: resolve, look up, capture. */
  function Serve(cfg: Config, s: State, bearer: string, sid: string, first: Fate, second: Fate, minted: string): Reply
    requires Closed(s)
  {
    if bearer == "" then Reply(s, Refused, if cfg.public then None else ServerFor(s, ""))
    else
      var o := Resolve(cfg, s, bearer, sid, first, second);
      match o.verdict
      case Served(e) =>
        Reply(if sid == "" then Bind(o.s, minted, e) else o.s, o.verdict, ServerFor(o.s, bearer))
      case Crashed => Reply(o.s, o.verdict, None)
      case _ => Reply(o.s, o.verdict, if cfg.public then None else ServerFor(o.s, bearer))
  }

  datatype Op =
    | Request(bearer: string, sid: string, first: Fate, second: Fate, minted: string)
    | Death(e: nat)
    | Shutdown

  ghost function Do(cfg: Config, s: State, op: Op): State
    requires Closed(s)
  {
    match op
    case Request(b, sid, first, second, minted) => Serve(cfg, s, b, sid, first, second, minted).s
    case Death(e) =>
      if e < |s.info| && s.info[e].build.Ready? then SetBuild(s, e, Ready(s.info[e].build.who, false)) else s
    case Shutdown => CloseAll(s)
  }

  /** The states along a run: Do applied in turn. */
  ghost function RunOps(cfg: Config, s: State, ops: seq<Op>): State
    decreases |ops|
  {
    if ops == [] || !Closed(s) then s else RunOps(cfg, Do(cfg, s, ops[0]), ops[1..])
  }

  // ---- every operation keeps the invariant ----

  lemma DeathSeq(cfg: Config, s: State, e: nat)
    requires SeqInv(cfg, s) && e < |s.info| && s.info[e].build.Ready?
    ensures SeqInv(cfg, SetBuild(s, e, Ready(s.info[e].build.who, false)))
  {
    DeathKeepsInv(cfg, s, Possible(cfg), e);
    DeathAgrees(s, e);
  }

  lemma DeathAgrees(s: State, e: nat)
    requires Agree(s) && e < |s.info| && s.info[e].build.Ready?
    ensures Agree(SetBuild(s, e, Ready(s.info[e].build.who, false)))
  {
    var s' := SetBuild(s, e, Ready(s.info[e].build.who, false));
    forall o | 0 <= o < |s.info|
      ensures Indexed(s', o) <==> Indexed(s, o)
      ensures Indexed(s, o) ==> Settled(s', o)
    {
      if Indexed(s, o) {
        assert Settled(s, o);
      }
    }
  }

  /** Closing shuts every entry that was alive. */
  lemma CloseSeq(cfg: Config, s: State)
    requires SeqInv(cfg, s)
    ensures SeqInv(cfg, CloseAll(s))
    ensures |CloseAll(s).info| == |s.info| && forall e | 0 <= e < |s.info| :: !AliveAt(CloseAll(s), e)
  {
    CloseKeepsInv(cfg, s, Possible(cfg));
    var s' := CloseAll(s);
    forall e | 0 <= e < |s.info|
      ensures !AliveAt(s', e) && |s'.info[e].keys| == 1
    {
      if AliveAt(s, e) {
        LiveIsSettled(cfg, s, e);
        assert e in s.entries.Values;
      }
    }
  }

  /** Between calls no build is under way, and every live entry is found under its key. */
  lemma NothingPending(cfg: Config, s: State)
    requires SeqInv(cfg, s)
    ensures forall e | 0 <= e < |s.info| :: !s.info[e].Unbuilt()
  {
    forall e | 0 <= e < |s.info|
      ensures !s.info[e].Unbuilt()
    {
      if AliveAt(s, e) {
        LiveIsSettled(cfg, s, e);
      }
    }
  }

  lemma KeyOfLive(cfg: Config, s: State, e: nat) returns (k: string)
    requires SeqInv(cfg, s) && e < |s.info| && AliveAt(s, e)
    ensures k in s.entries && s.entries[k] == e
  {
    k := s.info[e].keys[0];
  }

  lemma BindSeq(cfg: Config, s: State, sid: string, e: nat)
    requires SeqInv(cfg, s) && Indexed(s, e)
    ensures SeqInv(cfg, Bind(s, sid, e))
  {
    assert Settled(s, e);
    BindKeepsInv(cfg, s, Possible(cfg), sid, e);
    BindAgrees(s, sid, e);
  }

  lemma ServeSeq(cfg: Config, s: State, b: string, sid: string, first: Fate, second: Fate, minted: string)
    requires Sound(cfg) && Unconfused(cfg) && SeqInv(cfg, s) && Closed(s)
    ensures SeqInv(cfg, Serve(cfg, s, b, sid, first, second, minted).s)
  {
    hide SeqInv, Resolve, NoTrace, Grows, Bind;
    if b != "" {
      ResolveSpec(cfg, s, b, sid, first, second);
      var o := Resolve(cfg, s, b, sid, first, second);
      if o.verdict.Served? && sid == "" {
        BindSeq(cfg, o.s, minted, o.verdict.e);
      }
    }
  }

  /** The invariant between calls: index agreement, tails, liveness of the index, the trust rule. */
  lemma DoKeepsSeqInv(cfg: Config, s: State, op: Op)
    requires Sound(cfg) && Unconfused(cfg) && SeqInv(cfg, s) && Closed(s)
    ensures SeqInv(cfg, Do(cfg, s, op)) && Closed(Do(cfg, s, op))
  {
    hide SeqInv, Serve, SetBuild, CloseAll;
    match op {
      case Request(b, sid, first, second, minted) => ServeSeq(cfg, s, b, sid, first, second, minted);
      case Death(e) =>
        if e < |s.info| && s.info[e].build.Ready? {
          DeathSeq(cfg, s, e);
        }
      case Shutdown => CloseSeq(cfg, s);
    }
    SeqInvCloses(cfg, Do(cfg, s, op));
  }

  lemma {:induction false} RunKeepsSeqInv(cfg: Config, s: State, ops: seq<Op>)
    requires Sound(cfg) && Unconfused(cfg) && SeqInv(cfg, s)
    ensures SeqInv(cfg, RunOps(cfg, s, ops)) && Closed(RunOps(cfg, s, ops))
    decreases |ops|
  {
    hide SeqInv, Do;
    SeqInvCloses(cfg, s);
    if ops != [] {
      DoKeepsSeqInv(cfg, s, ops[0]);
      RunKeepsSeqInv(cfg, Do(cfg, s, ops[0]), ops[1..]);
    }
  }

  /** After any run, a bearer is found exactly by the indexed entry that has it in its tail of one or two. */
  lemma IndexesAgreeAlways(cfg: Config, ops: seq<Op>, b: string, e: nat)
    requires Sound(cfg) && Unconfused(cfg) && e < |RunOps(cfg, EMPTY, ops).info|
    ensures var s := RunOps(cfg, EMPTY, ops);
            && ((b in s.byBearer && s.byBearer[b] == e) <==> (Indexed(s, e) && b in s.info[e].admitted))
            && (Indexed(s, e) ==> Settled(s, e) && 1 <= |s.info[e].admitted| <= KEEP)
            && (AliveAt(s, e) ==> Indexed(s, e))
            && (forall sid | sid in s.sessions :: Indexed(s, s.sessions[sid]))
            && |s.byBearer| <= KEEP * |s.entries|
  {
    EmptySeqInv(cfg);
    RunKeepsSeqInv(cfg, EMPTY, ops);
    var s := RunOps(cfg, EMPTY, ops);
    IndexAgreement(cfg, s, b, e);
    FewBearers(cfg, s);
  }

  /**
   * After any run the server lookup finds, for each bearer, the live entry that has it in its tail, and
   * nothing else.
   */
  lemma LookupExactly(cfg: Config, ops: seq<Op>, b: string, e: nat)
    requires Sound(cfg) && Unconfused(cfg)
    ensures var s := RunOps(cfg, EMPTY, ops);
            ServerFor(s, b) == Some(e) <==> e < |s.info| && Indexed(s, e) && AliveAt(s, e) && b in s.info[e].admitted
  {
    EmptySeqInv(cfg);
    RunKeepsSeqInv(cfg, EMPTY, ops);
    FindsExactly(cfg, RunOps(cfg, EMPTY, ops), b, e);
  }

  /**
   * A refused request is answered at once in public mode. In local mode it is passed on, and reaches
   * the server of the live entry that has its bearer in its tail, if there is one.
   */
  lemma RefusedLookup(cfg: Config, ops: seq<Op>, b: string, sid: string, first: Fate, second: Fate, minted: string,
                      e: nat)
    requires Sound(cfg) && Unconfused(cfg)
    ensures var s := RunOps(cfg, EMPTY, ops);
            && Closed(s)
            && var r := Serve(cfg, s, b, sid, first, second, minted);
            && (!r.verdict.Served? && cfg.public ==> r.server == None)
            && (!r.verdict.Served? && !cfg.public ==>
                  (r.server == Some(e) <==>
                   e < |r.s.info| && Indexed(r.s, e) && AliveAt(r.s, e) && b in r.s.info[e].admitted))
  {
    hide SeqInv, Resolve, Success, Grows, NoTrace, Indexed;
    EmptySeqInv(cfg);
    RunKeepsSeqInv(cfg, EMPTY, ops);
    var s := RunOps(cfg, EMPTY, ops);
    var r := Serve(cfg, s, b, sid, first, second, minted);
    if b != "" {
      ResolveSpec(cfg, s, b, sid, first, second);
    }
    ServeSeq(cfg, s, b, sid, first, second, minted);
    FindsExactly(cfg, r.s, b, e);
  }

  lemma FindsExactly(cfg: Config, s: State, b: string, e: nat)
    requires SeqInv(cfg, s)
    ensures ServerFor(s, b) == Some(e) <==> e < |s.info| && Indexed(s, e) && AliveAt(s, e) && b in s.info[e].admitted
  {
    if e < |s.info| {
      IndexAgreement(cfg, s, b, e);
    }
  }

  /**
   * Only a served request without a session binds the session minted for it, if that is free; nothing else
   * is bound then.
   */
  lemma CapturesExactly(cfg: Config, s: State, b: string, sid: string, first: Fate, second: Fate, minted: string)
    requires Closed(s) && b != ""
    ensures var o := Resolve(cfg, s, b, sid, first, second);
            var s' := Serve(cfg, s, b, sid, first, second, minted).s;
            && s' == o.s.(sessions := s'.sessions)
            && s'.sessions == if o.verdict.Served? && sid == "" && minted != "" && minted !in o.s.sessions
                              then o.s.sessions[minted := o.verdict.e] else o.s.sessions
  {
    hide Resolve;
  }

  // ---- how many bearers ----

  /** The bearers found through the given keys. */
  function BearersOf(s: State, keys: set<string>): set<string> {
    set b | b in s.byBearer && s.byBearer[b] < |s.info| && |s.info[s.byBearer[b]].keys| == 1
            && s.info[s.byBearer[b]].keys[0] in keys
  }

  lemma BearersOfOne(cfg: Config, s: State, k: string)
    requires SeqInv(cfg, s) && k in s.entries
    ensures |BearersOf(s, {k})| <= KEEP
  {
    hide Detours, LandsRight, Rooted, Trusted;
    var e := s.entries[k];
    assert Settled(s, e) && EntryInv(cfg, s.info[e], Possible(cfg));
    var tail := s.info[e].admitted;
    var mine := if |tail| == 1 then {tail[0]} else {tail[0], tail[1]};
    assert forall b | b in tail :: b in mine;
    assert BearersOf(s, {k}) <= mine;
    SubsetSize(BearersOf(s, {k}), mine);
  }

  lemma {:induction false} BearersOfKeys(cfg: Config, s: State, keys: set<string>)
    requires SeqInv(cfg, s) && keys <= s.entries.Keys
    ensures |BearersOf(s, keys)| <= KEEP * |keys|
    decreases |keys|
  {
    hide SeqInv;
    if keys == {} {
      assert BearersOf(s, keys) == {};
    } else {
      var k :| k in keys;
      BearersOfKeys(cfg, s, keys - {k});
      BearersOfOne(cfg, s, k);
      assert BearersOf(s, keys) <= BearersOf(s, keys - {k}) + BearersOf(s, {k});
      SubsetSize(BearersOf(s, keys), BearersOf(s, keys - {k}) + BearersOf(s, {k}));
    }
  }

  lemma {:induction false} SubsetSize<T>(a: set<T>, b: set<T>)
    requires a <= b
    ensures |a| <= |b|
    decreases |a|
  {
    if a != {} {
      var x :| x in a;
      SubsetSize(a - {x}, b - {x});
    }
  }

  lemma FewBearers(cfg: Config, s: State)
    requires SeqInv(cfg, s)
    ensures |s.byBearer| <= KEEP * |s.entries|
  {
    BearersOfKeys(cfg, s, s.entries.Keys);
    assert BearersOf(s, s.entries.Keys) == s.byBearer.Keys;
  }

  // ---- the promises of a single call, after any run ----

  /** No bearer is trusted from memory: to be served without a dial it must stand in a live tail. */
  lemma NoTrustFromMemory(cfg: Config, ops: seq<Op>, b: string, sid: string, first: Fate, second: Fate)
    requires Sound(cfg) && Unconfused(cfg)
    ensures var s := RunOps(cfg, EMPTY, ops);
            && Closed(s)
            && var o := Resolve(cfg, s, b, sid, first, second);
            && o.probes <= 1 && o.connects <= 1
            && (o.verdict.Served? && o.probes + o.connects == 0 ==> InLiveTail(s, b))
            && (o.verdict.Served? && !InLiveTail(s, b) ==> Proves(cfg, first, b).Some?)
  {
    hide SeqInv, Resolve, Success, Grows, NoTrace;
    EmptySeqInv(cfg);
    RunKeepsSeqInv(cfg, EMPTY, ops);
    var s := RunOps(cfg, EMPTY, ops);
    ResolveSpec(cfg, s, b, sid, first, second);
    if BoundLive(s, sid) {
      TailIsFound(cfg, s, b, s.sessions[sid]);
    }
  }

  /** A refusal leaves no trace, and however it went before, a bearer the realm admits is served as its owner. */
  lemma RefusalsAreNotSticky(cfg: Config, ops: seq<Op>, b: string, sid: string, first: Fate, second: Fate,
                             later: seq<Op>)
    requires Sound(cfg) && Unconfused(cfg)
    ensures var s := RunOps(cfg, EMPTY, ops);
            && Closed(s)
            && var o := Resolve(cfg, s, b, sid, first, second);
            && (!o.verdict.Served? ==> NoTrace(s, o.s))
            && Closed(RunOps(cfg, o.s, later))
            && (cfg.owner(b).Some? ==>
                  var again := Resolve(cfg, RunOps(cfg, o.s, later), b, "", Fine, Fine);
                  again.verdict.Served? && Success(cfg, again.s, again.verdict.e, b, ""))
  {
    hide SeqInv, Resolve, Success, Grows, NoTrace;
    EmptySeqInv(cfg);
    RunKeepsSeqInv(cfg, EMPTY, ops);
    var s := RunOps(cfg, EMPTY, ops);
    ResolveSpec(cfg, s, b, sid, first, second);
    var o := Resolve(cfg, s, b, sid, first, second);
    RunKeepsSeqInv(cfg, o.s, later);
    ResolveSpec(cfg, RunOps(cfg, o.s, later), b, "", Fine, Fine);
  }

  /**
   * A refusal with a mismatch: exactly when a live session meets a bearer admitted elsewhere, or proven for
   * another.
   */
  lemma MismatchExactly(cfg: Config, s: State, b: string, sid: string, first: Fate, second: Fate)
    requires Sound(cfg) && Unconfused(cfg) && SeqInv(cfg, s) && Closed(s)
    ensures BoundLive(s, sid) ==> s.info[s.sessions[sid]].build.Ready?
    ensures Resolve(cfg, s, b, sid, first, second).verdict == Mismatch <==>
            && BoundLive(s, sid) && b !in s.info[s.sessions[sid]].admitted
            && (b in s.byBearer || (Proves(cfg, first, b).Some? &&
                                    Proves(cfg, first, b).value != s.info[s.sessions[sid]].build.who))
  {
    hide SeqInv, Resolve, OutcomeOk;
    ResolveSpec(cfg, s, b, sid, first, second);
  }
}
