/**
 * Which bearer an entry presents. Between calls it is the bearer of the last request that the entry
 * served; it is always the last one admitted exactly when no principal has two bearers; and with
 * requests in flight it may be neither.
 */
module Freshness {
  import opened Wrappers
  import opened Grants
  import opened Routing
  import opened PoolSpec
  import opened PoolInvariants
  import opened Sequential
  import opened SequentialSpec
  import opened SequentialRuns
  import opened RoutingAndSessions

  /** In this operation entry e serves a request. */
  predicate ServedBy(cfg: Config, s: State, op: Op, e: nat)
    requires Closed(s)
  {
    op.Request? && Serve(cfg, s, op.bearer, op.sid, op.first, op.second, op.minted).verdict == Served(e)
  }

  /** The bearer of the last request of a run that entry e served. */
  ghost function LastServed(cfg: Config, s: State, ops: seq<Op>, e: nat): Option<string>
    decreases |ops|
  {
    if ops == [] || !Closed(s) then None
    else
      var later := LastServed(cfg, Do(cfg, s, ops[0]), ops[1..], e);
      if later.Some? then later else if ServedBy(cfg, s, ops[0], e) then Some(ops[0].bearer) else None
  }

  /** The last bearer of a run that was admitted to entry e: that e served without having it in its tail. */
  ghost function LastAdmitted(cfg: Config, s: State, ops: seq<Op>, e: nat): Option<string>
    decreases |ops|
  {
    if ops == [] || !Closed(s) then None
    else
      var later := LastAdmitted(cfg, Do(cfg, s, ops[0]), ops[1..], e);
      if later.Some? then later
      else if ServedBy(cfg, s, ops[0], e) && !(e < |s.info| && ops[0].bearer in s.info[e].admitted)
        then Some(ops[0].bearer)
      else None
  }

  function Last(tail: seq<string>): Option<string> {
    if tail == [] then None else Some(tail[|tail| - 1])
  }

  /** What one operation does to what a built entry presents and to the end of its tail. */
  ghost predicate Presents(cfg: Config, s: State, op: Op, e: nat)
    requires Closed(s)
  {
    var s' := Do(cfg, s, op);
    e < |s'.info| && s'.info[e].build.Ready? ==>
      if ServedBy(cfg, s, op, e) then
        && s'.info[e].latest == op.bearer
        && if e < |s.info| && op.bearer in s.info[e].admitted
           then s.info[e].build.Ready? && s'.info[e].admitted == s.info[e].admitted
           else Last(s'.info[e].admitted) == Some(op.bearer)
      else
        && e < |s.info| && s.info[e].build.Ready?
        && s'.info[e].latest == s.info[e].latest && s'.info[e].admitted == s.info[e].admitted
  }

  lemma ServedPresents(cfg: Config, s: State, op: Op, e: nat)
    requires Sound(cfg) && Unconfused(cfg) && SeqInv(cfg, s) && Closed(s) && op.Request?
    ensures Presents(cfg, s, op, e)
  {
    hide SeqInv, Resolve;
    if op.bearer != "" {
      ResolveSpec(cfg, s, op.bearer, op.sid, op.first, op.second);
    }
  }

  lemma DoPresents(cfg: Config, s: State, op: Op, e: nat)
    requires Sound(cfg) && Unconfused(cfg) && SeqInv(cfg, s) && Closed(s)
    ensures Presents(cfg, s, op, e)
  {
    hide SeqInv, Resolve;
    if op.Request? {
      ServedPresents(cfg, s, op, e);
    }
  }

  /** How a run leaves what entry e presents. */
  lemma {:induction false} RunPresents(cfg: Config, s: State, ops: seq<Op>, e: nat)
    requires Sound(cfg) && Unconfused(cfg) && SeqInv(cfg, s)
    requires e < |RunOps(cfg, s, ops).info| && RunOps(cfg, s, ops).info[e].build.Ready?
    ensures match LastServed(cfg, s, ops, e)
            case Some(b) => RunOps(cfg, s, ops).info[e].latest == b
            case None =>
              && e < |s.info| && s.info[e].build.Ready?
              && RunOps(cfg, s, ops).info[e].latest == s.info[e].latest
    ensures match LastAdmitted(cfg, s, ops, e)
            case Some(b) => Last(RunOps(cfg, s, ops).info[e].admitted) == Some(b)
            case None =>
              && e < |s.info| && s.info[e].build.Ready?
              && RunOps(cfg, s, ops).info[e].admitted == s.info[e].admitted
    decreases |ops|
  {
    hide SeqInv, Do, ServedBy;
    SeqInvCloses(cfg, s);
    if ops != [] {
      DoPresents(cfg, s, ops[0], e);
      DoKeepsSeqInv(cfg, s, ops[0]);
      RunPresents(cfg, Do(cfg, s, ops[0]), ops[1..], e);
    }
  }

  /**
   * After any run a built entry, dead or alive, presents the bearer of the last request it served,
   * and its tail ends with the last bearer admitted to it.
   */
  lemma LatestIsLastServed(cfg: Config, ops: seq<Op>, e: nat)
    requires Sound(cfg) && Unconfused(cfg)
    requires e < |RunOps(cfg, EMPTY, ops).info| && RunOps(cfg, EMPTY, ops).info[e].build.Ready?
    ensures LastServed(cfg, EMPTY, ops, e) == Some(RunOps(cfg, EMPTY, ops).info[e].latest)
    ensures LastAdmitted(cfg, EMPTY, ops, e) == Last(RunOps(cfg, EMPTY, ops).info[e].admitted)
  {
    EmptySeqInv(cfg);
    RunPresents(cfg, EMPTY, ops, e);
  }

  /** Entry e presents the last bearer admitted to it. */
  predicate PresentsFreshest(s: State, e: nat)
    requires e < |s.info|
  {
    Last(s.info[e].admitted) == Some(s.info[e].latest)
  }

  /**
   * One request: it leaves its entry presenting an older bearer exactly when its bearer is the older of two
   * in the tail.
   */
  lemma FreshestExactly(cfg: Config, s: State, b: string, sid: string, first: Fate, second: Fate)
    requires Sound(cfg) && Unconfused(cfg) && SeqInv(cfg, s) && Closed(s)
    requires Resolve(cfg, s, b, sid, first, second).verdict.Served?
    ensures var o := Resolve(cfg, s, b, sid, first, second);
            var e := o.verdict.e;
            && e < |o.s.info|
            && (PresentsFreshest(o.s, e) <==>
                !(e < |s.info| && |s.info[e].admitted| == 2 && s.info[e].admitted[0] == b))
  {
    hide SeqInv, Resolve;
    ResolveSpec(cfg, s, b, sid, first, second);
    var e := Resolve(cfg, s, b, sid, first, second).verdict.e;
    if e < |s.info| {
      TailIsShort(cfg, s, e);
    }
  }

  lemma TailIsShort(cfg: Config, s: State, e: nat)
    requires SeqInv(cfg, s) && e < |s.info|
    ensures |s.info[e].admitted| <= KEEP
    ensures Indexed(s, e) ==> NoDuplicates(s.info[e].admitted)
    ensures AliveAt(s, e) ==> Indexed(s, e)
  {
    assert EntryInv(cfg, s.info[e], Possible(cfg));
    if Indexed(s, e) {
      assert Settled(s, e);
    }
  }

  /** Every run leaves every live entry presenting the last bearer admitted to it. */
  ghost predicate AlwaysFreshest(cfg: Config) {
    forall ops: seq<Op>, e: nat ::
      var s := RunOps(cfg, EMPTY, ops);
      e < |s.info| && AliveAt(s, e) ==> PresentsFreshest(s, e)
  }

  ghost predicate OneBearerEach(cfg: Config) {
    forall b, c | cfg.owner(b).Some? && cfg.owner(c) == cfg.owner(b) :: b == c
  }

  lemma LonelyIsFreshest(cfg: Config, s: State, e: nat)
    requires OneBearerEach(cfg) && SeqInv(cfg, s) && e < |s.info| && AliveAt(s, e)
    ensures PresentsFreshest(s, e)
  {
    assert Settled(s, e) && EntryInv(cfg, s.info[e], Possible(cfg));
    var tail := s.info[e].admitted;
    assert tail[|tail| - 1] in tail;
    assert cfg.owner(tail[|tail| - 1]) == cfg.owner(s.info[e].latest) == Some(s.info[e].build.who);
  }

  /** The pool with one entry, on session "s", that has admitted b and then c. */
  function Pair(h: string, b: string, c: string, p: Principal, latest: string): State {
    State(map[h := 0], map[b := 0, c := 0], map["s" := 0], [EntryState([h], latest, [b, c], Ready(p, true))])
  }

  /** c joins b's entry on b's session. */
  lemma JoinsOnSession(cfg: Config, b: string, c: string, p: Principal)
    requires Regular(cfg) && cfg.owner(b) == cfg.owner(c) == Some(p) && b != c
    ensures var s := Bind(Founded(EMPTY, cfg.hint(b), b, p), "s", 0);
            Closed(s) && Resolve(cfg, s, c, "s", Fine, Fine) == Outcome(Pair(cfg.hint(b), b, c, p, c), Served(0), 1, 0)
  {
    var s := Bind(Founded(EMPTY, cfg.hint(b), b, p), "s", 0);
    AdmitEffect(s, 0, c);
    assert [b] + [c] == [b, c];
  }

  lemma ReturnsToPair(cfg: Config, h: string, b: string, c: string, p: Principal)
    ensures Closed(Pair(h, b, c, p, c))
    ensures Resolve(cfg, Pair(h, b, c, p, c), b, "", Fine, Fine) == Outcome(Pair(h, b, c, p, b), Served(0), 0, 0)
  {
  }

  /** Two bearers of one principal: the older one is sent again. */
  lemma TwoBearersGoStale(cfg: Config, b: string, c: string)
    requires Sound(cfg) && cfg.owner(b).Some? && cfg.owner(c) == cfg.owner(b) && b != c
    ensures !AlwaysFreshest(cfg)
  {
    hide Resolve, Founded;
    var p, h := cfg.owner(b).value, cfg.hint(b);
    var s1 := Bind(Founded(EMPTY, h, b, p), "s", 0);
    FreshFounds(cfg, EMPTY, b, p);
    JoinsOnSession(cfg, b, c, p);
    ReturnsToPair(cfg, h, b, c, p);
    var ops := [Request(b, "", Fine, Fine, "s"), Request(c, "s", Fine, Fine, ""), Request(b, "", Fine, Fine, "")];
    var s := Pair(h, b, c, p, b);
    ThreeOps(cfg, ops[0], s1, ops[1], Pair(h, b, c, p, c), ops[2], s);
    assert RunOps(cfg, EMPTY, ops) == s && AliveAt(s, 0) && !PresentsFreshest(s, 0);
  }

  lemma ThreeOps(cfg: Config, one: Op, s1: State, two: Op, s2: State, three: Op, s3: State)
    requires Do(cfg, EMPTY, one) == s1 && Closed(s1) && Do(cfg, s1, two) == s2 && Closed(s2) && Do(cfg, s2, three) == s3
    ensures RunOps(cfg, EMPTY, [one, two, three]) == s3
  {
    hide Do;
    assert [one, two, three][1..] == [two, three];
    assert [two, three][1..] == [three];
    assert RunOps(cfg, s3, []) == s3;
    assert RunOps(cfg, s2, [three]) == s3;
    assert RunOps(cfg, s1, [two, three]) == s3;
  }

  /** `latest` is always the freshest admitted bearer if and only if no principal has two bearers. */
  lemma FreshestIffOneBearerEach(cfg: Config)
    requires Sound(cfg) && Unconfused(cfg)
    ensures AlwaysFreshest(cfg) <==> OneBearerEach(cfg)
  {
    if OneBearerEach(cfg) {
      forall ops: seq<Op>, e: nat | e < |RunOps(cfg, EMPTY, ops).info| && AliveAt(RunOps(cfg, EMPTY, ops), e)
        ensures PresentsFreshest(RunOps(cfg, EMPTY, ops), e)
      {
        EmptySeqInv(cfg);
        RunKeepsSeqInv(cfg, EMPTY, ops);
        LonelyIsFreshest(cfg, RunOps(cfg, EMPTY, ops), e);
      }
    } else {
      var b, c :| cfg.owner(b).Some? && cfg.owner(c) == cfg.owner(b) && b != c;
      TwoBearersGoStale(cfg, b, c);
    }
  }
}
