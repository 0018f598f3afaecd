/** The sequential resolve is one schedule of the interleaved node: the one that runs a request alone. */
module SoloRuns {
  import opened Wrappers
  import opened Grants
  import opened Routing
  import opened PoolSpec
  import opened Interleaving
  import S = Sequential
  import R = SequentialRuns
  import T = SequentialSpec

  /** A run of request t alone, as far as it has come. */
  ghost predicate Solo(cfg: Config, start: Sys, t: nat, events: seq<Event>, sys: Sys, s: State, pc: Pc) {
    && Exec(cfg, start, events) == sys
    && (forall ev | ev in events :: ev.Run? && ev.t == t)
    && t in start.requests && t in sys.requests
    && sys.requests == start.requests[t := start.requests[t].(pc := pc)]
    && sys.pool == s
  }

  /** No request is inside a build. */
  ghost predicate Quiet(s: State) {
    forall e | 0 <= e < |s.info| :: !s.info[e].build.Running?
  }

  /** The next step of the solo run. */
  lemma Continue(cfg: Config, start: Sys, t: nat, events: seq<Event>, sys: Sys, s: State, pc: Pc, fate: Fate,
                 s': State, pc': Pc)
    returns (events': seq<Event>, sys': Sys)
    requires Solo(cfg, start, t, events, sys, s, pc) && Closed(s) && InRange(pc, |s.info|)
    requires Advance(cfg, s, t, start.requests[t].(pc := pc), fate, "").0 == s'
    requires Advance(cfg, s, t, start.requests[t].(pc := pc), fate, "").2 == pc'
    ensures Solo(cfg, start, t, events', sys', s', pc')
  {
    events', sys' := Extend(cfg, start, events, sys, t, fate, s', pc');
  }

  /** The stages of a build that has been claimed. */
  lemma SoloDial(cfg: Config, start: Sys, t: nat, events: seq<Event>, sys: Sys, s: State, e: nat,
                 own: Option<Principal>, fate: Fate)
    returns (events': seq<Event>, sys': Sys)
    requires t in start.requests && Solo(cfg, start, t, events, sys, s, Connecting(e, own)) && Closed(s) && e < |s.info|
    requires !Crashes(cfg, fate, s.info[e].latest)
    ensures var who := Proves(cfg, fate, s.info[e].latest);
            var build := if who.Some? && fate.Fine? then Ready(who.value, true) else Failed;
            Solo(cfg, start, t, events', sys', SetBuild(s, e, build), Building(e, own))
  {
    hide Solo;
    var who := Proves(cfg, fate, s.info[e].latest);
    var build := if who.Some? && fate.Fine? then Ready(who.value, true) else Failed;
    if who.Some? {
      var dialed := Dialed(e, own, who.value);
      events', sys' := Continue(cfg, start, t, events, sys, s, Connecting(e, own), fate, s, dialed);
      events', sys' := Continue(cfg, start, t, events', sys', s, dialed, fate, SetBuild(s, e, build), Building(e, own));
    } else {
      var s' := SetBuild(s, e, build);
      events', sys' := Continue(cfg, start, t, events, sys, s, Connecting(e, own), fate, s', Building(e, own));
    }
  }

  /** Running a build alone from start to end is Connect. */
  lemma SoloBuild(cfg: Config, start: Sys, t: nat, events: seq<Event>, sys: Sys, s: State, e: nat,
                  own: Option<Principal>, fate: Fate)
    returns (events': seq<Event>, sys': Sys)
    requires t in start.requests && Solo(cfg, start, t, events, sys, s, Building(e, own)) && Closed(s)
    requires e < |s.info| && !s.info[e].build.Running? && !S.CrashesBuild(cfg, s, e, fate)
    ensures var s' := S.Connect(cfg, s, e, fate);
            && Solo(cfg, start, t, events', sys', s', Building(e, own))
            && !s'.info[e].build.Pending? && !s'.info[e].build.Running? && Closed(s')
  {
    hide Solo;
    events', sys' := events, sys;
    if s.info[e].build.Pending? {
      var s1 := SetBuild(s, e, Running(t));
      events', sys' := Continue(cfg, start, t, events', sys', s, Building(e, own), fate, s1, Connecting(e, own));
      events', sys' := SoloDial(cfg, start, t, events', sys', s1, e, own, fate);
      var who := Proves(cfg, fate, s.info[e].latest);
      var build := if who.Some? && fate.Fine? then Ready(who.value, true) else Failed;
      assert s1.info[e].latest == s.info[e].latest;
      assert SetBuild(s1, e, build) == SetBuild(s, e, build);
    }
  }

  /** A build that panics, alone, ends its request. */
  lemma SoloPanic(cfg: Config, start: Sys, t: nat, events: seq<Event>, sys: Sys, s: State, e: nat,
                  own: Option<Principal>, fate: Fate)
    returns (events': seq<Event>, sys': Sys)
    requires t in start.requests && Solo(cfg, start, t, events, sys, s, Building(e, own)) && Closed(s)
    requires e < |s.info| && S.CrashesBuild(cfg, s, e, fate)
    ensures Solo(cfg, start, t, events', sys', S.Connect(cfg, s, e, fate), Finished(None, None))
  {
    hide Solo;
    var s1 := SetBuild(s, e, Running(t));
    events', sys' := Continue(cfg, start, t, events, sys, s, Building(e, own), fate, s1, Connecting(e, own));
    assert s1.info[e].latest == s.info[e].latest;
    assert SetBuild(s1, e, Spent) == SetBuild(s, e, Spent);
    events', sys' := Continue(cfg, start, t, events', sys', s1, Connecting(e, own), fate, SetBuild(s, e, Spent),
                              Finished(None, None));
  }

  /** Where a request stands when resolve has returned, or panicked. */
  function Ended(v: S.Verdict): Pc {
    match v case Served(e) => Served(e) case Crashed => Finished(None, None) case _ => Refused
  }

  /** A build that ended in failure is evicted and refused. */
  lemma SoloEvict(cfg: Config, start: Sys, t: nat, events: seq<Event>, sys: Sys, s: State, e: nat,
                  own: Option<Principal>)
    returns (events': seq<Event>, sys': Sys)
    requires t in start.requests && Solo(cfg, start, t, events, sys, s, Building(e, own)) && Closed(s)
    requires e < |s.info| && s.info[e].build.Failed?
    ensures Solo(cfg, start, t, events', sys', Evict(s, e), Refused)
  {
    hide Solo;
    events', sys' := Continue(cfg, start, t, events, sys, s, Building(e, own), Fine, s, Evicting(e));
    events', sys' := Continue(cfg, start, t, events', sys', s, Evicting(e), Fine, Evict(s, e), Refused);
  }

  lemma SoloFinishBuild(cfg: Config, start: Sys, t: nat, events: seq<Event>, sys: Sys, s: State, e: nat, fate: Fate)
    returns (events': seq<Event>, sys': Sys)
    requires t in start.requests && Solo(cfg, start, t, events, sys, s, Building(e, None)) && Closed(s)
    requires e < |s.info| && Quiet(s)
    ensures var r := start.requests[t];
            var o := S.FinishBuild(cfg, s, r.bearer, r.sid, e, fate);
            Solo(cfg, start, t, events', sys', o.s, Ended(o.verdict))
  {
    hide Solo;
    var r := start.requests[t];
    if S.CrashesBuild(cfg, s, e, fate) {
      events', sys' := SoloPanic(cfg, start, t, events, sys, s, e, None, fate);
      return;
    }
    events', sys' := SoloBuild(cfg, start, t, events, sys, s, e, None, fate);
    var s1 := S.Connect(cfg, s, e, fate);
    if s1.info[e].build.Failed? {
      events', sys' := SoloEvict(cfg, start, t, events', sys', s1, e, None);
    } else {
      events', sys' := Continue(cfg, start, t, events', sys', s1, Building(e, None), fate, s1, Founding(e));
      var s2 := Bind(Admit(s1, e, r.bearer), r.sid, e);
      events', sys' := Continue(cfg, start, t, events', sys', s1, Founding(e), fate, s2, Served(e));
    }
  }

  /** The tail of candidate and of candidateForBound: admit, bind unless bound, adopt. */
  lemma SoloAdmit(cfg: Config, start: Sys, t: nat, events: seq<Event>, sys: Sys, s: State, e: nat, bound: bool)
    returns (events': seq<Event>, sys': Sys)
    requires t in start.requests && Solo(cfg, start, t, events, sys, s, Admitting(e, bound)) && Closed(s)
             && e < |s.info|
    ensures var r := start.requests[t];
            var s1 := Admit(s, e, r.bearer);
            Solo(cfg, start, t, events', sys', Adopt(if bound then s1 else Bind(s1, r.sid, e), e, r.bearer), Served(e))
  {
    hide Solo;
    var r := start.requests[t];
    var s1 := Admit(s, e, r.bearer);
    var s2 := if bound then s1 else Bind(s1, r.sid, e);
    AdmitClosed(s, e, r.bearer);
    events', sys' := Continue(cfg, start, t, events, sys, s, Admitting(e, bound), Fine, s2, Adopting(e));
    events', sys' := Continue(cfg, start, t, events', sys', s2, Adopting(e), Fine, Adopt(s2, e, r.bearer), Served(e));
  }

  lemma {:induction false} TrimNames(tail: seq<string>, byBearer: map<string, nat>, e: nat, n: nat)
    requires forall b | b in byBearer :: byBearer[b] < n
    ensures forall b | b in Trim(tail, byBearer, e).1 :: Trim(tail, byBearer, e).1[b] < n
    decreases |tail|
  {
    if |tail| > KEEP {
      TrimNames(tail[1..], Unname(byBearer, [tail[0]], e), e, n);
    }
  }

  lemma AdmitClosed(s: State, e: nat, b: string)
    requires Closed(s) && e < |s.info|
    ensures Closed(Admit(s, e, b))
  {
    TrimNames(s.info[e].admitted + [b], s.byBearer[b := e], e, |s.info|);
  }

  lemma EvictQuiet(s: State, e: nat)
    requires Closed(s) && Quiet(s) && e < |s.info|
    ensures Closed(Evict(s, e)) && Quiet(Evict(s, e))
  {
  }

  lemma LocateQuiet(s: State, key: string, b: string)
    requires Closed(s) && Quiet(s)
    ensures Closed(Locate(s, key, b).0) && Quiet(Locate(s, key, b).0)
  {
    if key in s.entries {
      EvictQuiet(s, s.entries[key]);
    }
  }

  lemma EnterUnboundQuiet(s: State, b: string, sid: string, hint: string)
    requires Closed(s) && Quiet(s)
    ensures Quiet(EnterUnbound(s, b, sid, hint).0)
  {
    if b in s.byBearer && !AliveAt(s, s.byBearer[b]) {
      EvictQuiet(s, s.byBearer[b]);
      LocateQuiet(Evict(s, s.byBearer[b]), hint, b);
    } else if b !in s.byBearer {
      LocateQuiet(s, hint, b);
    }
  }

  lemma EnterQuiet(s: State, b: string, sid: string, hint: string)
    requires Closed(s) && Quiet(s)
    ensures Leads(Enter(s, b, sid, hint)) && Quiet(Enter(s, b, sid, hint).0)
  {
    hide Evict, EnterUnbound, Leads, Quiet;
    EnterLeads(s, b, sid, hint);
    if !BoundLive(s, sid) {
      if sid != "" && sid in s.sessions {
        EvictQuiet(s, s.sessions[sid]);
        EnterUnboundQuiet(Evict(s, s.sessions[sid]), b, sid, hint);
      } else {
        EnterUnboundQuiet(s, b, sid, hint);
      }
    }
  }

  lemma SoloDiverted(cfg: Config, start: Sys, t: nat, events: seq<Event>, sys: Sys, s: State, who: Principal,
                     fate: Fate)
    returns (events': seq<Event>, sys': Sys)
    requires t in start.requests && Solo(cfg, start, t, events, sys, s, Ensuring(who)) && Closed(s) && Quiet(s)
    ensures var r := start.requests[t];
            var (s1, own) := Locate(s, PrincipalKey(who), r.bearer);
            var o := S.Land(cfg, s1, r.bearer, r.sid, own, fate);
            Solo(cfg, start, t, events', sys', o.s, Ended(o.verdict))
  {
    hide Solo, Admit, Evict;
    var r := start.requests[t];
    var (s1, own) := Locate(s, PrincipalKey(who), r.bearer);
    LocateQuiet(s, PrincipalKey(who), r.bearer);
    var building := Building(own, Some(who));
    events', sys' := Continue(cfg, start, t, events, sys, s, Ensuring(who), fate, s1, building);
    if S.CrashesBuild(cfg, s1, own, fate) {
      events', sys' := SoloPanic(cfg, start, t, events', sys', s1, own, Some(who), fate);
      return;
    }
    events', sys' := SoloBuild(cfg, start, t, events', sys', s1, own, Some(who), fate);
    var s2 := S.Connect(cfg, s1, own, fate);
    if s2.info[own].build.Failed? {
      events', sys' := SoloEvict(cfg, start, t, events', sys', s2, own, Some(who));
    } else {
      events', sys' := Continue(cfg, start, t, events', sys', s2, building, fate, s2, Admitting(own, false));
      events', sys' := SoloAdmit(cfg, start, t, events', sys', s2, own, false);
    }
  }

  lemma SoloCandidate(cfg: Config, start: Sys, t: nat, events: seq<Event>, sys: Sys, s: State, e: nat, probe: Fate,
                      connect: Fate)
    returns (events': seq<Event>, sys': Sys)
    requires t in start.requests && Solo(cfg, start, t, events, sys, s, Probing(e, false)) && Closed(s) && Quiet(s)
    requires e < |s.info|
    ensures var r := start.requests[t];
            var o := S.Candidate(cfg, s, r.bearer, r.sid, e, probe, connect);
            Solo(cfg, start, t, events', sys', o.s, Ended(o.verdict))
  {
    hide Solo, Admit, Evict, Locate, S.Connect, S.Land, Proves, Crashes, ServerFor;
    var r := start.requests[t];
    var proof := Proves(cfg, probe, r.bearer);
    if Crashes(cfg, probe, r.bearer) {
      events', sys' := Continue(cfg, start, t, events, sys, s, Probing(e, false), probe, s, Finished(None, None));
    } else if proof.None? {
      events', sys' := Continue(cfg, start, t, events, sys, s, Probing(e, false), probe, s, Refused);
    } else {
      var comparing := Comparing(e, false, proof.value);
      events', sys' := Continue(cfg, start, t, events, sys, s, Probing(e, false), probe, s, comparing);
      if s.info[e].Is(proof.value) {
        events', sys' := Continue(cfg, start, t, events', sys', s, comparing, probe, s, Admitting(e, false));
        events', sys' := SoloAdmit(cfg, start, t, events', sys', s, e, false);
      } else {
        events', sys' := Continue(cfg, start, t, events', sys', s, comparing, probe, s, Ensuring(proof.value));
        events', sys' := SoloDiverted(cfg, start, t, events', sys', s, proof.value, connect);
      }
    }
  }

  lemma SoloCandidateForBound(cfg: Config, start: Sys, t: nat, events: seq<Event>, sys: Sys, s: State, e: nat,
                              probe: Fate)
    returns (events': seq<Event>, sys': Sys)
    requires t in start.requests && Solo(cfg, start, t, events, sys, s, Probing(e, true)) && Closed(s) && e < |s.info|
    ensures var o := S.CandidateForBound(cfg, s, start.requests[t].bearer, e, probe);
            Solo(cfg, start, t, events', sys', o.s, Ended(o.verdict))
  {
    hide Solo, Admit;
    var proof := Proves(cfg, probe, start.requests[t].bearer);
    if Crashes(cfg, probe, start.requests[t].bearer) {
      events', sys' := Continue(cfg, start, t, events, sys, s, Probing(e, true), probe, s, Finished(None, None));
    } else if proof.None? {
      events', sys' := Continue(cfg, start, t, events, sys, s, Probing(e, true), probe, s, Refused);
    } else {
      var comparing := Comparing(e, true, proof.value);
      events', sys' := Continue(cfg, start, t, events, sys, s, Probing(e, true), probe, s, comparing);
      if s.info[e].Is(proof.value) {
        events', sys' := Continue(cfg, start, t, events', sys', s, comparing, probe, s, Admitting(e, true));
        events', sys' := SoloAdmit(cfg, start, t, events', sys', s, e, true);
      } else {
        events', sys' := Continue(cfg, start, t, events', sys', s, comparing, probe, s, Refused);
      }
    }
  }

  /**
   * A request that runs alone from a quiet pool ends exactly where the sequential resolve says:
   * same pool, and served by the same entry, refused, or ended in a panic.
   */
  lemma ResolveIsASoloRun(cfg: Config, start: Sys, t: nat, first: Fate, second: Fate)
    returns (events: seq<Event>, sys: Sys)
    requires t in start.requests && start.requests[t].pc == Entering && Closed(start.pool) && Quiet(start.pool)
    ensures var r := start.requests[t];
            var o := S.Resolve(cfg, start.pool, r.bearer, r.sid, first, second);
            Solo(cfg, start, t, events, sys, o.s, Ended(o.verdict))
  {
    hide Enter, Admit, Evict, Locate, S.Connect;
    var r := start.requests[t];
    var (s, g) := Enter(start.pool, r.bearer, r.sid, cfg.hint(r.bearer));
    EnterQuiet(start.pool, r.bearer, r.sid, cfg.hint(r.bearer));
    events, sys := Continue(cfg, start, t, [], start, start.pool, Entering, first, s, Next(g));
    match g {
      case ToAdopt(e) =>
        events, sys := Continue(cfg, start, t, events, sys, s, Adopting(e), first, Adopt(s, e, r.bearer), Served(e));
      case ToMismatch =>
      case ToProbeBound(e) => events, sys := SoloCandidateForBound(cfg, start, t, events, sys, s, e, first);
      case ToBuild(e) => events, sys := SoloFinishBuild(cfg, start, t, events, sys, s, e, first);
      case ToProbe(e) => events, sys := SoloCandidate(cfg, start, t, events, sys, s, e, first, second);
    }
  }

  /** A whole HTTP request run alone, from arrival to answer, is Serve. */
  lemma ServeIsASoloRun(cfg: Config, start: Sys, t: nat, first: Fate, second: Fate, minted: string)
    returns (events: seq<Event>, sys: Sys)
    requires Sound(cfg) && Unconfused(cfg) && S.SeqInv(cfg, start.pool) && Closed(start.pool)
    requires t in start.requests && start.requests[t].pc == Entering && start.requests[t].bearer != ""
    ensures var r := start.requests[t];
            var reply := R.Serve(cfg, start.pool, r.bearer, r.sid, first, second, minted);
            Solo(cfg, start, t, events, sys, reply.s,
                 Finished(if reply.verdict.Served? then Some(reply.verdict.e) else None, reply.server))
  {
    hide Solo, S.Resolve, Bind, S.SeqInv, Regular, Unconfused;
    var r := start.requests[t];
    R.NothingPending(cfg, start.pool);
    events, sys := ResolveIsASoloRun(cfg, start, t, first, second);
    var o := S.Resolve(cfg, start.pool, r.bearer, r.sid, first, second);
    T.ResolveSpec(cfg, start.pool, r.bearer, r.sid, first, second);
    S.SeqInvCloses(cfg, o.s);
    var server := ServerFor(o.s, r.bearer);
    if o.verdict.Served? {
      var e := o.verdict.e;
      events, sys := Continue(cfg, start, t, events, sys, o.s, Served(e), Fine, o.s, Answering(e, server));
      events, sys := Captures(cfg, start, t, events, sys, o.s, e, server, minted);
    } else {
      events, sys := Continue(cfg, start, t, events, sys, o.s, Refused, Fine, o.s,
                              Finished(None, if cfg.public then None else server));
    }
  }

  /** The last step of a served request: the capture. */
  lemma Captures(cfg: Config, start: Sys, t: nat, events: seq<Event>, sys: Sys, s: State, e: nat, server: Option<nat>,
                 minted: string)
    returns (events': seq<Event>, sys': Sys)
    requires t in start.requests && Solo(cfg, start, t, events, sys, s, Answering(e, server)) && Closed(s)
             && e < |s.info|
    ensures Solo(cfg, start, t, events', sys', if start.requests[t].sid == "" then Bind(s, minted, e) else s,
                 Finished(Some(e), server))
  {
    events' := events + [Run(t, Fine, minted)];
    ExecSnoc(cfg, start, events, Run(t, Fine, minted));
    sys' := Exec(cfg, start, events');
  }

  /** The sequential model is one of the schedules the concurrent theorems speak of. */
  lemma ServeIsASchedule(cfg: Config, start: Sys, t: nat, first: Fate, second: Fate, minted: string)
    requires Sound(cfg) && Unconfused(cfg) && S.SeqInv(cfg, start.pool) && Closed(start.pool)
    requires t in start.requests && start.requests[t].pc == Entering && start.requests[t].bearer != ""
    ensures var r := start.requests[t];
            var reply := R.Serve(cfg, start.pool, r.bearer, r.sid, first, second, minted);
            exists events: seq<Event> ::
              && (forall ev | ev in events :: ev.Run? && ev.t == t)
              && Exec(cfg, start, events).pool == reply.s
              && t in Exec(cfg, start, events).requests
              && Exec(cfg, start, events).requests[t].pc
                 == Finished(if reply.verdict.Served? then Some(reply.verdict.e) else None, reply.server)
  {
    var events, sys := ServeIsASoloRun(cfg, start, t, first, second, minted);
  }

  // ---- whole runs ----

  lemma {:induction false} Above(ids: set<nat>) returns (n: nat)
    ensures forall id | id in ids :: id < n
    decreases |ids|
  {
    n := 0;
    if ids != {} {
      var id :| id in ids;
      var m := Above(ids - {id});
      n := if m > id then m else id + 1;
      assert forall other | other in ids :: other == id || other in ids - {id};
    }
  }

  /** A request that arrives now, and runs alone to its end. */
  lemma RequestIsScheduled(cfg: Config, events: seq<Event>, sys: Sys, op: R.Op) returns (events': seq<Event>, sys': Sys)
    requires Sound(cfg) && Unconfused(cfg) && Exec(cfg, INIT, events) == sys
    requires S.SeqInv(cfg, sys.pool) && Closed(sys.pool) && op.Request? && op.bearer != ""
    ensures Exec(cfg, INIT, events') == sys' && sys'.pool == R.Do(cfg, sys.pool, op)
    ensures Close in events' ==> Close in events
  {
    hide S.SeqInv, Sound, Unconfused, Advance, R.Serve;
    var t := Above(sys.requests.Keys);
    var arrive := Arrive(t, op.bearer, op.sid);
    ExecSnoc(cfg, INIT, events, arrive);
    var start := Step(cfg, sys, arrive);
    var more, end := ServeIsASoloRun(cfg, start, t, op.first, op.second, op.minted);
    ExecAppend(cfg, INIT, events + [arrive], more);
    events', sys' := events + [arrive] + more, end;
  }

  lemma OpIsScheduled(cfg: Config, events: seq<Event>, sys: Sys, op: R.Op) returns (events': seq<Event>, sys': Sys)
    requires Sound(cfg) && Unconfused(cfg) && Exec(cfg, INIT, events) == sys
    requires S.SeqInv(cfg, sys.pool) && Closed(sys.pool)
    ensures Exec(cfg, INIT, events') == sys' && sys'.pool == R.Do(cfg, sys.pool, op)
    ensures Close in events' ==> Close in events || op.Shutdown?
  {
    hide S.SeqInv, Sound, Unconfused, Advance, S.Resolve;
    match op {
      case Request(b, _, _, _, _) =>
        if b == "" {
          events', sys' := events, sys;
        } else {
          events', sys' := RequestIsScheduled(cfg, events, sys, op);
        }
      case Death(e) =>
        ExecSnoc(cfg, INIT, events, Die(e));
        events', sys' := events + [Die(e)], Step(cfg, sys, Die(e));
      case Shutdown =>
        ExecSnoc(cfg, INIT, events, Close);
        events', sys' := events + [Close], Step(cfg, sys, Close);
    }
  }

  lemma {:induction false} RunIsScheduled(cfg: Config, events: seq<Event>, sys: Sys, ops: seq<R.Op>)
    returns (events': seq<Event>)
    requires Sound(cfg) && Unconfused(cfg) && Exec(cfg, INIT, events) == sys
    requires S.SeqInv(cfg, sys.pool) && Closed(sys.pool)
    ensures Exec(cfg, INIT, events').pool == R.RunOps(cfg, sys.pool, ops)
    ensures Close in events' ==> Close in events || R.Shutdown in ops
    decreases |ops|
  {
    hide S.SeqInv, Sound, Unconfused, Step, R.Do;
    events' := events;
    if ops != [] {
      var sys': Sys;
      events', sys' := OpIsScheduled(cfg, events, sys, ops[0]);
      R.DoKeepsSeqInv(cfg, sys.pool, ops[0]);
      events' := RunIsScheduled(cfg, events', sys', ops[1..]);
    }
  }

  /** Every sequential run, with its deaths and shutdowns, leaves the pool as some interleaving does. */
  lemma RunIsASchedule(cfg: Config, ops: seq<R.Op>) returns (events: seq<Event>)
    requires Sound(cfg) && Unconfused(cfg)
    ensures Exec(cfg, INIT, events).pool == R.RunOps(cfg, EMPTY, ops)
    ensures Close in events ==> R.Shutdown in ops
  {
    S.EmptySeqInv(cfg);
    events := RunIsScheduled(cfg, [], INIT, ops);
  }
}
