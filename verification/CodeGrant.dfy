/**
 * rigtest/flow.go: the authorization-code stand-in. Codes are single-use (section 4.1.2 of
 * RFC 6749) and bound to a PKCE challenge (section 4.6 of RFC 7636).
 */
module CodeGrant {
  import opened Wrappers

  datatype AuthCode = AuthCode(oid: string, roles: seq<string>, clientID: string, redirect: string,
                               challenge: string, expires: int)

  /** `parses` says whether the redirect URI is one that can be redirected to. */
  datatype AuthorizeRequest = AuthorizeRequest(codeFlow: bool, s256: bool, clientID: string, redirect: string,
                                               parses: bool, challenge: string, oid: string, roles: seq<string>)
  {
    /** The parameters the endpoint insists on. */
    predicate Complete() {
      codeFlow && s256 && clientID != "" && redirect != "" && challenge != "" && oid != ""
    }
  }

  datatype TokenRequest = TokenRequest(codeGrant: bool, code: string, verifier: string, redirect: string)

  /** What an access token says, and the exchange it was handed out in: code, verifier, redirect URI and time. */
  datatype Token = Token(oid: string, roles: seq<string>, code: string, verifier: string, redirect: string, at: int)

  /** The token of an exchange that met every check. */
  function TokenFor(ac: AuthCode, r: TokenRequest, now: int): Token {
    Token(ac.oid, ac.roles, r.code, r.verifier, r.redirect, now)
  }

  /** How long a code lives, in seconds: two minutes. */
  const CODE_LIFETIME := 120

  function CodeFor(r: AuthorizeRequest, now: int): AuthCode {
    AuthCode(r.oid, r.roles, r.clientID, r.redirect, r.challenge, now + CODE_LIFETIME)
  }

  /** The checks of an exchange after the lookup; `hash` is the S256 transformation of a verifier. */
  predicate Accepts(hash: string -> string, ac: AuthCode, r: TokenRequest, now: int) {
    && now <= ac.expires
    && hash(r.verifier) == ac.challenge
    && (r.redirect == "" || r.redirect == ac.redirect)
  }

  /** authorize, as a whole: the codes left behind and the code handed out; a bad redirect URI strands its code. */
  function Issue(clients: set<string>, codes: map<string, AuthCode>, r: AuthorizeRequest, minted: string, now: int)
    : (map<string, AuthCode>, Option<string>)
  {
    if r.Complete() && r.clientID in clients then
      (codes[minted := CodeFor(r, now)], if r.parses then Some(minted) else None)
    else (codes, None)
  }

  /** token, as a whole: the codes left behind and the token handed out. */
  function Redeem(hash: string -> string, codes: map<string, AuthCode>, r: TokenRequest, now: int, signed: bool)
    : (map<string, AuthCode>, Option<Token>)
  {
    if !r.codeGrant then (codes, None)
    else if r.code in codes && Accepts(hash, codes[r.code], r, now) && signed then
      (codes - {r.code}, Some(TokenFor(codes[r.code], r, now)))
    else (codes - {r.code}, None)
  }

  /** The stand-in as it is written: two maps under a mutex. */
  class ASStub {
    const hash: string -> string
    var clients: set<string>
    var codes: map<string, AuthCode>

    constructor (hash: string -> string)
      ensures clients == {} && codes == map[] && this.hash == hash
    {
      this.hash, clients, codes := hash, {}, map[];
    }

    /** register: a client that names a redirect URI gets the minted id. */
    method Register(post: bool, redirects: seq<string>, minted: string) returns (id: Option<string>)
      modifies this`clients
      ensures id == if post && redirects != [] then Some(minted) else None
      ensures clients == if id.Some? then old(clients) + {minted} else old(clients)
    {
      if !post || |redirects| == 0 {
        return None;
      }
      clients := clients + {minted};
      return Some(minted);
    }

    /** authorize: a registered client gets the minted code, bound to its challenge. */
    method Authorize(r: AuthorizeRequest, minted: string, now: int) returns (code: Option<string>)
      modifies this`codes
      ensures (codes, code) == Issue(clients, old(codes), r, minted, now)
      ensures codes == if r.codeFlow && r.s256 && r.clientID in clients
                          && r.clientID != "" && r.redirect != "" && r.challenge != "" && r.oid != ""
                       then var ac := AuthCode(r.oid, r.roles, r.clientID, r.redirect, r.challenge, now + 120);
                            old(codes)[minted := ac]
                       else old(codes)
    {
      if !r.codeFlow || !r.s256 {
        return None;
      }
      if r.clientID == "" || r.redirect == "" || r.challenge == "" || r.oid == "" {
        return None;
      }
      var known := r.clientID in clients;
      if !known {
        return None;
      }
      codes := codes[minted := CodeFor(r, now)];
      if !r.parses {
        return None;
      }
      return Some(minted);
    }

    /** token: the lookup burns the code, whatever the checks that follow say. */
    method Exchange(r: TokenRequest, now: int, signed: bool) returns (token: Option<Token>)
      modifies this`codes
      ensures (codes, token) == Redeem(hash, old(codes), r, now, signed)
      ensures codes == if r.codeGrant then old(codes) - {r.code} else old(codes)
      ensures token.Some? <==> && r.codeGrant && r.code in old(codes) && now <= old(codes)[r.code].expires
                               && hash(r.verifier) == old(codes)[r.code].challenge
                               && (r.redirect == "" || r.redirect == old(codes)[r.code].redirect) && signed
      ensures token.Some? ==>
                var ac := old(codes)[r.code];
                token.value == Token(ac.oid, ac.roles, r.code, r.verifier, r.redirect, now)
    {
      if !r.codeGrant {
        return None;
      }
      var ac := if r.code in codes then Some(codes[r.code]) else None;
      codes := codes - {r.code};
      if ac.None? || now > ac.value.expires {
        return None;
      }
      if hash(r.verifier) != ac.value.challenge {
        return None;
      }
      if r.redirect != "" && r.redirect != ac.value.redirect {
        return None;
      }
      if !signed {
        return None;
      }
      return Some(TokenFor(ac.value, r, now));
    }
  }

  // ---- interleaved requests ----

  /** Where a request stands; each critical section is one step. */
  datatype Pc =
    | Registering(post: bool, redirects: seq<string>)
    | Authorizing(a: AuthorizeRequest)
    | Known(a: AuthorizeRequest)
    | Exchanging(r: TokenRequest)
    | Taken(r: TokenRequest, ac: AuthCode)
    | Done

  /** The authorize request a code was issued for, and when. */
  datatype Issuance = Issuance(a: AuthorizeRequest, at: int)

  /** The store, the requests under way, and the history: codes issued and tokens handed out. */
  datatype Sys = Sys(clients: set<string>, codes: map<string, AuthCode>, requests: map<nat, Pc>,
                     issued: map<string, Issuance>, tokens: seq<Token>)

  const INIT := Sys({}, map[], map[], map[], [])

  datatype Event =
    | Arrive(t: nat, pc: Pc)
    | Run(t: nat, minted: string, now: int, signed: bool)

  function Step(hash: string -> string, s: Sys, ev: Event): Sys {
    match ev
    case Arrive(t, pc) =>
      if t in s.requests || !(pc.Registering? || pc.Authorizing? || pc.Exchanging?) then s
      else s.(requests := s.requests[t := pc])
    case Run(t, minted, now, signed) =>
      if t !in s.requests then s
      else
        match s.requests[t]
        case Registering(post, redirects) =>
          if post && redirects != [] then s.(clients := s.clients + {minted}, requests := s.requests[t := Done])
          else s.(requests := s.requests[t := Done])
        case Authorizing(a) =>
          s.(requests := s.requests[t := if a.Complete() && a.clientID in s.clients then Known(a) else Done])
        case Known(a) =>
          s.(codes := s.codes[minted := CodeFor(a, now)], issued := s.issued[minted := Issuance(a, now)],
             requests := s.requests[t := Done])
        case Exchanging(r) =>
          if r.codeGrant && r.code in s.codes then
            s.(codes := s.codes - {r.code}, requests := s.requests[t := Taken(r, s.codes[r.code])])
          else s.(requests := s.requests[t := Done])
        case Taken(r, ac) =>
          if Accepts(hash, ac, r, now) && signed then
            s.(tokens := s.tokens + [TokenFor(ac, r, now)], requests := s.requests[t := Done])
          else s.(requests := s.requests[t := Done])
        case Done => s
  }

  /** register, as one critical section: a client is registered exactly if it posts redirect URIs. */
  lemma RegistersExactly(hash: string -> string, s: Sys, t: nat, post: bool, redirects: seq<string>, ev: Event)
    requires t in s.requests && s.requests[t] == Registering(post, redirects) && ev.Run? && ev.t == t
    ensures Step(hash, s, ev)
            == s.(clients := if post && |redirects| > 0 then s.clients + {ev.minted} else s.clients,
                  requests := s.requests[t := Done])
  {
  }

  /** Run alone, the two critical sections of authorize are Issue, and the lookup and checks of token are Redeem. */
  lemma SoloSections(hash: string -> string, s: Sys, t: nat, minted: string, now: int, signed: bool)
    requires t in s.requests && (s.requests[t].Authorizing? || s.requests[t].Exchanging?)
    ensures var ev := Run(t, minted, now, signed);
            var s' := Step(hash, Step(hash, s, ev), ev);
            && s'.requests[t] == Done && s'.clients == s.clients
            && (s.requests[t].Authorizing? ==>
                  var a := s.requests[t].a;
                  var (codes, code) := Issue(s.clients, s.codes, a, minted, now);
                  s'.codes == codes && s'.tokens == s.tokens && (code.Some? ==> code.value in s'.issued)
                  && s'.issued == if a.Complete() && a.clientID in s.clients then s.issued[minted := Issuance(a, now)]
                                  else s.issued)
            && (s.requests[t].Exchanging? ==>
                  var (codes, token) := Redeem(hash, s.codes, s.requests[t].r, now, signed);
                  s'.codes == codes && s'.issued == s.issued
                  && s'.tokens == if token.Some? then s.tokens + [token.value] else s.tokens)
  {
    if s.requests[t].Exchanging? && s.requests[t].r.code !in s.codes {
      assert s.codes - {s.requests[t].r.code} == s.codes;
    }
  }

  function Exec(hash: string -> string, s: Sys, events: seq<Event>): Sys
    decreases |events|
  {
    if events == [] then s else Exec(hash, Step(hash, s, events[0]), events[1..])
  }

  /** This event does not issue a code that was issued before. */
  predicate FreshCode(s: Sys, ev: Event) {
    ev.Run? && ev.t in s.requests && s.requests[ev.t].Known? ==> ev.minted !in s.issued
  }

  /** randomToken never repeats a code. */
  predicate FreshCodes(hash: string -> string, s: Sys, events: seq<Event>)
    decreases |events|
  {
    events != [] ==> FreshCode(s, events[0]) && FreshCodes(hash, Step(hash, s, events[0]), events[1..])
  }

  /**
   * A token carries the oid and the roles of the authorize request its code was issued for, to an
   * exchange within two minutes, with a verifier that meets its challenge, and with its redirect URI
   * or none.
   */
  ghost predicate Earned(hash: string -> string, s: Sys, k: Token) {
    && k.code in s.issued
    && var i := s.issued[k.code];
       && IsProper(s, i.a)
       && k.oid == i.a.oid && k.roles == i.a.roles
       && hash(k.verifier) == i.a.challenge
       && k.at <= i.at + 120
       && (k.redirect == "" || k.redirect == i.a.redirect)
  }

  /** An authorize request for the code flow with S256, from a registered client, with everything it needs. */
  ghost predicate IsProper(s: Sys, a: AuthorizeRequest) {
    && a.codeFlow && a.s256 && a.clientID in s.clients
    && a.clientID != "" && a.redirect != "" && a.challenge != "" && a.oid != ""
  }

  /** A stored code says what its authorize request said, and when it ends: two minutes later. */
  ghost predicate Records(i: Issuance, ac: AuthCode) {
    ac == AuthCode(i.a.oid, i.a.roles, i.a.clientID, i.a.redirect, i.a.challenge, i.at + 120)
  }

  /** Every code is in one place only: the store, one exchange, one token, or burnt. */
  ghost predicate Inv(hash: string -> string, s: Sys) {
    && (forall c | c in s.codes :: c in s.issued && Records(s.issued[c], s.codes[c]))
    && (forall c | c in s.issued :: IsProper(s, s.issued[c].a))
    && (forall t | t in s.requests && s.requests[t].Known? :: IsProper(s, s.requests[t].a))
    && (forall t | t in s.requests && s.requests[t].Taken? ::
          && s.requests[t].r.code in s.issued && Records(s.issued[s.requests[t].r.code], s.requests[t].ac)
          && s.requests[t].r.code !in s.codes)
    && (forall t, u | t in s.requests && u in s.requests && s.requests[t].Taken? && s.requests[u].Taken? && t != u ::
          s.requests[t].r.code != s.requests[u].r.code)
    && (forall i | 0 <= i < |s.tokens| :: Earned(hash, s, s.tokens[i]) && s.tokens[i].code !in s.codes)
    && (forall i, t | 0 <= i < |s.tokens| && t in s.requests && s.requests[t].Taken? ::
          s.tokens[i].code != s.requests[t].r.code)
    && (forall i, j | 0 <= i < j < |s.tokens| :: s.tokens[i].code != s.tokens[j].code)
  }

  lemma IssueKeepsInv(hash: string -> string, s: Sys, t: nat, a: AuthorizeRequest, code: string, now: int)
    requires Inv(hash, s) && t in s.requests && s.requests[t] == Known(a) && code !in s.issued
    ensures Inv(hash, s.(codes := s.codes[code := CodeFor(a, now)], issued := s.issued[code := Issuance(a, now)],
                         requests := s.requests[t := Done]))
  {
  }

  lemma TakeKeepsInv(hash: string -> string, s: Sys, t: nat, r: TokenRequest)
    requires Inv(hash, s) && t in s.requests && s.requests[t] == Exchanging(r) && r.code in s.codes
    ensures Inv(hash, s.(codes := s.codes - {r.code}, requests := s.requests[t := Taken(r, s.codes[r.code])]))
  {
  }

  lemma GrantKeepsInv(hash: string -> string, s: Sys, t: nat, r: TokenRequest, ac: AuthCode, now: int)
    requires Inv(hash, s) && t in s.requests && s.requests[t] == Taken(r, ac) && Accepts(hash, ac, r, now)
    ensures Inv(hash, s.(tokens := s.tokens + [TokenFor(ac, r, now)],
                         requests := s.requests[t := Done]))
  {
  }

  /** Steps that only move a request on, or register a client. */
  lemma MoveKeepsInv(hash: string -> string, s: Sys, t: nat, pc: Pc, more: set<string>)
    requires Inv(hash, s) && !pc.Taken? && (pc.Known? ==> IsProper(s, pc.a))
    ensures Inv(hash, s.(clients := s.clients + more, requests := s.requests[t := pc]))
  {
  }

  lemma StepKeepsInv(hash: string -> string, s: Sys, ev: Event)
    requires Inv(hash, s) && FreshCode(s, ev)
    ensures Inv(hash, Step(hash, s, ev))
  {
    hide Inv;
    var s' := Step(hash, s, ev);
    assert s.clients + {} == s.clients;
    match ev {
      case Arrive(t, pc) =>
        if s' != s {
          MoveKeepsInv(hash, s, t, pc, {});
        }
      case Run(t, minted, now, _) =>
        if t in s.requests {
          match s.requests[t] {
            case Registering(_, _) =>
              MoveKeepsInv(hash, s, t, Done, {minted});
              MoveKeepsInv(hash, s, t, Done, {});
            case Authorizing(a) => MoveKeepsInv(hash, s, t, s'.requests[t], {});
            case Known(a) => IssueKeepsInv(hash, s, t, a, minted, now);
            case Exchanging(r) =>
              MoveKeepsInv(hash, s, t, Done, {});
              if r.codeGrant && r.code in s.codes {
                TakeKeepsInv(hash, s, t, r);
              }
            case Taken(r, ac) =>
              MoveKeepsInv(hash, s, t, Done, {});
              if s'.tokens != s.tokens {
                GrantKeepsInv(hash, s, t, r, ac, now);
              }
            case Done =>
          }
        }
    }
  }

  lemma {:induction false} ExecKeepsInv(hash: string -> string, s: Sys, events: seq<Event>)
    requires Inv(hash, s) && FreshCodes(hash, s, events)
    ensures Inv(hash, Exec(hash, s, events))
    decreases |events|
  {
    if events != [] {
      StepKeepsInv(hash, s, events[0]);
      ExecKeepsInv(hash, Step(hash, s, events[0]), events[1..]);
    }
  }

  /**
   * Over every interleaving: a code yields at most one token, and every token carries the oid and
   * the roles of the one authorization that issued its code, to a registered client, for a
   * verifier that meets the stored challenge, within the lifetime and for the redirect URI stored with it.
   */
  lemma CodesAreSingleUse(hash: string -> string, events: seq<Event>)
    requires FreshCodes(hash, INIT, events)
    ensures var s := Exec(hash, INIT, events);
            && (forall i, j | 0 <= i < j < |s.tokens| :: s.tokens[i].code != s.tokens[j].code)
            && (forall i | 0 <= i < |s.tokens| ::
                  Earned(hash, s, s.tokens[i]))
  {
    ExecKeepsInv(hash, INIT, events);
  }

  /** A code that has been looked up: it is out of the store, and only request t may still hold it. */
  ghost predicate Burnt(s: Sys, code: string, t: nat) {
    && code in s.issued && code !in s.codes
    && forall u | u in s.requests && s.requests[u].Taken? && s.requests[u].r.code == code :: u == t
  }

  ghost function TokensFor(tokens: seq<Token>, code: string): set<Token> {
    set k | k in tokens && k.code == code
  }

  lemma StepBurnt(hash: string -> string, s: Sys, ev: Event, code: string, t: nat)
    requires Burnt(s, code, t) && FreshCode(s, ev)
    ensures Burnt(Step(hash, s, ev), code, t)
    ensures t in s.requests && s.requests[t].Done? ==>
              t in Step(hash, s, ev).requests && Step(hash, s, ev).requests[t].Done?
              && TokensFor(Step(hash, s, ev).tokens, code) == TokensFor(s.tokens, code)
  {
  }

  /** Once looked up a code stays burnt, and once its holder is done no token for it appears any more. */
  lemma {:induction false} BurntForGood(hash: string -> string, s: Sys, events: seq<Event>, code: string, t: nat)
    requires FreshCodes(hash, s, events) && Burnt(s, code, t)
    ensures Burnt(Exec(hash, s, events), code, t)
    ensures t in s.requests && s.requests[t].Done? ==>
              TokensFor(Exec(hash, s, events).tokens, code) == TokensFor(s.tokens, code)
    decreases |events|
  {
    hide Burnt, Step, TokensFor;
    if events != [] {
      StepBurnt(hash, s, events[0], code, t);
      BurntForGood(hash, Step(hash, s, events[0]), events[1..], code, t);
    }
  }

  /**
   * An exchange that has taken its code out of the store, and whatever has happened since fails a
   * check: the code has not yielded a token and never will.
   */
  lemma FailedExchangeBurns(hash: string -> string, s: Sys, t: nat, minted: string, now: int, signed: bool,
                            later: seq<Event>)
    requires Inv(hash, s) && t in s.requests && s.requests[t].Taken?
    requires !(Accepts(hash, s.requests[t].ac, s.requests[t].r, now) && signed)
    requires FreshCodes(hash, Step(hash, s, Run(t, minted, now, signed)), later)
    ensures TokensFor(Exec(hash, Step(hash, s, Run(t, minted, now, signed)), later).tokens, s.requests[t].r.code) == {}
  {
    var code := s.requests[t].r.code;
    var s1 := Step(hash, s, Run(t, minted, now, signed));
    StepKeepsInv(hash, s, Run(t, minted, now, signed));
    BurntForGood(hash, s1, later, code, t);
    assert TokensFor(s1.tokens, code) == {};
  }

  /** The same on whole runs: the lookup, any events of other requests, the failing check, and any events after it. */
  lemma FailedExchangeBurnsInRuns(hash: string -> string, before: seq<Event>, t: nat, r: TokenRequest, lookup: Event,
                                  between: seq<Event>, check: Event, later: seq<Event>)
    requires lookup.Run? && lookup.t == t && check.Run? && check.t == t
    requires forall ev | ev in between :: ev.Run? ==> ev.t != t
    requires FreshCodes(hash, INIT, before + [lookup] + between + [check] + later)
    requires var s := Exec(hash, INIT, before);
             && t in s.requests && s.requests[t] == Exchanging(r) && r.codeGrant && r.code in s.codes
             && !(Accepts(hash, s.codes[r.code], r, check.now) && check.signed)
    ensures TokensFor(Exec(hash, INIT, before + [lookup] + between + [check] + later).tokens, r.code) == {}
  {
    hide Step, Inv, Accepts, TokensFor;
    var s := Exec(hash, INIT, before);
    var s1 := Step(hash, s, lookup);
    var s2 := Exec(hash, s1, between);
    var s3 := Step(hash, s2, check);
    assert before + [lookup] + between + [check] + later == before + ([lookup] + (between + ([check] + later)));
    ExecAppend(hash, INIT, before, [lookup] + (between + ([check] + later)));
    EmptyInv(hash);
    ExecKeepsInv(hash, INIT, before);
    assert ([lookup] + (between + ([check] + later)))[1..] == between + ([check] + later);
    ExecAppend(hash, s1, between, [check] + later);
    assert ([check] + later)[1..] == later;
    assert s1.requests[t] == Taken(r, s.codes[r.code]) by { Takes(hash, s, t, r, lookup); }
    StepKeepsInv(hash, s, lookup);
    ExecKeepsInv(hash, s1, between);
    OthersLeave(hash, s1, between, t);
    FailedExchangeBurns(hash, s2, t, check.minted, check.now, check.signed, later);
  }

  lemma EmptyInv(hash: string -> string)
    ensures Inv(hash, INIT)
  {
  }

  lemma Takes(hash: string -> string, s: Sys, t: nat, r: TokenRequest, ev: Event)
    requires t in s.requests && s.requests[t] == Exchanging(r) && r.codeGrant && r.code in s.codes && ev.Run?
             && ev.t == t
    ensures t in Step(hash, s, ev).requests && Step(hash, s, ev).requests[t] == Taken(r, s.codes[r.code])
  {
  }

  /** The events of other requests leave a request where it stands. */
  lemma {:induction false} OthersLeave(hash: string -> string, s: Sys, events: seq<Event>, t: nat)
    requires t in s.requests && forall ev | ev in events :: ev.Run? ==> ev.t != t
    ensures t in Exec(hash, s, events).requests && Exec(hash, s, events).requests[t] == s.requests[t]
    decreases |events|
  {
    if events != [] {
      OthersLeave(hash, Step(hash, s, events[0]), events[1..], t);
    }
  }

  lemma {:induction false} ExecAppend(hash: string -> string, s: Sys, events: seq<Event>, more: seq<Event>)
    ensures Exec(hash, s, events + more) == Exec(hash, Exec(hash, s, events), more)
    ensures FreshCodes(hash, s, events + more) ==>
              FreshCodes(hash, s, events) && FreshCodes(hash, Exec(hash, s, events), more)
    decreases |events|
  {
    if events == [] {
      assert [] + more == more;
    } else {
      assert (events + more)[1..] == events[1..] + more;
      ExecAppend(hash, Step(hash, s, events[0]), events[1..], more);
    }
  }

  // ---- an honest exchange gets its token ----

  /**
   * The round trip. A proper authorize request stores its code, which the next exchange of it takes:
   * for a token with the oid and roles of the request if it comes within two minutes, its verifier
   * meets the challenge and its redirect URI is the same or absent, and for nothing otherwise.
   */
  lemma HonestExchange(hash: string -> string, clients: set<string>, codes: map<string, AuthCode>, a: AuthorizeRequest,
                       code: string, now: int, r: TokenRequest, later: int, signed: bool)
    requires r.codeGrant && r.code == code
    ensures var proper := && a.codeFlow && a.s256 && a.clientID in clients
                          && a.clientID != "" && a.redirect != "" && a.challenge != "" && a.oid != "";
            var (codes', handed) := Issue(clients, codes, a, code, now);
            && handed == (if proper && a.parses then Some(code) else None)
            && (!proper ==> codes' == codes)
            && (proper ==>
                  Redeem(hash, codes', r, later, signed) == (codes - {code},
                    if later <= now + 120 && hash(r.verifier) == a.challenge
                      && (r.redirect == "" || r.redirect == a.redirect)
                       && signed
                    then Some(Token(a.oid, a.roles, code, r.verifier, r.redirect, later)) else None))
  {
    var codes' := Issue(clients, codes, a, code, now).0;
    assert codes' - {code} == codes - {code};
  }

  /** The first section of authorize lets exactly the proper requests of registered clients on. */
  lemma AuthorizesExactly(hash: string -> string, s: Sys, t: nat, a: AuthorizeRequest, ev: Event)
    requires t in s.requests && s.requests[t] == Authorizing(a) && ev.Run? && ev.t == t
    ensures Step(hash, s, ev) == s.(requests := s.requests[t := if IsProper(s, a) then Known(a) else Done])
  {
  }

  /** In this event the code is looked up. */
  predicate LooksUp(s: Sys, ev: Event, code: string) {
    && ev.Run? && ev.t in s.requests && s.requests[ev.t].Exchanging?
    && s.requests[ev.t].r.codeGrant && s.requests[ev.t].r.code == code
  }

  predicate NobodyLooksUp(hash: string -> string, s: Sys, events: seq<Event>, code: string)
    decreases |events|
  {
    events != [] ==> !LooksUp(s, events[0], code) && NobodyLooksUp(hash, Step(hash, s, events[0]), events[1..], code)
  }

  /** A code stays in the store until it is looked up. */
  lemma {:induction false} StaysStored(hash: string -> string, s: Sys, events: seq<Event>, code: string)
    requires code in s.codes && code in s.issued && FreshCodes(hash, s, events) && NobodyLooksUp(hash, s, events, code)
    ensures var s' := Exec(hash, s, events);
            && code in s'.codes && s'.codes[code] == s.codes[code]
            && code in s'.issued && s'.issued[code] == s.issued[code]
    decreases |events|
  {
    if events != [] {
      StaysStored(hash, Step(hash, s, events[0]), events[1..], code);
    }
  }

  /** The last section of authorize stores the code with what the request said. */
  lemma Stores(hash: string -> string, s: Sys, t: nat, a: AuthorizeRequest, code: string, now: int, signed: bool)
    requires t in s.requests && s.requests[t] == Known(a)
    ensures var s' := Step(hash, s, Run(t, code, now, signed));
            && code in s'.codes && Records(Issuance(a, now), s'.codes[code])
            && code in s'.issued && s'.issued[code] == Issuance(a, now)
  {
  }

  /** The last section of an exchange hands out the token of a request that meets every check. */
  lemma HandsOut(hash: string -> string, s: Sys, t: nat, a: AuthorizeRequest, at: int, r: TokenRequest, ac: AuthCode,
                 ev: Event)
    requires t in s.requests && s.requests[t] == Taken(r, ac) && Records(Issuance(a, at), ac)
    requires ev.Run? && ev.t == t && ev.signed && ev.now <= at + 120
    requires hash(r.verifier) == a.challenge && (r.redirect == "" || r.redirect == a.redirect)
    ensures Step(hash, s, ev).tokens == s.tokens + [Token(a.oid, a.roles, r.code, r.verifier, r.redirect, ev.now)]
  {
  }

  /**
   * The round trip on whole runs: a request t that has been let on stores its code; whatever others
   * do short of looking that code up, an exchange u of it takes it; and whatever others do then, u
   * gets its token if it comes in time with the verifier and the redirect URI.
   */
  lemma HonestExchangeInRuns(hash: string -> string, s: Sys, t: nat, a: AuthorizeRequest, code: string, at: int,
                             between: seq<Event>, u: nat, r: TokenRequest, lookup: Event, after: seq<Event>,
                             check: Event)
    requires t in s.requests && s.requests[t] == Known(a)
    requires var s1 := Step(hash, s, Run(t, code, at, true));
             && FreshCodes(hash, s1, between) && NobodyLooksUp(hash, s1, between, code)
             && u in Exec(hash, s1, between).requests && Exec(hash, s1, between).requests[u] == Exchanging(r)
    requires r.codeGrant && r.code == code && lookup.Run? && lookup.t == u && check.Run? && check.t == u
    requires forall ev | ev in after :: ev.Run? ==> ev.t != u
    requires check.signed && check.now <= at + 120
    requires hash(r.verifier) == a.challenge && (r.redirect == "" || r.redirect == a.redirect)
    ensures var s1 := Step(hash, s, Run(t, code, at, true));
            var s2 := Exec(hash, Step(hash, Exec(hash, s1, between), lookup), after);
            Step(hash, s2, check).tokens
            == s2.tokens + [Token(a.oid, a.roles, code, r.verifier, r.redirect, check.now)]
  {
    hide Step, Records;
    Stores(hash, s, t, a, code, at, true);
    var s1 := Step(hash, s, Run(t, code, at, true));
    StaysStored(hash, s1, between, code);
    var stored := Exec(hash, s1, between);
    Takes(hash, stored, u, r, lookup);
    OthersLeave(hash, Step(hash, stored, lookup), after, u);
    HandsOut(hash, Exec(hash, Step(hash, stored, lookup), after), u, a, at, r, stored.codes[code], check);
  }
}
