/** Routing keys of the pool: the unverified hint of a bearer and the principal alias. */
module Routing {
  import opened Wrappers
  import opened Text
  import opened Grants

  datatype Claims = Claims(oid: string, sub: string, iss: string)

  /**
   * routeHint. `decode` stands for base64 and JSON decoding of a token's payload: any partial
   * function from the payload text to its claims.
   */
  function RouteHint(bearer: string, decode: string -> Option<Claims>): string {
    if !HasPrefix(bearer, "eyJ") then "tok:" + bearer
    else
      var parts := Split(bearer, '.');
      if |parts| != 3 || decode(parts[1]).None? then "tok:" + bearer
      else
        var claims := decode(parts[1]).value;
        "oidc:" + claims.iss + ":" + (if claims.oid == "" then claims.sub else claims.oid)
  }

  /** The alias under which ensurePrincipal files the entry of a probe-proven principal. */
  function PrincipalKey(who: Principal): string {
    "pri:" + who.account + ":" + who.persona
  }

  /**
   * What a deployment fixes: who each bearer is (if anyone), on whose allow lists the parser panics,
   * how bearers are routed, and the mode.
   */
  datatype Config = Config(owner: string -> Option<Principal>, panics: string -> bool, hint: string -> string,
                           public: bool)

  /** Server-asserted principals have both names, and the empty bearer, which the node never presents, is nobody. */
  ghost predicate NamesPrincipals(owner: string -> Option<Principal>) {
    && (forall b :: owner(b).Some? ==> owner(b).value.persona != "" && owner(b).value.account != "")
    && owner("").None?
  }

  /** No two principals of the realm share a principal key. */
  ghost predicate KeysDistinct(owner: string -> Option<Principal>) {
    forall b, c | owner(b).Some? && owner(c).Some? :: PrincipalKey(owner(b).value) == PrincipalKey(owner(c).value) ==>
        owner(b) == owner(c)
  }

  /** Another bearer shares this one's hint, so that it can be there first. */
  ghost predicate Steerable(hint: string -> string, b: string) {
    exists x :: x != "" && x != b && hint(x) == hint(b)
  }

  /** No two principals that share a principal key both have a bearer that can be steered to it. */
  ghost predicate Unconfused(cfg: Config) {
    forall b, c | cfg.owner(b).Some? && cfg.owner(c).Some? && Steerable(cfg.hint, b) && Steerable(cfg.hint, c) ::
      PrincipalKey(cfg.owner(b).value) == PrincipalKey(cfg.owner(c).value) ==> cfg.owner(b) == cfg.owner(c)
  }

  /** Distinct principal keys are never confused. */
  lemma DistinctKeysAreUnconfused(cfg: Config)
    requires KeysDistinct(cfg.owner)
    ensures Unconfused(cfg)
  {
  }

  /** No hint looks like a principal key. */
  ghost predicate HintsAvoidPrincipals(hint: string -> string) {
    forall b :: !HasPrefix(hint(b), "pri:")
  }

  /** What holds of every realm and of the node's hint. */
  ghost predicate Regular(cfg: Config) {
    && NamesPrincipals(cfg.owner)
    && HintsAvoidPrincipals(cfg.hint)
    && (forall b | cfg.panics(b) :: cfg.owner(b).None?)
    && !cfg.panics("")
  }

  /** The parser panics on nobody's allow list. */
  ghost predicate PanicFree(cfg: Config) {
    forall b :: !cfg.panics(b)
  }

  /** The assumptions on the realm and the hint under which the pool is studied. */
  ghost predicate Sound(cfg: Config) {
    Regular(cfg) && PanicFree(cfg)
  }

  lemma PrincipalKeyIsPrefixed(who: Principal)
    ensures HasPrefix(PrincipalKey(who), "pri:")
  {
    assert PrincipalKey(who)[..4] == "pri:";
  }

  /** A three-part token whose payload decodes is routed by issuer and oid, or subject when it has no oid. */
  lemma JwtHint(header: string, payload: string, signature: string, decode: string -> Option<Claims>)
    requires '.' !in header && '.' !in payload && '.' !in signature && HasPrefix(header, "eyJ")
    ensures var bearer := header + "." + payload + "." + signature;
            RouteHint(bearer, decode) ==
            match decode(payload)
            case None => "tok:" + bearer
            case Some(c) => if c.oid != "" then "oidc:" + c.iss + ":" + c.oid else "oidc:" + c.iss + ":" + c.sub
  {
    var bearer := header + "." + payload + "." + signature;
    assert bearer == header + "." + (payload + "." + signature);
    SplitHead(header, payload + "." + signature, '.');
    SplitHead(payload, signature, '.');
    SplitFree(signature, '.');
    assert Split(bearer, '.') == [header, payload, signature];
    assert bearer[..3] == header[..3];
  }

  /**
   * A token with the JWT prefix, in three parts, with a payload that decodes, is routed by what it
   * claims, and any other by itself.
   */
  lemma HintExactly(b: string, decode: string -> Option<Claims>)
    ensures RouteHint(b, decode) ==
            if "eyJ" <= b && |Split(b, '.')| == 3 && decode(Split(b, '.')[1]).Some? then
              var c := decode(Split(b, '.')[1]).value;
              "oidc:" + c.iss + ":" + (if c.oid != "" then c.oid else c.sub)
            else "tok:" + b
  {
  }

  /** Two tokens are routed apart unless they are equal or both carry claims. */
  lemma OpaqueHintsAreDistinct(b: string, c: string, decode: string -> Option<Claims>)
    requires RouteHint(b, decode) == RouteHint(c, decode) && RouteHint(b, decode)[0] == 't'
    ensures b == c
  {
    assert RouteHint(b, decode)[4..] == b && RouteHint(c, decode)[4..] == c;
  }

  /** The token is routed by what it claims, not by itself. */
  predicate RoutedByClaims(b: string, decode: string -> Option<Claims>) {
    var parts := Split(b, '.');
    HasPrefix(b, "eyJ") && |parts| == 3 && decode(parts[1]).Some?
  }

  /** A token with another signature claims the same. */
  lemma SameClaims(b: string, decode: string -> Option<Claims>)
    requires RoutedByClaims(b, decode)
    ensures RoutedByClaims(b + "x", decode) && RouteHint(b + "x", decode) == RouteHint(b, decode)
  {
    var parts := Split(b, '.');
    JoinSplit(b, '.');
    SplitCuts(b, '.');
    var tail := parts[2] + "x";
    assert parts == [parts[0]] + [parts[1]] + [parts[2]];
    assert Join(parts[1..], '.') == parts[1] + "." + parts[2];
    assert b == parts[0] + "." + (parts[1] + "." + parts[2]);
    assert b + "x" == parts[0] + "." + (parts[1] + "." + tail);
    SplitHead(parts[0], parts[1] + "." + tail, '.');
    SplitHead(parts[1], tail, '.');
    SplitFree(tail, '.');
    assert (b + "x")[..3] == b[..3];
  }

  /** Under the node's hint the tokens that can be steered are exactly those routed by their claims. */
  lemma ClaimsAreSteerable(hint: string -> string, b: string, decode: string -> Option<Claims>)
    requires forall x :: hint(x) == RouteHint(x, decode)
    ensures Steerable(hint, b) <==> RoutedByClaims(b, decode)
  {
    if RoutedByClaims(b, decode) {
      SameClaims(b, decode);
      assert hint(b + "x") == hint(b) && |b + "x"| == |b| + 1;
    } else if Steerable(hint, b) {
      var x :| x != "" && x != b && hint(x) == hint(b);
      assert hint(b) == RouteHint(b, decode) && hint(b)[0] == 't';
      OpaqueHintsAreDistinct(x, b, decode);
    }
  }

  /** The node's own hint is one of the hints studied here, whatever the decoder does. */
  lemma RouteHintAvoidsPrincipals(hint: string -> string, decode: string -> Option<Claims>)
    requires forall b :: hint(b) == RouteHint(b, decode)
    ensures HintsAvoidPrincipals(hint)
  {
    forall b
      ensures !HasPrefix(hint(b), "pri:")
    {
      assert hint(b) == RouteHint(b, decode);
      assert hint(b)[0] == 't' || hint(b)[0] == 'o';
    }
  }

  /** A colon-free account can be read back from the key, and so can the persona. */
  lemma PrincipalKeyInjective(p: Principal, q: Principal)
    requires ':' !in p.account && ':' !in q.account
    requires PrincipalKey(p) == PrincipalKey(q)
    ensures p == q
  {
    var k := PrincipalKey(p);
    var m, n := |p.account|, |q.account|;
    assert k[4 + m] == ':' && k[4 + n] == ':';
    assert k[4..4 + m] == p.account && k[4..4 + n] == q.account;
    assert forall i | 0 <= i < m :: p.account[i] == k[4 + i];
    assert forall i | 0 <= i < n :: q.account[i] == k[4 + i];
    assert m == n;
    assert k[4 + m + 1..] == p.persona && k[4 + n + 1..] == q.persona;
  }

  /** A colon in an account name does confuse the keys of two principals. */
  lemma ColonConfusesKeys()
    ensures PrincipalKey(Principal("c", "a:b")) == PrincipalKey(Principal("b:c", "a"))
  {
    calc {
      PrincipalKey(Principal("c", "a:b"));
      "pri:a:b:c";
      PrincipalKey(Principal("b:c", "a"));
    }
  }

  /** principalOf for every bearer, given the allow list the server asserts for it. */
  function ServerOwner(allows: string -> seq<string>, root: string): string -> Option<Principal> {
    b => if b == "" then None
         else match PrincipalFromAllows(allows(b), root) case Hit(who) => Some(who) case _ => None
  }

  /**
   * A bearer is whom the first subject of its allow list that is not skipped grants: who, exactly when
   * who's grant stands there with only skipped subjects before it.
   */
  lemma ServerOwnerExactly(allows: string -> seq<string>, root: string, b: string, who: Principal)
    requires b != ""
    ensures ServerOwner(allows, root)(b) == Some(who) <==>
            exists i: nat ::
              && i < |allows(b)| && WellFormed(who)
              && allows(b)[i] == root + "." + who.account + "." + who.persona + ".sign.record"
              && forall j | 0 <= j < i :: MatchSubject(allows(b)[j], root).Skip?
  {
    ParserSpec(allows(b), root, who);
    assert Grant(who, root) == root + "." + who.account + "." + who.persona + ".sign.record";
  }

  /** The bearers whose probe or build ends in the panic of the parser. */
  function ServerPanics(allows: string -> seq<string>, root: string): string -> bool {
    b => b != "" && PrincipalFromAllows(allows(b), root).Panics?
  }

  /** Whatever the server asserts, parsing it names principals; colon-free accounts keep their keys apart. */
  lemma ServerOwnerNamesPrincipals(allows: string -> seq<string>, root: string)
    ensures NamesPrincipals(ServerOwner(allows, root))
    ensures (forall b :: ServerOwner(allows, root)(b).Some? ==> ':' !in ServerOwner(allows, root)(b).value.account)
            ==> KeysDistinct(ServerOwner(allows, root))
  {
    var owner := ServerOwner(allows, root);
    forall b | owner(b).Some?
      ensures owner(b).value.persona != "" && owner(b).value.account != ""
    {
      ScanIsFirstMatch(allows(b), root);
      var i: nat :| Decides(allows(b), root, i);
      MatchedIsGrant(allows(b)[i], root);
    }
    if forall b :: owner(b).Some? ==> ':' !in owner(b).value.account {
      forall b, c | owner(b).Some? && owner(c).Some? && PrincipalKey(owner(b).value) == PrincipalKey(owner(c).value)
        ensures owner(b) == owner(c)
      {
        PrincipalKeyInjective(owner(b).value, owner(c).value);
      }
    }
  }
}
