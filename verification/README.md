# The principal pool of soulstream-mcp, in Dafny

soulstream-mcp is a node that lets HTTP clients into a realm without custodying anything. Each
request brings an unverified bearer and perhaps a session id. The pool (`pool.go`) turns the two
into the one entry, a pooled connection with a principal's tool surface, that may serve the request.
It keeps three indexes under one mutex: `entries` by routing key, `byBearer` by admitted bearer,
`sessions` by MCP session. It releases the mutex around everything slow: the probe, the once-only
build of an entry, and `adopt`. The promise of all this is the trust rule: a bearer may influence
an entry only after the realm has admitted it as that entry's principal.

The model says what that code does, twice, and connects the two.

- **The interleaved node.** `PoolSpec` has the critical sections as functions on a value (the three
  maps and the fields of every entry ever created). `Interleaving` makes each request a program
  counter, each section under the mutex one step, and the probe, the stages of a build and `adopt`
  further steps. The schedule is any sequence of events: requests arrive and step, connections die,
  the node closes. `Structure` proves what holds in every such run of any realm, `PoolInvariants`
  and `Isolation` what holds of the realms described below, and `KeyCollisions` that they describe
  them exactly. `Progress` proves that requests end, and who is served.
- **The sequential node.** `Sequential` has `resolve` as one function of the state and of the fate
  of each dial. `SequentialSpec`, `SequentialRuns`, `RoutingAndSessions`, `OneEntryEach` and
  `Freshness` prove what holds between calls and across runs. `SoloRuns` proves that a sequential
  request, and with it every sequential run, is one schedule of the interleaved node. `InFlight` and
  `OneEntryInFlight` say what is left of the promises between calls when requests are in flight.
- **The objects.** `PoolImpl` and `NodeImpl` are `pool.go` and `node.go` as they are written, with
  classes, maps updated in place, loops, open connections and a ghost flag for the mutex. Every
  method is proved against the sequential functions.

Beside the pool stand the grant parser of `principal.go` (`Grants`, over `Text`), routing keys
(`Routing`), and the authorization-code stand-in of `rigtest/flow.go` (`CodeGrant`).

## What is assumed

- The realm admits a bearer as one principal only, its owner, and names both parts of it. It may
  refuse the bearer at any attempt. `Routing.ServerOwnerNamesPrincipals` shows that the parser of
  the server's allow lists gives the second half. The empty bearer, which `ServeHTTP` never passes
  on, is nobody.
- No hint starts with `pri:`. `Routing.RouteHintAvoidsPrincipals` proves this of the node's hint;
  the theorems hold for any other hint that obeys it.
- No two principals that share the key `pri:account:persona` both have a bearer that can be steered
  there, that is, whose hint another non-empty bearer has too (`Unconfused`). For every hint this is
  what isolation and the trust rule take, together with the next point
  (`KeyCollisions.IsolatedExactly`, `KeyCollisions.TrustHoldsExactly`). Distinct keys are enough, and
  colon-free account names are enough for those (`Routing.PrincipalKeyInjective`). Under the node's
  own hint the tokens that can be steered are those routed by their claims
  (`Routing.ClaimsAreSteerable`): in a realm of opaque tokens names do not matter
  (`KeyCollisions.OpaqueTokensAreIsolated`), and two signed tokens and a colon in an account name
  are enough to break isolation (`KeyCollisions.ColonBreaksIsolation`).
- The grant parser panics on nobody's allow list (`PanicFree`). The panic is part of the model, in
  every layer: the HTTP server recovers it and the request ends unanswered; in a probe the connection
  is closed; in a build the once is spent without an error and the dialled connection is left open.
  The next request with that bearer is then admitted to an entry without a principal, so the trust
  rule needs this assumption exactly. What `Structure` and `InFlight` say of the indexes does not.
- A connection that has closed stays closed, a successful build publishes persona, account,
  connection and server in one step, and closing a realm client closes its connection.
- In `CodeGrant` no authorization code is ever minted twice. Hashing is an arbitrary function.

## Where comments and code differ

The model follows the code.

- `pool.go:31` speaks of one entry per admitted principal. The code does not always keep that: a
  principal with two opaque tokens gets two live entries
  (`RoutingAndSessions.MismatchWithinOnePrincipal`). Sequential runs keep it exactly when each
  principal with several bearers has them on one hint that no other principal's bearer has
  (`OneEntryEach.OneEntryIffUndivided`). With requests in flight an entry that is still building
  diverts everyone else, and it is kept exactly when each principal has one bearer on a hint that no
  other bearer has (`OneEntryInFlight.OneEntryIffSolitary`); one token routed by its claims is enough
  to break it (`OneEntryInFlight.ClaimsHaveTwo`).
- `pool.go:25-28` says a mismatch means a different principal. The code compares entries
  (`pool.go:147-149`), so one principal's second token can be turned away from the session of its
  first. `SequentialRuns.MismatchExactly` says when the error is given, and
  `OneEntryEach.MismatchMeansAnotherIffUndivided` when it means what it says in sequential runs: under
  the same condition. With requests in flight it does exactly when no principal has two bearers
  (`OneEntryInFlight.MismatchMeansAnotherIffOneBearerEach`).
- `pool.go:44-46` says `latest` is the freshest admitted bearer. Sequentially it is the bearer the
  entry served last (`Freshness.LatestIsLastServed`), which is always the last one admitted exactly
  when no principal has two bearers (`Freshness.FreshestIffOneBearerEach`). With requests in flight
  it is some bearer the realm has admitted for the principal, because `adopt` is outside the mutex:
  in `InFlight.LateAdoption` an older bearer is adopted after a newer one. That it is always the
  freshest takes the same condition there (`OneEntryInFlight.FreshestInFlightIffOneBearerEach`).
- `principal.go:50` slices out of bounds when prefix and suffix of a subject overlap.
  `Grants.PanicsIffOverlaps` says on exactly which subjects; the model has the panic as a result.
- The indexes agree in both directions between calls only. `InFlight.AgreementNeedsQuiet` gives an
  interleaving in which a bearer is filed under an entry that was evicted meanwhile, and
  `InFlight.AgreementEndsExactly` and `InFlight.SessionAgreementEndsExactly` say which steps do that.

## Model

| member | source | states |
|---|---|---|
| Isolation.TrustRule | pool.go:31-34 | In every interleaving, each bearer in a built entry's tail and the one it presents were admitted by the realm as that entry's principal, an unbuilt entry has admitted nobody, and bearers and sessions lead to built entries only |
| Isolation.EvidenceIsAdmission | pool.go:286-301 | The history the trust rule speaks of holds exactly the admissions that probes and build dials have made in the run |
| Isolation.ExecKeepsInv | pool.go:132-282 | The inductive invariant (trust, index invariants, landing entries, what each request in flight has established) holds along any run from any state that has it |
| Interleaving.AdvanceFair | pool.go:132-282 | Any step of any request keeps the pool invariant, evolves entries monotonically, leaves live entries of strangers alone and keeps live session bindings; that requests get on is Progress |
| Interleaving.RequestStable | pool.go:183-198 | What a request has established outside the mutex survives any step of another request |
| Interleaving.LandingIsOwn | pool.go:261-282 | The entry under the principal key of a proven bearer is that principal's once built, and founded by a bearer of that principal before, though ensurePrincipal never checks again |
| Structure.EntriesAge | pool.go:183-198 | In any realm, over any run a build starts at most once and stays with its request, a published principal is final, failure and death are final, and an unbuilt entry presents the bearer that founded it |
| Structure.OneBuilder | pool.go:185 | In any realm, no two requests are ever inside the build of one entry |
| Isolation.RunIsIsolated | pool.go:132-282 | In every interleaving the entry that serves a request, and the server it gets, belong to the owner of its bearer |
| Isolation.LookupIsLiveAndOwn | pool.go:306-313 | What the server lookup finds at any moment of any run is the bearer's own principal's; what it finds at all is Structure.LookupExactly |
| Structure.EvictionIsExactAlways | pool.go:361-381 | In any realm, at any moment of any run evicting an entry removes every reference to it and none to another, and evicting it again changes nothing |
| Structure.LookupExactly | pool.go:306-313 | In any realm, at any moment of any run the server lookup finds the live entry a bearer is filed under, and nothing else |
| Structure.BoundEntersExactly | pool.go:137-155 | On the session of a live entry, with any requests in flight, a bearer in the tail is served, one filed elsewhere is turned away, any other is probed for |
| Structure.FoundEntersExactly | pool.go:157-164 | Without one, a bearer filed at a live entry is served there, the session's corpse is cleared, the session is bound |
| Structure.HintEntersExactly | pool.go:171-203 | Without that, a live entry under the hint is waited for if it presents the bearer and probed for if not, and the corpses met on the way are cleared |
| Structure.FoundsExactly | pool.go:172-182 | Where nothing alive is under the hint, all corpses met are cleared and a new entry founded that presents the bearer |
| Structure.LocatesExactly | pool.go:261-272 | The live entry under the principal key, or a new one in place of a corpse |
| Progress.WaitsForBuild | pool.go:185 | In any realm a request at another's running build stays there, however often it is scheduled, until that request takes its step |
| Progress.BuildDecides | pool.go:185-198 | In any realm and under any schedule, whoever stands at a build that has ended is served by its entry unless it left an error, and else refused with the entry gone from every index, in six turns |
| Progress.WaiterFaresAsBuild | pool.go:185-198 | A request that waits for another's build is served if that build's last stage goes well and refused if not, whatever happens before and after, in resolve's own build and in ensurePrincipal's |
| Progress.NoDeadlock | pool.go:273 | In any realm whoever is waited for is inside the build and does not wait |
| Progress.ThirteenTurnsSuffice | pool.go:132-282 | In any realm a request ends in thirteen turns besides waiting |
| Progress.FineRequestsAreServed | pool.go:132-282 | A request without a session and with a bearer the realm knows, arriving at any moment of any run, is never refused as long as no dial fails, whatever others do, and with thirteen turns it is served |
| Structure.AdvanceIsSteady | pool.go:132-282 | In any realm, even one the parser panics in, each step of a request keeps names in agreement with entries, ages entries, leaves the builds of others alone and keeps live bindings |
| PoolInvariants.EvictionIsExact | pool.go:361-381 | The same for any state in which names agree with the entries they refer to |
| PoolInvariants.LateEvictionSparesReplacement | pool.go:186-189 | A late second eviction does not touch the replacement that has taken the same key |
| PoolInvariants.AdmitEffect | pool.go:394-408 | Admitting a bearer to a tail of at most two drops at most the oldest, and un-files that one only if it is still filed under this entry |
| PoolInvariants.LocateKeeps | pool.go:172-182 | Finding, replacing or founding the entry under a key yields a live entry that carries the key, keeps the invariant and touches no live entry |
| Isolation.StrangersDoNotInterfere | pool.go:201-238 | Over any run, steps of requests whose bearers were never admitted as the entry's principal leave a live or still-building entry exactly as it is: fields, routes, bearers, sessions, whatever their hints |
| Isolation.WhoIsAStranger | pool.go:206-238 | A bearer refused throughout is such a stranger, and so is any bearer of another principal |
| Structure.LiveBindingsAreStable | pool.go:352-359 | In any realm a session stays bound to its entry in every interleaving for as long as the entry lives and the node is not closed |
| Isolation.SessionDecidesWhoServes | pool.go:135-153 | A request that enters on the session of a live entry is, in every continuation, served by that entry or by nobody |
| KeyCollisions.IsolatedExactly | pool.go:261-262 | Under any hint that avoids principal keys, every schedule isolates principals if and only if the parser never panics and no two principals with one principal key both have a bearer that shares its hint with another bearer |
| KeyCollisions.TrustHoldsExactly | pool.go:31-34 | The trust rule holds in every schedule under exactly that condition |
| KeyCollisions.PanicBreaksTrust | pool.go:185-197 | A bearer whose allow list the parser panics on is admitted and served by an entry without a principal the second time it is sent |
| KeyCollisions.CollisionBreaksIsolation | pool.go:226-237 | Two principals with one key, each with such a bearer, under any hint: a run in which one is admitted to, and served from, the other's entry |
| KeyCollisions.IsolatedIffKeysDistinct | pool.go:88-90 | Where the parser never panics, all hints isolate principals if and only if no two principals share a principal key |
| KeyCollisions.DeployedNodeIsIsolatedIff | pool.go:91-116 | With the real hint and the real grant parser the node isolates principals if and only if the parser panics on nobody's allow list and no two principals with one principal key both hold a token routed by its claims |
| KeyCollisions.DeployedNodeIsIsolated | pool.go:91-116 | Where no account name holds a colon, if and only if the parser panics on nobody's allow list |
| KeyCollisions.OpaqueTokensAreIsolated | pool.go:92-94 | The same where tokens are opaque, colons or not |
| KeyCollisions.ColonBreaksIsolation | pool.go:261-262 | Two claims-routed tokens granted to principals whose names run together over a colon: isolation fails on the real hint and parser |
| InFlight.NoConnectionIsLost | pool.go:345-381 | In any realm and every interleaving without a shutdown each live or still-building entry is found under its one key, so no open pooled connection is out of reach |
| InFlight.AgreementEndsExactly | pool.go:193-197 | In any reachable state where bearers are filed under indexed entries only, a step ends that if and only if it admits a bearer to an entry that has left the index and lacks the bearer |
| InFlight.SessionAgreementEndsExactly | pool.go:352-359 | In any reachable state where sessions are bound to indexed entries only, a step ends that if and only if it binds a free session to an entry that has left the index |
| InFlight.AgreementNeedsQuiet | pool.go:193-197 | For every bearer the realm admits there is an interleaving that files it under an evicted, dead entry and serves it from there, while the lookup finds no server |
| InFlight.LateAdoption | pool.go:217-222 | With three bearers of one principal on one hint, an interleaving in which one is admitted before another is first presented, adopted after it, and stays the one the entry presents |
| Routing.RouteHintAvoidsPrincipals | pool.go:91-116 | No hint looks like a principal key, whatever the decoder answers |
| Routing.JwtHint | pool.go:91-116 | A three-part token whose payload decodes is routed by issuer and oid, or subject when it has no oid; otherwise by itself |
| Routing.OpaqueHintsAreDistinct | pool.go:91-94 | Opaque tokens share a hint only if they are equal |
| Routing.ClaimsAreSteerable | pool.go:91-116 | Another bearer shares a token's hint exactly when the token is routed by its claims |
| Routing.HintExactly | pool.go:91-116 | A token is routed by its claims exactly when it has the JWT prefix, three parts and a payload that decodes |
| Routing.ServerOwnerExactly | principal.go:18-40 | A bearer is exactly whom the first grant of its allow list names, with only skipped subjects before it |
| Routing.PrincipalKeyInjective | pool.go:262 | Principals with colon-free accounts can be read back from their keys |
| Routing.ColonConfusesKeys | pool.go:262 | Two principals with one key, when an account name holds a colon |
| Routing.ServerOwnerNamesPrincipals | principal.go:18-40 | Whatever allow lists the server asserts, the principals parsed from them have both names; colon-free accounts keep their keys apart |
| SequentialSpec.ResolveSpec | pool.go:132-204 | resolve between calls: keeps the invariant, leaves no trace when it refuses, meets the success postcondition when it serves, dials at most once each way, and gives on a live session exactly the verdict that tails, index and one probe determine |
| Sequential.IndexAgreement | pool.go:345-408 | A bearer is filed under an entry exactly when the entry is indexed and has the bearer in its tail of one or two |
| Sequential.AdmitSeq | pool.go:216-225 | Admitting a proven bearer at a live entry, binding and adopting keeps index agreement and leaves the bearer latest, in the tail, filed and bound |
| Sequential.FoundingOutcome | pool.go:178-198 | Founding an entry either admits its bearer with all indexes in agreement or leaves only an unreachable corpse |
| SequentialRuns.RunKeepsSeqInv | pool.go:132-408 | Index agreement and the trust rule hold after any sequence of requests, deaths and shutdowns |
| SequentialRuns.IndexesAgreeAlways | pool.go:345-408 | After any run: agreement of bearer index and tails in both directions, duplicate-free tails holding latest, live entries and sessions indexed, at most twice as many bearers as keys |
| SequentialRuns.LookupExactly | pool.go:306-313 | After any run the server lookup finds the live entry that has the bearer in its tail, and nothing else |
| SequentialRuns.RefusedLookup | node.go:73-79 | After any run a refused request gets no server in public mode, and in local mode exactly the one of the live entry with its bearer in the tail |
| SequentialRuns.CapturesExactly | node.go:82-106 | Only a served request without a session binds the minted one, if it is free |
| SequentialRuns.NoTrustFromMemory | pool.go:392-408 | After any run a request served without a dial had its bearer in a live tail; any other must prove itself with its first dial; at most one probe and one connect |
| SequentialRuns.RefusalsAreNotSticky | pool.go:168-192 | After any run a refusal changes nothing live and names nothing, and whatever follows it, the same bearer without a session is served once the realm lets it in |
| SequentialRuns.MismatchExactly | pool.go:142-149 | The mismatch error is given exactly when a live session meets a bearer outside its tail that is filed elsewhere or proves another principal |
| OneEntryEach.OneEntryIffUndivided | pool.go:31 | Sequential runs never have two live entries of one principal if and only if each principal with several bearers has them on one hint that no other principal's bearer has |
| OneEntryEach.MismatchMeansAnotherIffUndivided | pool.go:25-28 | Under exactly the same condition no sequential run answers a mismatch to a bearer of the principal the session is bound to |
| OneEntryInFlight.OneEntryIffSolitary | pool.go:31 | No interleaving without a shutdown has two live entries of one principal if and only if each principal has one bearer, on a hint that no other bearer has |
| OneEntryInFlight.ClaimsHaveTwo | pool.go:216-237 | On the deployed node one token routed by its claims is enough for an interleaving with two live entries of its principal |
| OneEntryInFlight.ShutdownDoubles | pool.go:324-337 | A shutdown amid a build lets any bearer have two live entries |
| OneEntryInFlight.MismatchMeansAnotherIffOneBearerEach | pool.go:142-149 | No step of any interleaving answers a mismatch to a bearer of the principal the session is bound to if and only if no principal has two bearers |
| OneEntryInFlight.FreshestInFlightIffOneBearerEach | pool.go:44-46 | Every interleaving leaves entries presenting the last bearer they admitted if and only if no principal has two bearers |
| Freshness.LatestIsLastServed | pool.go:419-423 | After any sequential run a built entry presents the bearer of the last request it served, and its tail ends with the last bearer admitted to it |
| Freshness.FreshestExactly | pool.go:142-145 | A served request leaves its entry presenting an older bearer than the last admitted exactly when its bearer is the older of two in the tail |
| Freshness.FreshestIffOneBearerEach | pool.go:44-46 | Sequential runs always leave live entries presenting the last admitted bearer if and only if no principal has two bearers |
| RoutingAndSessions.PoolRefinesStateless | pool.go:88-116 | Against a fixed realm, for any hint and any deaths in between, the pool serves each request as the owner of its bearer if the realm admits it and refuses it otherwise |
| RoutingAndSessions.RoutingNeverDecides | pool.go:88-90 | Two pools with different hints fed the same bearers serve the same principals |
| RoutingAndSessions.LookupFindsServingEntry | node.go:75-87 | In one request the server lookup after a successful resolve finds the entry that resolve returned |
| RoutingAndSessions.SessionRoundTrip | node.go:82-106 | A session minted while an entry serves comes back to it: after any further operations, as long as it lives, any bearer in its tail with that session is served by it, reaches its server and dials nothing |
| RoutingAndSessions.MismatchWithinOnePrincipal | pool.go:147-149 | One principal, two tokens, two hints: two live entries, and the second token is refused on the first one's session |
| SoloRuns.ResolveIsASoloRun | pool.go:132-204 | A request that runs alone in the interleaved node, from any pool without a build under way, ends in the state and verdict of the sequential resolve, panics included |
| SoloRuns.ServeIsASchedule | node.go:57-87 | A whole sequential HTTP request is one of the schedules of the interleaved node |
| SoloRuns.RunIsASchedule | node.go:57-87 | Every sequential run of requests, deaths and shutdowns leaves the pool as some interleaving does |
| PoolImpl.Pool.constructor | pool.go:71-78 | A new pool is empty and its mutex free |
| PoolImpl.Pool.AliveLocked | pool.go:341-343 | Liveness read off the fields is liveness of the abstract entry |
| PoolImpl.Pool.NewEntryLocked | pool.go:345-350 | The one new entry takes the key and changes nothing else |
| PoolImpl.Pool.BindLocked | pool.go:352-359 | A session is bound only if it is free |
| PoolImpl.Pool.EvictLocked | pool.go:361-381 | The three deletion loops and the shutdown are the exact eviction |
| PoolImpl.Pool.IsAdmittedLocked | pool.go:383-390 | The scan decides membership in the tail |
| PoolImpl.Pool.AdmitLocked | pool.go:392-408 | Append, file and trim, as the trimmed admission |
| PoolImpl.Pool.Probe | pool.go:286-301 | A probe asks the realm once, leaves the pool alone and closes what it opened on every path, a panic included |
| PoolImpl.Pool.Connect | pool.go:428-485 | A failed connect closes what it opened and publishes nothing; a successful one publishes connection, principal and server together; a panic publishes nothing and leaves the connection without a holder |
| PoolImpl.Pool.Build | pool.go:185 | The build happens once, a panic being its happening; later calls dial nothing |
| PoolImpl.Pool.EnsurePrincipal | pool.go:261-282 | The entry under the principal key, built, or a refusal after its eviction; the mutex is free during the build and at the end |
| PoolImpl.Pool.Candidate | pool.go:210-238 | State, verdict and dials of the sequential candidate, mutex free at the end |
| PoolImpl.Pool.CandidateForBound | pool.go:242-257 | State, verdict and dials of the sequential refresh probe, mutex free at the end |
| PoolImpl.Pool.Resolve | pool.go:132-204 | On objects, resolve leaves exactly the state, gives exactly the verdict and makes exactly the dials of the sequential function, starts and ends with the mutex free, and leaks a connection only in a panic |
| PoolImpl.Pool.LookupServer | pool.go:306-313 | Read-only; a server is returned exactly if the bearer is filed at a live entry that has been built, and it is that entry's, on an open connection |
| PoolImpl.Pool.BindSession | pool.go:317-321 | Binds a free session under the mutex |
| PoolImpl.Pool.Die | pool.go:341-343 | The death of a pooled connection, at any time, is the death of the sequential model; between calls it leaves the state between calls, with no stray connection |
| PoolImpl.Pool.InvariantConserves | pool.go:361-381 | Between calls every open connection is the pooled connection of an indexed entry |
| PoolImpl.Pool.Close | pool.go:324-337 | Draining shuts each indexed entry and empties the indexes; between calls it leaves no connection open |
| NodeImpl.BearerLane | pool.go:79-86 | The bearer of "Bearer t" is t, and no other header carries it |
| NodeImpl.SessionCapture.Capture | node.go:98-106 | The first write binds the minted id to the admitting entry, later ones bind nothing |
| NodeImpl.Node.ServeHTTP | node.go:57-87 | On objects, ServeHTTP is the sequential request; from a state between calls it leaves one, strays no connection, never aborts where the parser does not panic, a served request reaches a server of its bearer's owner on an open connection, and so does every known bearer without a session when no dial fails |
| NodeImpl.Node.Close | node.go:52 | Closing between calls leaves no connection open |
| Grants.HitIffGrant | principal.go:44-58 | A subject yields a principal exactly when it is that principal's grant with both names non-empty and dot-free |
| Grants.PanicsIffOverlaps | principal.go:50 | The slice is out of bounds exactly on the subjects in which prefix and suffix overlap |
| Grants.ParserSpec | principal.go:44-58 | The parser names a principal exactly when its grant is the first subject not skipped, and panics exactly when an overlapping one is |
| Grants.GrantRoundTrip | principal.go:42-43 | Printing a principal as its grant and parsing gives it back |
| Grants.OrderIndependent | principal.go:44-58 | Without overlaps, and when all grants name one principal, the order of the list is irrelevant |
| CodeGrant.ASStub.Register | rigtest/flow.go:40-63 | A client with a redirect URI is registered under the minted id, nothing else changes |
| CodeGrant.ASStub.Authorize | rigtest/flow.go:67-108 | A complete request of a registered client stores the code with its challenge; a redirect URI that does not parse strands it |
| CodeGrant.ASStub.Exchange | rigtest/flow.go:112-150 | The code is gone whatever the checks say; the token, if any, carries what was stored with it |
| CodeGrant.SoloSections | rigtest/flow.go:79-136 | The critical sections, run back to back, are the methods' own effect |
| CodeGrant.CodesAreSingleUse | rigtest/flow.go:79-138 | In every interleaving a code yields at most one token, and each token carries the oid and roles of the one authorize request its code was issued for, by a registered client for the code flow with S256, to a verifier that meets its challenge, within two minutes and for its redirect URI or none |
| CodeGrant.HonestExchange | rigtest/flow.go:67-150 | The code of a proper authorize request is exchanged for a token with its oid and roles exactly if the exchange comes within two minutes, with a verifier that meets the challenge and its redirect URI or none, and is signed |
| CodeGrant.RegistersExactly | rigtest/flow.go:40-55 | A client is registered exactly if it posts redirect URIs |
| CodeGrant.AuthorizesExactly | rigtest/flow.go:69-85 | A request is let on exactly if it is complete, for the code flow with S256, and its client is registered |
| CodeGrant.HonestExchangeInRuns | rigtest/flow.go:91-150 | On whole runs, with any events of others in between short of looking the code up, the honest exchange gets that token |
| CodeGrant.BurntForGood | rigtest/flow.go:122-125 | A code once looked up never returns, and once its holder is done no token for it appears |
| CodeGrant.FailedExchangeBurns | rigtest/flow.go:121-138 | From any state of the invariant, an exchange that holds a code and now fails a check: the code has yielded no token and never will |
| CodeGrant.FailedExchangeBurnsInRuns | rigtest/flow.go:121-138 | On whole runs, with any events of other requests between lookup and failing check and any events after: the code never yields a token |

## Left out

- PoolImpl.Pool.Close: connections left open by a build in flight while `close` drains are not excluded, because the code has no closed flag; the drain is stated between calls. Nor does it close what a panic has leaked.
- CodeGrant.CodesAreSingleUse: that random codes never repeat is assumed of the run.
- NATS dialling, timeouts and reconnect timing, JetStream checks, the realm client and the persona signer inside `connect` are one fate per attempt; directory publication never decides admission and has no counterpart.
- What a reconnect presents: the token handler reads `latest`, and the trust rule is about `latest`; the reconnect itself is not a step.
- Base64 and JSON decoding in `routeHint` are an arbitrary partial function; `principalOf` is its parser on an arbitrary allow list.
- `keyringFor` and the pins: the logic is in a library that is not part of this model.
- Isolation.RunIsIsolated: the half about the server a request gets speaks of the lookup by bearer. In local mode a refused request is passed on to the SDK with its session header (`node.go:73-79`), and what the SDK's own session table then does with it is not part of this model.
- The MCP SDK's handler is reduced to a server lookup, a minted id and writes, none, one or many; streaming, `Flush` and `Unwrap` are plumbing.
- OAuth metadata and challenge texts, and logging with `hintClass`, do not touch the pool.
- `Config.validate`, flags and `root` settle by reading single branches.
- The commands under `cmd/` and the other files of `rigtest/` are set-up, remote calls and cryptography.
- Data races of the Go memory model on `err`, `nc` and `persona`: publication is one step.
- PoolImpl.Pool.Lock: blocking is not modelled; the ghost flag proves that no path takes the mutex twice or keeps it across a dial, and `Interleaving` carries the concurrency.
