/**
 * API requests of the browser and the single-flight refresh of the access token
 * (frontend/lib/api.ts, request; frontend/lib/token-manager.ts, refreshAccessToken). A step is
 * what runs between two awaits; requests and replies come in any order. A flight of the
 * refresh call is named after the request that started it.
 */
module TokenGate {
  import opened Wrappers

  type ReqId = nat
  type Token = string

  const AUTH_ENDPOINTS := ["/api/v1/auth/login", "/api/v1/auth/register", "/api/v1/auth/refresh", "/api/v1/auth/logout"]

  predicate IsAuthEndpoint(path: string) {
    exists i :: 0 <= i < |AUTH_ENDPOINTS| && (path == AUTH_ENDPOINTS[i] || AUTH_ENDPOINTS[i] + "/" <= path)
  }

  /** The four endpoints and everything under them, and nothing else. */
  lemma AuthEndpointsAre(path: string)
    ensures IsAuthEndpoint(path) <==>
              || path == "/api/v1/auth/login" || "/api/v1/auth/login/" <= path
              || path == "/api/v1/auth/register" || "/api/v1/auth/register/" <= path
              || path == "/api/v1/auth/refresh" || "/api/v1/auth/refresh/" <= path
              || path == "/api/v1/auth/logout" || "/api/v1/auth/logout/" <= path
  {
    var e := AUTH_ENDPOINTS;
    assert e[0] + "/" == "/api/v1/auth/login/" && e[1] + "/" == "/api/v1/auth/register/";
    assert e[2] + "/" == "/api/v1/auth/refresh/" && e[3] + "/" == "/api/v1/auth/logout/";
  }

  /** One reply to a fetch. `details` says whether the error body carries details, which are
      thrown at once. */
  datatype Reply = Reply(status: nat, details: bool)

  predicate Ok(reply: Reply) {
    200 <= reply.status <= 299
  }

  datatype Result = Answered | ApiError | SessionExpired | NetworkError

  /** A refresh call in the air, or how it ended. */
  datatype Flight =
    | Flying
    | Landed(token: Token)
    | Denied        // 401 or 403: the refresh token is no longer good
    | Unreachable   // network error, 5xx or any other failing status
    | Tokenless     // an answer without an access token

  /** What comes back from the refresh endpoint; no status for a network error. */
  datatype RefreshReply = RefreshReply(status: Option<nat>, token: Option<Token>)

  /** The one outcome of a refresh call. */
  function Outcome(reply: RefreshReply): (flight: Flight)
    ensures flight.Landed? <==>
            reply.status.Some? && 200 <= reply.status.value <= 299 && reply.token.Some? && reply.token.value != ""
    ensures flight.Denied? <==> reply.status in {Some(401), Some(403)}
    ensures reply.status.None? || (reply.status.Some? && reply.status.value >= 500) ==> flight.Unreachable?
    ensures flight != Flying
  {
    match reply.status
    case None => Unreachable
    case Some(status) =>
      if !(200 <= status <= 299) then (if status == 401 || status == 403 then Denied else Unreachable)
      else if reply.token.Some? && reply.token.value != "" then Landed(reply.token.value)
      else Tokenless
  }

  datatype Pc = Fetching(retried: bool) | Awaiting(flight: ReqId) | Done(result: Result)

  /** A request, whether its path is not an auth endpoint, the numbers of its fetches and of its joins of a flight
      so far, the flight it joined last, if any, and what it got from that flight. */
  datatype Request = Req(
    guarded: bool, pc: Pc, fetches: nat, joins: nat, joined: Option<ReqId>, got: Option<Flight>)

  datatype State = State(
    accessToken: Option<Token>,
    gate: Option<ReqId>,                // _refreshPromise
    flights: map<ReqId, Flight>,
    requests: map<ReqId, Request>)

  const INIT := State(None, None, map[], map[])

  datatype Step =
    | Issue(q: ReqId, guarded: bool)
    | Respond(q: ReqId, reply: Reply)
    | Lose(q: ReqId)                          // the fetch itself fails
    | Land(f: ReqId, outcome: Flight)        // the refresh call ends, well or badly
    | Wake(q: ReqId)                          // a request goes on after its flight
    | SetToken(token: Option<Token>)          // sign-in or sign-out elsewhere in the application

  predicate Enabled(s: State, step: Step) {
    match step
    case Issue(q, _) => q !in s.requests && q !in s.flights
    case Respond(q, _) => q in s.requests && s.requests[q].pc.Fetching?
    case Lose(q) => q in s.requests && s.requests[q].pc.Fetching?
    case Land(f, outcome) => f in s.flights && s.flights[f] == Flying && outcome != Flying
    case SetToken(_) => true
    case Wake(q) =>
      q in s.requests && s.requests[q].pc.Awaiting? && s.requests[q].pc.flight in s.flights
      && s.flights[s.requests[q].pc.flight] != Flying
  }

  function Put(s: State, q: ReqId, r: Request): State {
    s.(requests := s.requests[q := r])
  }

  /** `refreshAccessToken`: share the flight in the gate, or start one and put it there. */
  function Join(s: State, q: ReqId): State
    requires q in s.requests
  {
    var f := if s.gate.Some? then s.gate.value else q;
    var joined := Put(s, q, s.requests[q].(pc := Awaiting(f), joins := s.requests[q].joins + 1, joined := Some(f)));
    if s.gate.Some? then joined
    else joined.(gate := Some(q), flights := s.flights[q := Flying])
  }

  function Next(s: State, step: Step): State
    requires Enabled(s, step)
  {
    match step
    case Issue(q, guarded) => Put(s, q, Req(guarded, Fetching(false), 1, 0, None, None))
    case Respond(q, reply) =>
      var r := s.requests[q];
      if Ok(reply) then Put(s, q, r.(pc := Done(Answered)))
      else if reply.details then Put(s, q, r.(pc := Done(ApiError)))
      else if reply.status == 401 && r.guarded then
        if r.pc.retried then Put(s, q, r.(pc := Done(SessionExpired))).(accessToken := None)
        else Join(s, q)
      else
        Put(s, q, r.(pc := Done(ApiError))).(accessToken := if reply.status == 401 then None else s.accessToken)
    case Lose(q) => Put(s, q, s.requests[q].(pc := Done(NetworkError)))
    case Land(f, outcome) => s.(gate := None, flights := s.flights[f := outcome])
    case SetToken(token) => s.(accessToken := token)
    case Wake(q) =>
      var r, flight := s.requests[q], s.flights[s.requests[q].pc.flight];
      if flight.Landed? then
        Put(s, q, r.(pc := Fetching(true), fetches := r.fetches + 1, got := Some(flight)))
        .(accessToken := Some(flight.token))
      else
        Put(s, q, r.(pc := Done(ApiError), got := Some(flight))).(accessToken := None)
  }

  // ---- what every interleaving keeps -----------------------------------------

  /** The gate holds exactly the flight that is in the air, so there is at most one. */
  ghost predicate SingleFlight(s: State) {
    && (s.gate.Some? ==> s.gate.value in s.flights && s.flights[s.gate.value] == Flying)
    && (forall f :: f in s.flights && s.flights[f] == Flying ==> s.gate == Some(f))
  }

  /** How far each request is, and what it has used up: at most two fetches and one flight,
      the second fetch only after a flight that brought a token. */
  ghost predicate Frugal(r: Request) {
    && r.joins == (if r.joined.Some? then 1 else 0)
    && match r.pc
       case Fetching(true) => r.fetches == 2 && r.joined.Some? && Brought(r)
       case Fetching(false) => r.fetches == 1 && r.joined.None? && r.got.None?
       case Awaiting(f) => r.fetches == 1 && r.joined == Some(f) && r.got.None?
       case Done(_) => 1 <= r.fetches <= 2 && (r.fetches == 2 <==> Brought(r)) && (r.got.Some? ==> r.joined.Some?)
  }

  ghost predicate Brought(r: Request) {
    r.got.Some? && r.got.value.Landed?
  }

  /** A request knows its flight, and whoever went on after a flight has its one outcome. */
  ghost predicate Shares(s: State, r: Request) {
    r.joined.Some? ==>
      r.joined.value in s.flights && (r.got.Some? ==> r.got.value == s.flights[r.joined.value] && r.got.value != Flying)
  }

  /** Only a request that joined a flight can have started one. */
  ghost predicate Started(s: State, f: ReqId) {
    f in s.requests && s.requests[f].joined == Some(f)
  }

  ghost predicate Sound(s: State) {
    && SingleFlight(s)
    && (forall q :: q in s.requests ==> Frugal(s.requests[q]) && Shares(s, s.requests[q]))
    && (forall f :: f in s.flights ==> Started(s, f))
  }

  ghost predicate OutcomesStay(s: State, s': State) {
    forall f :: f in s.flights ==>
      f in s'.flights && (s.flights[f] != Flying ==> s'.flights[f] == s.flights[f])
  }

  lemma SingleFlightStep(s: State, step: Step)
    requires Sound(s) && Enabled(s, step)
    ensures SingleFlight(Next(s, step))
    ensures OutcomesStay(s, Next(s, step))
  {
  }

  lemma FrugalStep(s: State, step: Step, q: ReqId)
    requires Enabled(s, step) && q in Next(s, step).requests
    requires q in s.requests ==> Frugal(s.requests[q])
    ensures Frugal(Next(s, step).requests[q])
  {
  }

  lemma SharesStep(s: State, step: Step, q: ReqId)
    requires Enabled(s, step) && q in Next(s, step).requests
    requires OutcomesStay(s, Next(s, step))
    requires s.gate.Some? ==> s.gate.value in s.flights
    requires q in s.requests ==> Frugal(s.requests[q]) && Shares(s, s.requests[q])
    ensures Shares(Next(s, step), Next(s, step).requests[q])
  {
  }

  lemma StartedStep(s: State, step: Step, f: ReqId)
    requires Sound(s) && Enabled(s, step) && f in Next(s, step).flights
    ensures Started(Next(s, step), f)
  {
    assert f in s.flights ==> Started(s, f);
    assert f in s.requests ==> Frugal(s.requests[f]);
  }

  lemma SoundStep(s: State, step: Step)
    requires Sound(s) && Enabled(s, step)
    ensures Sound(Next(s, step))
  {
    SingleFlightStep(s, step);
    forall q | q in Next(s, step).requests
      ensures Frugal(Next(s, step).requests[q]) && Shares(Next(s, step), Next(s, step).requests[q])
    {
      assert q in s.requests ==> Frugal(s.requests[q]) && Shares(s, s.requests[q]);
      FrugalStep(s, step, q);
      SharesStep(s, step, q);
    }
    forall f | f in Next(s, step).flights ensures Started(Next(s, step), f) {
      StartedStep(s, step, f);
    }
  }

  ghost predicate Possible(s: State, steps: seq<Step>)
    decreases |steps|
  {
    steps != [] ==> Enabled(s, steps[0]) && Possible(Next(s, steps[0]), steps[1..])
  }

  function After(s: State, steps: seq<Step>): State
    requires Possible(s, steps)
    decreases |steps|
  {
    if steps == [] then s else After(Next(s, steps[0]), steps[1..])
  }

  lemma {:induction false} SoundRuns(s: State, steps: seq<Step>)
    requires Sound(s) && Possible(s, steps)
    ensures Sound(After(s, steps))
    decreases |steps|
  {
    if steps != [] {
      SoundStep(s, steps[0]);
      SoundRuns(Next(s, steps[0]), steps[1..]);
    }
  }

  ghost predicate OneFlightInTheAir(s: State) {
    forall f, g :: f in s.flights && g in s.flights && s.flights[f] == Flying && s.flights[g] == Flying ==> f == g
  }

  ghost predicate SameFlightSameOutcome(s: State) {
    forall p, q :: p in s.requests && q in s.requests && s.requests[p].joined == s.requests[q].joined ==>
      (s.requests[p].got.Some? && s.requests[q].got.Some? ==> s.requests[p].got == s.requests[q].got)
  }

  /** At most two fetches and at most one join, and the second fetch only after the join. */
  predicate Thrifty(r: Request) {
    r.fetches <= 2 && r.joins <= 1 && (r.fetches == 2 ==> r.joins == 1)
  }

  function Joiners(s: State): set<ReqId> {
    set q | q in s.requests && s.requests[q].joined.Some?
  }

  lemma SoundShares(s: State)
    requires Sound(s)
    ensures SameFlightSameOutcome(s)
  {
  }

  lemma SoundCounts(s: State)
    requires Sound(s)
    ensures |s.flights| <= |Joiners(s)|
    ensures forall q :: q in s.requests ==> Thrifty(s.requests[q])
  {
    forall f | f in s.flights ensures f in Joiners(s) {
      assert Started(s, f);
    }
    SubsetSize(s.flights.Keys, Joiners(s));
    forall q | q in s.requests ensures Thrifty(s.requests[q]) {
      assert Frugal(s.requests[q]);
    }
  }

  /** In every interleaving: at most one refresh call is in the air; every request makes at
      most two fetches and joins at most one flight, the second fetch only after the join;
      requests that went on after the same flight got the same outcome; and there are no more
      refresh calls than requests that joined one. */
  lemma EveryInterleaving(steps: seq<Step>)
    requires Possible(INIT, steps)
    ensures var s := After(INIT, steps);
            && OneFlightInTheAir(s)
            && SameFlightSameOutcome(s)
            && |s.flights| <= |Joiners(s)|
            && (forall q :: q in s.requests ==> Thrifty(s.requests[q]))
  {
    SoundRuns(INIT, steps);
    SoundShares(After(INIT, steps));
    SoundCounts(After(INIT, steps));
  }

  lemma SubsetSize(a: set<ReqId>, b: set<ReqId>)
    requires a <= b
    ensures |a| <= |b|
  {
    assert b == a + (b - a);
  }

  /** The outcome of a flight never changes. */
  lemma {:induction false} OutcomesAreFinal(s: State, steps: seq<Step>, f: ReqId)
    requires Sound(s) && Possible(s, steps) && f in s.flights && s.flights[f] != Flying
    ensures f in After(s, steps).flights && After(s, steps).flights[f] == s.flights[f]
    decreases |steps|
  {
    if steps != [] {
      SoundStep(s, steps[0]);
      SingleFlightStep(s, steps[0]);
      OutcomesAreFinal(Next(s, steps[0]), steps[1..], f);
    }
  }

  /** A request turned away while a flight is in the air joins it; with none in the air it
      starts a new one, so a call after a completion never gets the completed flight. */
  lemma TurnedAwayJoinsOrStarts(s: State, q: ReqId)
    requires Sound(s) && Enabled(s, Respond(q, Reply(401, false)))
    requires s.requests[q].guarded && s.requests[q].pc == Fetching(false)
    ensures var s' := Next(s, Respond(q, Reply(401, false)));
            && s'.requests[q].pc.Awaiting?
            && var f := s'.requests[q].pc.flight;
               && s'.flights[f] == Flying
               && (f in s.flights <==> s.gate.Some?) && (f in s.flights ==> s.flights[f] == Flying)
  {
  }

  // ---- what becomes of the session -------------------------------------------

  /** The promise made beside `refreshAccessToken`: a refresh token that is no longer good ends the session,
      a network error or a failing server does not. */
  predicate SessionPromiseKept(before: Option<Token>, flight: Flight, after: Option<Token>) {
    && (flight.Denied? ==> after.None?)
    && (flight.Unreachable? ==> after == before)
  }

  /** `request` clears the token after every flight that did not land; so the promise is kept by a request going on
      after its flight exactly when the flight was not unreachable, or no token was set. */
  lemma SessionIsKeptExactly(s: State, q: ReqId)
    requires Enabled(s, Wake(q))
    ensures var flight, s' := s.flights[s.requests[q].pc.flight], Next(s, Wake(q));
            && (s'.accessToken.None? <==> !flight.Landed?)
            && (flight.Landed? ==> s'.accessToken == Some(flight.token))
            && (SessionPromiseKept(s.accessToken, flight, s'.accessToken)
                <==> !(flight.Unreachable? && s.accessToken.Some?))
            && ((s'.accessToken.None? <==> flight.Denied?) <==> !flight.Unreachable? && !flight.Tokenless?)
  {
  }

  /** The step sets the token: a sign-in, or a request going on after a flight that landed. */
  predicate SetsToken(s: State, step: Step)
    requires Enabled(s, step)
  {
    || (step.SetToken? && step.token.Some?)
    || (step.Wake? && s.flights[s.requests[step.q].pc.flight].Landed?)
  }

  /** The step clears it: a sign-out, a request going on after any other flight, or a 401 that is not refreshed, be it
      of an auth endpoint or of the second fetch. */
  predicate ClearsToken(s: State, step: Step)
    requires Enabled(s, step)
  {
    || (step.SetToken? && step.token.None?)
    || (step.Wake? && !s.flights[s.requests[step.q].pc.flight].Landed?)
    || (step.Respond? && step.reply == Reply(401, false)
        && (!s.requests[step.q].guarded || s.requests[step.q].pc.retried))
  }

  lemma StepOnToken(s: State, step: Step)
    requires Enabled(s, step)
    ensures Next(s, step).accessToken.Some? <==> SetsToken(s, step) || (s.accessToken.Some? && !ClearsToken(s, step))
  {
  }

  /** A run, with all its states. */
  ghost predicate Trace(states: seq<State>, steps: seq<Step>) {
    && |states| == |steps| + 1 && states[0] == INIT
    && (forall i {:trigger StepAt(states, steps, i)} :: 0 <= i < |steps| ==> StepAt(states, steps, i))
  }

  ghost predicate StepAt(states: seq<State>, steps: seq<Step>, i: int) {
    0 <= i < |steps| && i + 1 < |states| && Enabled(states[i], steps[i]) && states[i + 1] == Next(states[i], steps[i])
  }

  ghost predicate Sets(states: seq<State>, steps: seq<Step>, i: int) {
    StepAt(states, steps, i) && SetsToken(states[i], steps[i])
  }

  /** The token the step sets. */
  ghost predicate Brings(states: seq<State>, steps: seq<Step>, i: int, token: Token) {
    && StepAt(states, steps, i)
    && match steps[i]
       case SetToken(given) => given == Some(token)
       case Wake(q) => states[i].flights[states[i].requests[q].pc.flight] == Landed(token)
       case _ => false
  }

  ghost predicate Clears(states: seq<State>, steps: seq<Step>, i: int) {
    StepAt(states, steps, i) && ClearsToken(states[i], steps[i])
  }

  /** In every interleaving, a token is set exactly when some step has set one and none has cleared it since: a session
      lasts from a sign-in or a refresh to the first failed refresh, unrefreshed 401 or sign-out. */
  lemma {:induction false} SessionLastsExactly(states: seq<State>, steps: seq<Step>, n: nat)
    requires Trace(states, steps) && n <= |steps|
    ensures states[n].accessToken.Some? <==>
              exists i :: 0 <= i < n && Sets(states, steps, i) && forall j :: i < j < n ==> !Clears(states, steps, j)
    ensures states[n].accessToken.Some? ==>
              exists i :: 0 <= i < n && Brings(states, steps, i, states[n].accessToken.value)
                && forall j :: i < j < n ==> !Clears(states, steps, j) && !Sets(states, steps, j)
  {
    if n > 0 {
      SessionLastsExactly(states, steps, n - 1);
      assert StepAt(states, steps, n - 1);
      StepOnToken(states[n - 1], steps[n - 1]);
      assert Sets(states, steps, n - 1) <==> SetsToken(states[n - 1], steps[n - 1]);
      assert Clears(states, steps, n - 1) <==> ClearsToken(states[n - 1], steps[n - 1]);
      if Sets(states, steps, n - 1) {
        assert Brings(states, steps, n - 1, states[n].accessToken.value);
      }
    }
  }

  /** The step ends the request with this result: an answer, an error of the server, a lost connection, a session that
      is over after the second 401, or the first error again when the refresh fails. */
  predicate EndsWith(s: State, step: Step, q: ReqId, result: Result)
    requires Enabled(s, step)
  {
    match step
    case Respond(p, reply) =>
      && p == q
      && (if 200 <= reply.status <= 299 then result == Answered
          else if reply.details || reply.status != 401 || !s.requests[q].guarded then result == ApiError
          else s.requests[q].pc.retried && result == SessionExpired)
    case Lose(p) => p == q && result == NetworkError
    case Wake(p) => p == q && !s.flights[s.requests[q].pc.flight].Landed? && result == ApiError
    case _ => false
  }

  /** A request that is under way ends with a result exactly at such a step; one that has ended stays so. */
  lemma StepOnResult(s: State, step: Step, q: ReqId, result: Result)
    requires Enabled(s, step) && q in s.requests
    ensures q in Next(s, step).requests
    ensures !s.requests[q].pc.Done? ==> (Next(s, step).requests[q].pc == Done(result) <==> EndsWith(s, step, q, result))
    ensures s.requests[q].pc.Done? ==> Next(s, step).requests[q].pc == s.requests[q].pc
    ensures Next(s, step).requests[q].guarded == s.requests[q].guarded
  {
  }

  /** A request goes to the server a second time exactly when it goes on after a flight that landed. */
  lemma SecondFetchFollowsLanding(s: State, step: Step, q: ReqId)
    requires Enabled(s, step) && q in s.requests
    ensures Next(s, step).requests[q].fetches == s.requests[q].fetches
              + if step == Wake(q) && s.flights[s.requests[q].pc.flight].Landed? then 1 else 0
    ensures step == Wake(q) && s.flights[s.requests[q].pc.flight].Landed? ==>
              Next(s, step).requests[q].pc == Fetching(true)
  {
  }

  ghost predicate EndsAt(states: seq<State>, steps: seq<Step>, i: int, q: ReqId, result: Result) {
    && StepAt(states, steps, i) && q in states[i].requests && !states[i].requests[q].pc.Done?
    && EndsWith(states[i], steps[i], q, result)
  }

  /** In every interleaving, the result a request has is the one some step ended it with. */
  lemma {:induction false} ResultIsEarned(states: seq<State>, steps: seq<Step>, n: nat, q: ReqId)
    requires Trace(states, steps) && n <= |steps|
    requires q in states[n].requests && states[n].requests[q].pc.Done?
    ensures exists i :: 0 <= i < n && EndsAt(states, steps, i, q, states[n].requests[q].pc.result)
  {
    assert n > 0;
    assert StepAt(states, steps, n - 1);
    var s, result := states[n - 1], states[n].requests[q].pc.result;
    assert q in s.requests;
    StepOnResult(s, steps[n - 1], q, result);
    if s.requests[q].pc.Done? {
      ResultIsEarned(states, steps, n - 1, q);
    } else {
      assert EndsAt(states, steps, n - 1, q, result);
    }
  }

  /** A request of a signed-in user is turned away with 401, and the refresh endpoint answers 503. */
  function FailingRefresh(q: ReqId, token: Token): seq<Step> {
    [SetToken(Some(token)), Issue(q, true), Respond(q, Reply(401, false)),
     Land(q, Outcome(RefreshReply(Some(503), None)))]
  }

  lemma OneMoreFirst(s: State, step: Step, steps: seq<Step>)
    requires Enabled(s, step) && Possible(Next(s, step), steps)
    ensures Possible(s, [step] + steps) && After(s, [step] + steps) == After(Next(s, step), steps)
  {
    assert ([step] + steps)[1..] == steps;
  }

  /** It happens from the start: the server fails once and the user is signed out. */
  lemma FailingServerSignsOut(q: ReqId, token: Token)
    ensures Possible(INIT, FailingRefresh(q, token))
    ensures var s := After(INIT, FailingRefresh(q, token));
            && s.accessToken == Some(token) && Enabled(s, Wake(q)) && q in s.flights && s.flights[q] == Unreachable
            && Next(s, Wake(q)).accessToken == None
  {
    var steps := FailingRefresh(q, token);
    var s1 := Next(INIT, steps[0]);
    var s2 := Next(s1, steps[1]);
    var s3 := Next(s2, steps[2]);
    var s4 := Next(s3, steps[3]);
    OneMoreFirst(s3, steps[3], []);
    OneMoreFirst(s2, steps[2], steps[3..]);
    OneMoreFirst(s1, steps[1], steps[2..]);
    OneMoreFirst(INIT, steps[0], steps[1..]);
    assert After(INIT, steps) == s4;
  }

  // ---- the code between two awaits, on the module variables -------------------

  class Browser {
    var accessToken: Option<Token>
    var refreshPromise: Option<ReqId>
    var flights: map<ReqId, Flight>
    var requests: map<ReqId, Request>

    constructor ()
      ensures Now() == INIT
    {
      accessToken, refreshPromise, flights, requests := None, None, map[], map[];
    }

    function Now(): State
      reads this
    {
      State(accessToken, refreshPromise, flights, requests)
    }

    /** The head of `request`, up to its first fetch. */
    method Request(q: ReqId, path: string)
      requires Enabled(Now(), Issue(q, !IsAuthEndpoint(path)))
      modifies this
      ensures Now() == Next(old(Now()), Issue(q, !IsAuthEndpoint(path)))
    {
      requests := requests[q := Req(!IsAuthEndpoint(path), Fetching(false), 1, 0, None, None)];
    }

    /** The synchronous part of refreshAccessToken, for the request that calls it. */
    method RefreshAccessToken(q: ReqId)
      requires q in requests
      modifies this
      ensures Now() == Join(old(Now()), q)
    {
      var promise := if refreshPromise.Some? then refreshPromise.value else q;
      if refreshPromise.None? {
        flights := flights[q := Flying];
        refreshPromise := Some(q);
      }
      var r := requests[q];
      requests := requests[q := r.(pc := Awaiting(promise), joins := r.joins + 1, joined := Some(promise))];
    }

    /** The end of the refresh call: the gate is cleared on every path. */
    method Settle(f: ReqId, reply: RefreshReply)
      requires Enabled(Now(), Land(f, Outcome(reply)))
      modifies this
      ensures Now() == Next(old(Now()), Land(f, Outcome(reply)))
    {
      flights := flights[f := Outcome(reply)];
      refreshPromise := None;
    }

    method Finish(q: ReqId, result: Result)
      requires q in requests
      modifies this`requests
      ensures requests == old(requests)[q := old(requests)[q].(pc := Done(result))]
    {
      requests := requests[q := requests[q].(pc := Done(result))];
    }

    /** `request` from the reply to its fetch up to the next await. */
    method HandleReply(q: ReqId, reply: Reply)
      requires Enabled(Now(), Respond(q, reply))
      modifies this
      ensures Now() == Next(old(Now()), Respond(q, reply))
    {
      if Ok(reply) {
        Finish(q, Answered);
      } else if reply.details {
        Finish(q, ApiError);
      } else if reply.status == 401 && requests[q].guarded {
        if requests[q].pc.retried {
          accessToken := None;
          Finish(q, SessionExpired);
        } else {
          RefreshAccessToken(q);
        }
      } else {
        if reply.status == 401 {
          accessToken := None;
        }
        Finish(q, ApiError);
      }
    }

    /** `request` after its await of the refresh: retry once with the token, or give up. */
    method AfterRefresh(q: ReqId)
      requires Enabled(Now(), Wake(q))
      modifies this
      ensures Now() == Next(old(Now()), Wake(q))
    {
      var r := requests[q];
      var flight := flights[r.pc.flight];
      if flight.Landed? {
        accessToken := Some(flight.token);
        requests := requests[q := r.(pc := Fetching(true), fetches := r.fetches + 1, got := Some(flight))];
      } else {
        accessToken := None;
        requests := requests[q := r.(pc := Done(ApiError), got := Some(flight))];
      }
    }
  }
}
