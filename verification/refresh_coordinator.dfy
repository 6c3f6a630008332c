/** The gateway's single-flight token refresh. The module-level
    `isFetchingToken` flag and the credential store are the only shared
    state; concurrent requests are represented by any order of the two
    kinds of event: a failed response reaching the gateway's error hook, and
    the in-flight refresh call settling. Everything observable is appended
    to a log of effects. */
module RefreshCoordinator {
  import opened Wrappers
  import opened Http
  import opened Notifications
  import opened TokensStore
  import Gateway
  import RefreshExchange
  import LoginGuard

  datatype Effect =
    | Toast(note: Notification)
    | RefreshCall(request: Request)
    | StoreWrite(tokens: Tokens)
    | Navigate(nav: Navigation)

  datatype State = State(fetching: bool, store: Tokens, log: seq<Effect>)

  datatype Event =
    | ResponseError(status: int, message: string)
    | Settled(reply: Reply)

  /** A page load: the flag starts clear and nothing has happened yet. */
  function Start(store: Tokens): State {
    State(false, store, [])
  }

  /** The number of refresh calls issued in a log. */
  function Calls(log: seq<Effect>): nat {
    if |log| == 0 then 0
    else Calls(log[..|log| - 1]) + (if log[|log| - 1].RefreshCall? then 1 else 0)
  }

  /** The number of refresh settlements in a log: each success writes the
      store once, each failure navigates once. */
  function Settlements(log: seq<Effect>): nat {
    if |log| == 0 then 0
    else Settlements(log[..|log| - 1]) + (if log[|log| - 1].StoreWrite? || log[|log| - 1].Navigate? then 1 else 0)
  }

  /** The number of redirects in a log. */
  function Navigations(log: seq<Effect>): nat {
    if |log| == 0 then 0
    else Navigations(log[..|log| - 1]) + (if log[|log| - 1].Navigate? then 1 else 0)
  }

  lemma CountsAppend(log: seq<Effect>, e: Effect)
    ensures Calls(log + [e]) == Calls(log) + (if e.RefreshCall? then 1 else 0)
    ensures Settlements(log + [e]) == Settlements(log) + (if e.StoreWrite? || e.Navigate? then 1 else 0)
    ensures Navigations(log + [e]) == Navigations(log) + (if e.Navigate? then 1 else 0)
  {
    assert (log + [e])[..|log|] == log;
  }

  /** Appends one effect to the log. */
  function Emit(log: seq<Effect>, e: Effect): (r: seq<Effect>)
    ensures r == log + [e]
    ensures Calls(r) == Calls(log) + (if e.RefreshCall? then 1 else 0)
    ensures Settlements(r) == Settlements(log) + (if e.StoreWrite? || e.Navigate? then 1 else 0)
    ensures Navigations(r) == Navigations(log) + (if e.Navigate? then 1 else 0)
  {
    CountsAppend(log, e);
    log + [e]
  }

  /** The flag is set exactly while one refresh call is outstanding. */
  predicate Consistent(s: State) {
    Calls(s.log) == Settlements(s.log) + (if s.fetching then 1 else 0)
  }

  /** A 401: check the flag and, when it is clear, set it and issue the
      refresh call with the refresh token held at that moment, with no
      suspension in between. */
  function On401(s: State): (r: State)
    ensures s.fetching ==> r == s
    ensures !s.fetching ==> r.fetching && r.store == s.store
    ensures !s.fetching ==> r.log == s.log + [RefreshCall(RefreshExchange.RefreshRequest(s.store.refreshToken))]
    ensures Calls(r.log) == Calls(s.log) + (if s.fetching then 0 else 1)
    ensures Settlements(r.log) == Settlements(s.log)
  {
    if s.fetching then s
    else
      State(true, s.store, Emit(s.log, RefreshCall(RefreshExchange.RefreshRequest(s.store.refreshToken))))
  }

  /** A failed response reaching the gateway's error hook. */
  function OnResponseError(s: State, status: int, message: string): (r: State)
    ensures status == 401 ==> r == On401(s)
    ensures status != 401 ==> r.fetching == s.fetching && r.store == s.store
    ensures status != 401 ==> r.log == s.log + [Toast(Gateway.Classify(status, message).value)]
    ensures status != 401 ==> Calls(r.log) == Calls(s.log) && Settlements(r.log) == Settlements(s.log)
  {
    match Gateway.Classify(status, message)
    case None => On401(s)
    case Some(note) =>
      s.(log := Emit(s.log, Toast(note)))
  }

  /** The outstanding refresh call settling. On success both tokens are
      replaced; on failure the user is sent to the login page, replacing
      history, and the store is left as it was. Either way the flag is
      released. With no refresh outstanding there is nothing to settle. */
  function Settle(s: State, reply: Reply): (r: State)
    ensures !r.fetching
    ensures !s.fetching ==> r == s
    ensures s.fetching && reply.Answered? ==> r.store == Replace(s.store, reply.pair)
    ensures s.fetching && !reply.Answered? ==> r.store == s.store
    ensures s.fetching && !reply.Answered? ==> |r.log| >= 1 && r.log[|r.log| - 1] == Navigate(Navigation(LoginGuard.LoginPath, true))
    ensures s.fetching ==> (
      r.log == s.log
        + (if reply.Rejected? then [Toast(RefreshExchange.Classify(reply.status, reply.message))] else [])
        + [if reply.Answered? then StoreWrite(Replace(s.store, reply.pair)) else Navigate(Navigation(LoginGuard.LoginPath, true))])
    ensures Navigations(r.log) == Navigations(s.log) + (if s.fetching && !reply.Answered? then 1 else 0)
    ensures Settlements(r.log) == Settlements(s.log) + (if s.fetching then 1 else 0)
    ensures Calls(r.log) == Calls(s.log)
  {
    if !s.fetching then s
    else
      var (outcome, note) := RefreshExchange.Exchange(reply);
      var log := if note.Some? then Emit(s.log, Toast(note.value)) else s.log;
      match outcome
      case Refreshed(pair) =>
        var tokens := Replace(s.store, pair);
        State(false, tokens, Emit(log, StoreWrite(tokens)))
      case RefreshFailed =>
        State(false, s.store, Emit(log, Navigate(Navigation(LoginGuard.LoginPath, true))))
  }

  function Step(s: State, e: Event): State {
    match e
    case ResponseError(status, message) => OnResponseError(s, status, message)
    case Settled(reply) => Settle(s, reply)
  }

  function Run(s: State, events: seq<Event>): State
    decreases |events|
  {
    if |events| == 0 then s else Run(Step(s, events[0]), events[1..])
  }

  /** The number of settlement events in a sequence. */
  function SettleEvents(events: seq<Event>): nat
    decreases |events|
  {
    if |events| == 0 then 0 else (if events[0].Settled? then 1 else 0) + SettleEvents(events[1..])
  }

  /** A page load starts consistent: no refresh outstanding, none issued. */
  lemma StartConsistent(store: Tokens)
    ensures Consistent(Start(store))
    ensures !Start(store).fetching && Calls(Start(store).log) == 0
  {}

  lemma StepKeepsConsistent(s: State, e: Event)
    requires Consistent(s)
    ensures Consistent(Step(s, e))
  {}

  /** Whatever the interleaving, the flag is set exactly while a refresh call
      is outstanding: calls and settlements never drift apart by more than one. */
  lemma {:induction false} RunKeepsConsistent(s: State, events: seq<Event>)
    requires Consistent(s)
    ensures Consistent(Run(s, events))
    decreases |events|
  {
    if |events| > 0 {
      StepKeepsConsistent(s, events[0]);
      RunKeepsConsistent(Step(s, events[0]), events[1..]);
    }
  }

  /** Settlements grow by at most one per settlement event. */
  lemma {:induction false} SettlementsBounded(s: State, events: seq<Event>)
    ensures Settlements(Run(s, events).log) <= Settlements(s.log) + SettleEvents(events)
    decreases |events|
  {
    if |events| > 0 {
      SettlementsBounded(Step(s, events[0]), events[1..]);
    }
  }

  /** Single flight: however many 401s arrive, a run issues at most one more
      refresh call than it has settlement events, and none beyond the
      outstanding one if a refresh is already in flight. */
  lemma SingleFlight(s: State, events: seq<Event>)
    requires Consistent(s)
    ensures Calls(Run(s, events).log) <= Calls(s.log) + SettleEvents(events) + (if s.fetching then 0 else 1)
  {
    RunKeepsConsistent(s, events);
    SettlementsBounded(s, events);
  }

  /** A 401 while a refresh is outstanding changes nothing at all. */
  lemma {:induction false} UnauthorizedWhileFetching(s: State, events: seq<Event>)
    requires s.fetching
    requires forall i :: 0 <= i < |events| ==> events[i].ResponseError? && events[i].status == 401
    ensures Run(s, events) == s
    decreases |events|
  {
    if |events| > 0 {
      UnauthorizedWhileFetching(Step(s, events[0]), events[1..]);
    }
  }

  /** A burst of 401s reaching an idle gateway issues exactly one refresh
      call, carrying the stored refresh token, and leaves the flag set. */
  lemma UnauthorizedBurst(s: State, events: seq<Event>)
    requires !s.fetching && |events| >= 1
    requires forall i :: 0 <= i < |events| ==> events[i].ResponseError? && events[i].status == 401
    ensures Run(s, events) ==
      State(true, s.store, s.log + [RefreshCall(RefreshExchange.RefreshRequest(s.store.refreshToken))])
  {
    UnauthorizedWhileFetching(Step(s, events[0]), events[1..]);
  }

  /** The flag is released on every outcome, so the next 401 starts a new refresh. */
  lemma SettleReleasesFlag(s: State, reply: Reply, message: string)
    requires s.fetching
    ensures Calls(OnResponseError(Settle(s, reply), 401, message).log) == Calls(s.log) + 1
    ensures OnResponseError(Settle(s, reply), 401, message).fetching
  {}

  /** Two requests fail with 401 before the refresh answers: one refresh
      call; afterwards the store holds the new pair and the retried requests
      carry the new access token. */
  lemma TwoRequestsOneRefresh(m1: string, m2: string)
    ensures var s := Run(Start(Tokens(Some("a0"), Some("r0"))),
                         [ResponseError(401, m1), ResponseError(401, m2), Settled(Answered(TokenPair("a1", "r1")))]);
      && Calls(s.log) == 1
      && !s.fetching
      && s.store == Tokens(Some("a1"), Some("r1"))
      && Gateway.WithAuthorization(map[], s.store.token)[Authorization] == Bearer("a1")
  {
    var s0 := Start(Tokens(Some("a0"), Some("r0")));
    var burst := [ResponseError(401, m1), ResponseError(401, m2)];
    var settle := Settled(Answered(TokenPair("a1", "r1")));
    RunConcat(s0, burst, [settle]);
    assert burst + [settle] == [ResponseError(401, m1), ResponseError(401, m2), settle];
    UnauthorizedBurst(s0, burst);
    var s2 := Run(s0, burst);
    assert s2.fetching && Calls(s2.log) == Calls(s0.log) + 1 == 1;
    var s3 := Settle(s2, settle.reply);
    assert Run(s2, [settle]) == Run(s3, []) == s3;
    assert s3.store == Tokens(Some("a1"), Some("r1"));
  }

  /** Running two event sequences one after the other is running their concatenation. */
  lemma {:induction false} RunConcat(s: State, a: seq<Event>, b: seq<Event>)
    ensures Run(s, a + b) == Run(Run(s, a), b)
    decreases |a|
  {
    if |a| > 0 {
      assert (a + b)[0] == a[0] && (a + b)[1..] == a[1..] + b;
      RunConcat(Step(s, a[0]), a[1..], b);
    } else {
      assert a + b == b;
    }
  }

  /** The refresh endpoint answering 401: a warning toast, one redirect to
      the login page replacing history, and the store kept as it was. */
  lemma RefreshRejected(s: State, message: string)
    requires s.fetching
    ensures var r := Settle(s, Rejected(401, message));
      && r.log == s.log + [Toast(AuthFailedNotice(message)), Navigate(Navigation("/login", true))]
      && r.store == s.store
      && !r.fetching
  {}

  /** After a failed refresh the stale credentials stay in the store, so
      a signed-in user is not redirected by the route guard afterwards; the
      only redirect is the one the failure issued. */
  lemma FailureKeepsSession(s: State, reply: Reply, path: string)
    requires s.fetching && !reply.Answered? && SignedIn(s.store)
    ensures LoginGuard.Redirect(path, Settle(s, reply).store) == None
  {}

  /** A 503: one server-error toast; flag and store untouched. */
  lemma ServerErrorLeavesStateAlone(s: State, message: string)
    ensures var r := OnResponseError(s, 503, message);
      && r.log == s.log + [Toast(ServerErrorNotice)]
      && r.store == s.store
      && r.fetching == s.fetching
  {}
}
