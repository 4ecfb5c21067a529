/** How many version requests a connection sends altogether, from one control handler to the next. */
module RequestBudget {
  import opened ErrorText
  import opened ServiceState
  import opened Wrappers
  import opened ServiceSteps
  import opened ServiceEvents
  import opened ServiceInvariants
  import opened ServiceProofs
  import opened ServiceTheorems
  import opened HandshakeQuiet
  import opened RequestChains
  import opened LoneChain
  import opened TwoChains

  // ----- counting -----

  /** All requests ever sent. */
  function Sum(sends: Sends): nat {
    match sends
    case NoSends => 0
    case Sent(past, _, _, _) => Sum(past) + 1
  }

  /** The requests of n windows from the first on. */
  function SumOver(sends: Sends, first: nat, n: nat): nat {
    if n == 0 then 0 else SumOver(sends, first, n - 1) + TotalSends(sends, first + n - 1)
  }

  /** How often a run received the phone's version. */
  function Responses(events: seq<Event>): nat {
    if |events| == 0 then 0
    else Responses(events[..|events| - 1]) + if IsVersionResponse(events[|events| - 1]) then 1 else 0
  }

  /** sends is base and further requests, each of a window from first to last. */
  predicate Extends(sends: Sends, base: Sends, first: nat, last: nat) {
    sends == base
    || (sends.Sent? && first <= sends.window <= last && Extends(sends.past, base, first, last))
  }

  lemma {:induction false} ExtendsFurther(sends: Sends, base: Sends, first: nat, last: nat, more: nat)
    requires Extends(sends, base, first, last) && last <= more
    ensures Extends(sends, base, first, more)
  {
    if sends != base {
      ExtendsFurther(sends.past, base, first, last, more);
    }
  }

  lemma {:induction false} SumOverSent(sends: Sends, first: nat, n: nat)
    requires sends.Sent?
    ensures SumOver(sends, first, n) ==
            SumOver(sends.past, first, n) + if first <= sends.window < first + n then 1 else 0
  {
    if n > 0 {
      SumOverSent(sends, first, n - 1);
    }
  }

  lemma {:induction false} SumOverNone(sends: Sends, first: nat, n: nat)
    requires forall w: nat :: w >= first ==> TotalSends(sends, w) == 0
    ensures SumOver(sends, first, n) == 0
  {
    if n > 0 {
      SumOverNone(sends, first, n - 1);
    }
  }

  lemma {:induction false} SumOfExtension(sends: Sends, base: Sends, first: nat, n: nat)
    requires n > 0 && Extends(sends, base, first, first + n - 1)
    requires forall w: nat :: w >= first ==> TotalSends(base, w) == 0
    ensures Sum(sends) == Sum(base) + SumOver(sends, first, n)
  {
    if sends == base {
      SumOverNone(base, first, n);
    } else {
      SumOfExtension(sends.past, base, first, n);
      SumOverSent(sends, first, n);
    }
  }

  lemma {:induction false} SumOverBounded(sends: Sends, first: nat, n: nat, bound: nat)
    requires forall w: nat :: w >= first ==> TotalSends(sends, w) <= bound
    ensures SumOver(sends, first, n) <= n * bound
  {
    if n > 0 {
      SumOverBounded(sends, first, n - 1, bound);
    }
  }

  /** No request has been sent in a window yet to come. */
  lemma {:induction false} NoSendsAhead(sends: Sends, window: nat)
    requires forall c: nat :: SendCount(sends, c, window) == 0
    ensures TotalSends(sends, window) == 0
  {
    if sends.Sent? {
      assert SendCount(sends, sends.chain, window) == 0;
      forall c: nat ensures SendCount(sends.past, c, window) == 0 {
        assert SendCount(sends, c, window) == 0;
      }
      NoSendsAhead(sends.past, window);
    }
  }

  lemma NewWindowIsEmpty(cfg: Config, s: Service, window: nat)
    requires Reachable(cfg, s) && window > s.ver.window
    ensures TotalSends(s.ver.sends, window) == 0
  {
    ReachableOk(cfg, s);
    hide Reachable, TotalSends;
    forall c: nat ensures SendCount(s.ver.sends, c, window) == 0 {
      assert CountOk(cfg, s.ver, c, window);
    }
    NoSendsAhead(s.ver.sends, window);
  }

  // ----- the windows of a connection -----

  /** Only windows from first to last have been used since base. */
  predicate Within(s: Service, base: Sends, first: nat, last: nat) {
    Linked(s) && (s.control ==> first <= s.ver.window <= last) && Extends(s.ver.sends, base, first, last)
  }

  lemma StepStaysWithin(cfg: Config, s: Service, e: Event, base: Sends, first: nat, last: nat)
    requires Enabled(cfg, s, e) && Within(s, base, first, last) && Step(cfg, s, e).ver.chains == s.ver.chains
    ensures Within(Step(cfg, s, e), base, first, last + if IsVersionResponse(e) then 1 else 0)
  {
    hide Step, Enabled, Extends;
    StepAdvances(cfg, s, e);
    var t := Step(cfg, s, e);
    if IsVersionResponse(e) {
      ExtendsFurther(s.ver.sends, base, first, last, last + 1);
    } else {
      assert Continues(s.ver, t.ver);
      if t.ver.sends != s.ver.sends {
        ExtendsByOne(t.ver.sends, base, first, last);
      }
    }
  }

  lemma ExtendsByOne(sends: Sends, base: Sends, first: nat, last: nat)
    requires sends.Sent? && first <= sends.window <= last && Extends(sends.past, base, first, last)
    ensures Extends(sends, base, first, last)
  {
  }

  /** As long as no other handler is created, each version response adds one window. */
  lemma {:induction false} RunStaysWithin(cfg: Config, s: Service, base: Sends, first: nat, later: seq<Event>)
    requires Within(s, base, first, first)
    ensures var end := RunFrom(cfg, s, later);
            end.Some? && end.value.ver.chains == s.ver.chains ==>
              Within(end.value, base, first, first + Responses(later))
    decreases |later|
  {
    hide Step, Enabled, Within;
    if |later| > 0 {
      var before, last := later[..|later| - 1], later[|later| - 1];
      RunStaysWithin(cfg, s, base, first, before);
      DeadChainsStayDead(cfg, s, before);
      match RunFrom(cfg, s, before) {
        case None =>
        case Some(t) =>
          if Enabled(cfg, t, last) {
            StepAdvances(cfg, t, last);
            if Step(cfg, t, last).ver.chains == s.ver.chains {
              StepStaysWithin(cfg, t, last, base, first, first + Responses(before));
            }
          }
      }
    }
  }

  lemma CreationIsWithin(cfg: Config, s: Service, e: Event)
    requires Reachable(cfg, s) && Enabled(cfg, s, e) && Step(cfg, s, e).ver.chains > s.ver.chains
    ensures var t := Step(cfg, s, e);
            Within(t, s.ver.sends, t.ver.window, t.ver.window) && t.ver.window > s.ver.window
  {
    hide Step, Enabled, Reachable;
    NewChainBegins(cfg, s, e);
    StepIsReachable(cfg, s, e);
    var t := Step(cfg, s, e);
    ReachableRests(cfg, t);
    if t.ver.sends != s.ver.sends {
      ExtendsByOne(t.ver.sends, s.ver.sends, t.ver.window, t.ver.window);
    }
  }

  /** From the creation of a control handler that found nothing pending to the next creation, at
      most W/250 + 1 requests are sent altogether, and as many again for each version response
      received meanwhile. */
  lemma ConnectionSendsInAll(cfg: Config, s: Service, e: Event, later: seq<Event>)
    requires Reachable(cfg, s) && Enabled(cfg, s, e) && Step(cfg, s, e).ver.chains > s.ver.chains && s.ver.tokens == {}
    requires SameHandler(cfg, s, e, later)
    ensures var end := RunFrom(cfg, Step(cfg, s, e), later).value;
            Sum(end.ver.sends) <= Sum(s.ver.sends) + (Responses(later) + 1) * (cfg.recoveryWindowMs / 250 + 1)
  {
    hide Step, Enabled, Reachable, RunFrom, TotalSends, Extends;
    var t := Step(cfg, s, e);
    var end, bound, n := RunFrom(cfg, t, later).value, cfg.recoveryWindowMs / 250 + 1, Responses(later) + 1;
    CreationIsWithin(cfg, s, e);
    RunStaysWithin(cfg, t, s.ver.sends, t.ver.window, later);
    forall w: nat | w >= t.ver.window
      ensures TotalSends(s.ver.sends, w) == 0 && TotalSends(end.ver.sends, w) <= bound
    {
      NewWindowIsEmpty(cfg, s, w);
      ConnectionSendsFew(cfg, s, e, later, w);
    }
    SumOfExtension(end.ver.sends, s.ver.sends, t.ver.window, n);
    SumOverBounded(end.ver.sends, t.ver.window, n, bound);
  }

  // ----- a run that sends more -----

  /** A creation that found nothing pending, and a run to the next one that sends more than one
      window allows. */
  ghost predicate Overspends(cfg: Config, s: Service, e: Event, later: seq<Event>) {
    && Reachable(cfg, s) && Enabled(cfg, s, e) && Step(cfg, s, e).ver.chains > s.ver.chains && s.ver.tokens == {}
    && SameHandler(cfg, s, e, later)
    && Sum(RunFrom(cfg, Step(cfg, s, e), later).value.ver.sends) > Sum(s.ver.sends) + cfg.recoveryWindowMs / 250 + 1
  }

  /** CONNECTED, with one request on its way and no version known. */
  predicate Asking(s: Service, chain: nat) {
    && s.conn == Connected && s.control && s.handler && !s.proj.version && s.now > 0
    && s.ver.tokens == {InFlight(chain)}
  }

  lemma RunAppend(cfg: Config, t: Service, events: seq<Event>, s: Service, e: Event)
    requires RunFrom(cfg, t, events) == Some(s) && Enabled(cfg, s, e)
    ensures RunFrom(cfg, t, events + [e]) == Some(Step(cfg, s, e))
    ensures Responses(events + [e]) == Responses(events) + if IsVersionResponse(e) then 1 else 0
  {
    hide Step, Enabled;
    var more := events + [e];
    assert more[..|more| - 1] == events;
  }

  /** The outstanding request meets an operation in progress and is repeated 300 ms later. */
  lemma AskAgain(cfg: Config, t: Service, events: seq<Event>, s: Service, chain: nat)
    returns (more: seq<Event>, r: Service)
    requires RunFrom(cfg, t, events) == Some(s) && Asking(s, chain)
    requires s.ver.first == 0 || s.now + 300 <= s.ver.first + cfg.recoveryWindowMs
    ensures RunFrom(cfg, t, more) == Some(r) && Responses(more) == Responses(events) && Asking(r, chain)
    ensures r.now == s.now + 300 && r.ver.chains == s.ver.chains && Sum(r.ver.sends) == Sum(s.ver.sends) + 1
    ensures r.ver.first == if s.ver.first == 0 then r.now else s.ver.first
  {
    hide RunFrom, SendVersionRequest;
    var settled, due := Arrived(RequestSettled(InFlight(chain), InProgress)), Tick(300);
    var fired := Fired(RequestTimer(Waiting(chain, s.now + 300, false)));
    var refused := Step(cfg, s, settled);
    assert {InFlight(chain)} - {InFlight(chain)} == {};
    RunAppend(cfg, t, events, s, settled);
    RunAppend(cfg, t, events + [settled], refused, due);
    var waited := Step(cfg, refused, due);
    RunAppend(cfg, t, events + [settled] + [due], waited, fired);
    RequestRepeats(cfg, waited, Waiting(chain, s.now + 300, false));
    more, r := events + [settled] + [due] + [fired], Step(cfg, waited, fired);
  }

  lemma RequestRepeats(cfg: Config, s: Service, token: Token)
    requires token.Waiting? && s.ver.tokens == {token} && s.conn == Connected && s.control && s.handler
    requires !s.proj.version && (s.ver.first == 0 || s.now <= s.ver.first + cfg.recoveryWindowMs)
    ensures var r := VersionTimer(cfg, s, token);
            && r == s.(ver := r.ver) && r.ver.tokens == {InFlight(token.chain)} && r.ver.chains == s.ver.chains
            && r.ver.sends == Sent(s.ver.sends, token.chain, s.now, s.ver.window)
            && r.ver.first == if s.ver.first == 0 then s.now else s.ver.first
  {
    hide ControlError, VersionTimeoutText;
    assert {token} - {token} == {};
  }

  lemma {:induction false} AskOften(cfg: Config, t: Service, events: seq<Event>, s: Service, chain: nat, n: nat)
    returns (more: seq<Event>, r: Service)
    requires RunFrom(cfg, t, events) == Some(s) && Asking(s, chain)
    requires s.ver.first > 0 && s.now + 300 * n <= s.ver.first + cfg.recoveryWindowMs
    ensures RunFrom(cfg, t, more) == Some(r) && Responses(more) == Responses(events) && Asking(r, chain)
    ensures r.ver.chains == s.ver.chains && Sum(r.ver.sends) == Sum(s.ver.sends) + n
    decreases n
  {
    hide RunFrom;
    more, r := events, s;
    if n > 0 {
      more, r := AskAgain(cfg, t, events, s, chain);
      more, r := AskOften(cfg, t, more, r, chain, n - 1);
    }
  }

  /** The phone answers with its version, and then the search is started once more. */
  lemma Forget(cfg: Config, t: Service, events: seq<Event>, s: Service, chain: nat)
    returns (more: seq<Event>, r: Service)
    requires RunFrom(cfg, t, events) == Some(s) && Asking(s, chain)
    ensures RunFrom(cfg, t, more) == Some(r) && Responses(more) == Responses(events) + 1 && Asking(r, chain)
    ensures r.ver.chains == s.ver.chains && r.ver.sends == s.ver.sends && r.ver.first == 0
  {
    hide RunFrom, Ready, Outdate;
    var answer, search := CalledBack(VersionResponse(true, SentOk)), Called(StartSearchingCall(Listen(true)));
    RunAppend(cfg, t, events, s, answer);
    var known := Step(cfg, s, answer);
    RunAppend(cfg, t, events + [answer], known, search);
    more, r := events + [answer] + [search], Step(cfg, known, search);
  }

  lemma FirstAsk(cfg: Config, t: Service, chain: nat) returns (more: seq<Event>, r: Service)
    requires t.conn == Connected && t.control && t.handler && !t.proj.version && t.ver.first == 0 && t.now > 0
    requires t.ver.tokens == {Waiting(chain, t.now + 500, true)}
    ensures RunFrom(cfg, t, more) == Some(r) && Responses(more) == 0 && Asking(r, chain)
    ensures r.ver.chains == t.ver.chains && Sum(r.ver.sends) == Sum(t.ver.sends) + 1 && r.ver.first == r.now
  {
    hide SendVersionRequest;
    var due, fired := Tick(500), Fired(RequestTimer(Waiting(chain, t.now + 500, true)));
    assert RunFrom(cfg, t, []) == Some(t);
    RunAppend(cfg, t, [], t, due);
    var waited := Step(cfg, t, due);
    RunAppend(cfg, t, [] + [due], waited, fired);
    RequestRepeats(cfg, waited, Waiting(chain, t.now + 500, true));
    more, r := [] + [due] + [fired], Step(cfg, waited, fired);
  }

  /** A full window, a version response that a restarted search forgets, and another full window. */
  lemma AskTwice(cfg: Config, t: Service, chain: nat) returns (more: seq<Event>, r: Service)
    requires ValidConfig(cfg)
    requires t.conn == Connected && t.control && t.handler && !t.proj.version && t.ver.first == 0 && t.now > 0
    requires t.ver.tokens == {Waiting(chain, t.now + 500, true)}
    ensures RunFrom(cfg, t, more) == Some(r) && Responses(more) == 1 && r.ver.chains == t.ver.chains
    ensures Sum(r.ver.sends) == Sum(t.ver.sends) + 2 * (cfg.recoveryWindowMs / 300 + 1)
  {
    hide RunFrom;
    var n := cfg.recoveryWindowMs / 300;
    more, r := FirstAsk(cfg, t, chain);
    more, r := AskOften(cfg, t, more, r, chain, n);
    more, r := Forget(cfg, t, more, r, chain);
    more, r := AskAgain(cfg, t, more, r, chain);
    more, r := AskOften(cfg, t, more, r, chain, n);
  }

  /** Over USB, under every configuration, one version response is enough to exceed the bound of
      one window. */
  lemma OneResponseOverspends(cfg: Config)
    requires ValidConfig(cfg) && !cfg.wireless
    ensures exists s, e, later :: Overspends(cfg, s, e, later) && Responses(later) == 1
  {
    InitialIsReachable(cfg, 1);
    InitialIsDown(cfg);
    InitialHasNoChain(cfg);
    hide Reachable, Initial, Down, Step, Enabled, RunFrom, Responses;
    var searching := SearchFromDown(cfg, Initial(cfg, 1));
    var found, e := FindDevice(cfg, searching);
    var t := Step(cfg, found, e);
    StepIsReachable(cfg, found, e);
    ClockRuns(cfg, t);
    assert {} + {Waiting(0, t.now + 500, true)} == {Waiting(0, t.now + 500, true)};
    var later, end := AskTwice(cfg, t, 0);
    assert Overspends(cfg, found, e, later);
  }

  lemma ClockRuns(cfg: Config, s: Service)
    requires Reachable(cfg, s)
    ensures s.now > 0
  {
    ReachableOk(cfg, s);
    Parts(cfg, s);
    hide Inv, Reachable;
  }
}
