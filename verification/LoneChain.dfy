/** When a connection's version requests form a single chain, and how many it then sends. */
module LoneChain {
  import opened ServiceState
  import opened Wrappers
  import opened ServiceSteps
  import opened ServiceEvents
  import opened ServiceInvariants
  import opened ServiceProofs
  import opened ServiceTheorems
  import opened HandshakeQuiet
  import opened RequestChains

  // ----- runs -----

  lemma {:induction false} RunStaysReachable(cfg: Config, s: Service, events: seq<Event>)
    requires Reachable(cfg, s)
    ensures RunFrom(cfg, s, events).Some? ==> Reachable(cfg, RunFrom(cfg, s, events).value)
  {
    hide Reachable, Step, Enabled;
    if |events| > 0 {
      var before, last := events[..|events| - 1], events[|events| - 1];
      RunStaysReachable(cfg, s, before);
      match RunFrom(cfg, s, before) {
        case None =>
        case Some(t) => if Enabled(cfg, t, last) { StepIsReachable(cfg, t, last); }
      }
    }
  }

  lemma InitialRests(cfg: Config, now: nat)
    ensures Resting(Initial(cfg, now)) && Linked(Initial(cfg, now))
  {
    ResetFrame(cfg, Blank(now), false);
  }

  lemma {:induction false} ReplayRests(cfg: Config, now: nat, events: seq<Event>)
    ensures var end := Replay(cfg, now, events); end.Some? ==> Resting(end.value) && Linked(end.value)
  {
    hide Step, Enabled, Initial, Resting, Linked;
    if |events| == 0 {
      InitialRests(cfg, now);
    } else {
      var before, last := events[..|events| - 1], events[|events| - 1];
      ReplayRests(cfg, now, before);
      match Replay(cfg, now, before) {
        case None =>
        case Some(s) => if Enabled(cfg, s, last) { StepAdvances(cfg, s, last); }
      }
    }
  }

  /** No reachable state is AUTHENTICATING, SECURING or DISCONNECTING, and in each the control
      channel is there exactly when its handler is. */
  lemma ReachableRests(cfg: Config, s: Service)
    requires Reachable(cfg, s)
    ensures Resting(s) && Linked(s)
  {
    hide Replay, Resting, Linked;
    var now: nat, events: seq<Event> :| now > 0 && Replay(cfg, now, events) == Some(s);
    ReplayRests(cfg, now, events);
  }

  // ----- chains over runs -----

  ghost predicate AtMostOne(tokens: set<Token>) {
    forall t, u :: t in tokens && u in tokens ==> t == u
  }

  ghost predicate OnlyChain(tokens: set<Token>, chain: nat) {
    forall t :: t in tokens ==> t.chain == chain
  }

  /** Every request of the given window or a later one was sent by the chain. */
  predicate OnlySender(sends: Sends, window: nat, chain: nat) {
    match sends
    case NoSends => true
    case Sent(past, c, _, w) => OnlySender(past, window, chain) && (w >= window ==> c == chain)
  }

  /** The requests of a window, whoever sent them. */
  function TotalSends(sends: Sends, window: nat): nat {
    match sends
    case NoSends => 0
    case Sent(past, _, _, w) => TotalSends(past, window) + if w == window then 1 else 0
  }

  lemma {:induction false} TotalOfOne(sends: Sends, first: nat, chain: nat, window: nat)
    requires OnlySender(sends, first, chain) && window >= first
    ensures TotalSends(sends, window) == SendCount(sends, chain, window)
  {
    if sends.Sent? {
      TotalOfOne(sends.past, first, chain, window);
    }
  }

  /** No request was sent in a window yet to come. */
  lemma {:induction false} NothingAhead(sends: Sends, window: nat, chain: nat)
    requires forall c: nat, w: nat :: w >= window ==> SendCount(sends, c, w) == 0
    ensures OnlySender(sends, window, chain)
  {
    if sends.Sent? {
      assert SendCount(sends, sends.chain, sends.window) > 0;
      forall c: nat, w: nat | w >= window ensures SendCount(sends.past, c, w) == 0 {
        assert SendCount(sends, c, w) == 0;
      }
      NothingAhead(sends.past, window, chain);
    }
  }

  lemma NothingSentAhead(cfg: Config, s: Service, chain: nat)
    requires Reachable(cfg, s)
    ensures OnlySender(s.ver.sends, s.ver.window + 1, chain)
  {
    ReachableOk(cfg, s);
    hide Reachable, OnlySender;
    forall c: nat, w: nat | w >= s.ver.window + 1 ensures SendCount(s.ver.sends, c, w) == 0 {
      assert CountOk(cfg, s.ver, c, w);
    }
    NothingAhead(s.ver.sends, s.ver.window + 1, chain);
  }

  /** A chain that begins while nothing is pending. */
  lemma BeginsAlone(a: Requests, b: Requests)
    requires Begins(a, b) && a.tokens == {} && OnlySender(a.sends, a.window + 1, a.chains)
    ensures OnlyChain(b.tokens, a.chains) && OnlySender(b.sends, a.window + 1, a.chains)
  {
  }

  /** As long as no other handler is created, the chain stays alone. */
  lemma {:induction false} StaysAlone(cfg: Config, s: Service, chain: nat, window: nat, later: seq<Event>)
    requires OnlyChain(s.ver.tokens, chain) && OnlySender(s.ver.sends, window, chain)
    ensures var end := RunFrom(cfg, s, later);
            end.Some? ==>
              && s.ver.chains <= end.value.ver.chains
              && (end.value.ver.chains == s.ver.chains ==>
                    OnlyChain(end.value.ver.tokens, chain) && OnlySender(end.value.ver.sends, window, chain))
    decreases |later|
  {
    hide Step, Enabled;
    if |later| > 0 {
      var before, last := later[..|later| - 1], later[|later| - 1];
      StaysAlone(cfg, s, chain, window, before);
      match RunFrom(cfg, s, before) {
        case None =>
        case Some(t) => if Enabled(cfg, t, last) { StepAdvances(cfg, t, last); }
      }
    }
  }

  /** A run after e during which no further control handler is created. */
  ghost predicate SameHandler(cfg: Config, s: Service, e: Event, later: seq<Event>)
    requires Enabled(cfg, s, e)
  {
    var end := RunFrom(cfg, Step(cfg, s, e), later);
    end.Some? && end.value.ver.chains == Step(cfg, s, e).ver.chains
  }

  /** A dead chain never comes back: after any run the pending chains were pending before, or
      were begun by a handler created since. */
  lemma {:induction false} DeadChainsStayDead(cfg: Config, s: Service, later: seq<Event>)
    ensures var end := RunFrom(cfg, s, later);
            end.Some? ==>
              && s.ver.chains <= end.value.ver.chains
              && forall u :: u in end.value.ver.tokens ==> u.chain >= s.ver.chains || Pending(s.ver.tokens, u.chain)
  {
    hide Step, Enabled;
    if |later| == 0 {
      forall u | u in s.ver.tokens ensures Pending(s.ver.tokens, u.chain) {}
    } else {
      var before, last := later[..|later| - 1], later[|later| - 1];
      DeadChainsStayDead(cfg, s, before);
      match RunFrom(cfg, s, before) {
        case None =>
        case Some(t) => if Enabled(cfg, t, last) { StepAdvances(cfg, t, last); }
      }
    }
  }

  /** If no further control handler is created in the run after e, at most one request is pending. */
  ghost predicate SingleAfter(cfg: Config, s: Service, e: Event, later: seq<Event>)
    requires Enabled(cfg, s, e)
  {
    SameHandler(cfg, s, e, later) ==> AtMostOne(RunFrom(cfg, Step(cfg, s, e), later).value.ver.tokens)
  }

  lemma FoundNoneStaysSingle(cfg: Config, s: Service, e: Event, later: seq<Event>)
    requires Reachable(cfg, s) && Enabled(cfg, s, e) && Step(cfg, s, e).ver.chains > s.ver.chains && s.ver.tokens == {}
    ensures SingleAfter(cfg, s, e, later)
  {
    hide Step, Enabled, Reachable, OnlyChain, OnlySender, AtMostOne, Begins, RunFrom;
    NewChainBegins(cfg, s, e);
    var t := Step(cfg, s, e);
    NothingSentAhead(cfg, s, s.ver.chains);
    BeginsAlone(s.ver, t.ver);
    StepIsReachable(cfg, s, e);
    StaysAlone(cfg, t, s.ver.chains, s.ver.window + 1, later);
    RunStaysReachable(cfg, t, later);
    if SameHandler(cfg, s, e, later) {
      OneChainOneToken(cfg, RunFrom(cfg, t, later).value, s.ver.chains);
    }
  }

  lemma FoundSomeIsNotSingle(cfg: Config, s: Service, e: Event)
    requires Reachable(cfg, s) && Enabled(cfg, s, e) && Step(cfg, s, e).ver.chains > s.ver.chains && s.ver.tokens != {}
    ensures !SingleAfter(cfg, s, e, [])
  {
    hide Step, Enabled, Reachable, AtMostOne, Begins;
    NewChainBegins(cfg, s, e);
    TwoPending(cfg, s, Step(cfg, s, e));
  }

  /** Between two creations of a control handler at most one request or retry is pending, however
      the run goes on, if and only if the first creation found none. */
  lemma SingleChainIff(cfg: Config, s: Service, e: Event)
    requires Reachable(cfg, s) && Enabled(cfg, s, e) && Step(cfg, s, e).ver.chains > s.ver.chains
    ensures s.ver.tokens == {} <==> forall later :: SingleAfter(cfg, s, e, later)
  {
    hide Step, Enabled, Reachable, SingleAfter;
    if s.ver.tokens == {} {
      forall later ensures SingleAfter(cfg, s, e, later) {
        FoundNoneStaysSingle(cfg, s, e, later);
      }
    } else {
      FoundSomeIsNotSingle(cfg, s, e);
    }
  }

  lemma OneChainOneToken(cfg: Config, s: Service, chain: nat)
    requires Reachable(cfg, s) && OnlyChain(s.ver.tokens, chain)
    ensures AtMostOne(s.ver.tokens)
  {
    ReachableOk(cfg, s);
  }

  lemma TwoPending(cfg: Config, s: Service, t: Service)
    requires Reachable(cfg, s) && Begins(s.ver, t.ver) && s.ver.tokens != {}
    ensures !AtMostOne(t.ver.tokens)
  {
    ReachableOk(cfg, s);
    var u: Token :| u.chain == s.ver.chains && t.ver.tokens == s.ver.tokens + {u};
    var earlier :| earlier in s.ver.tokens;
    assert TokenOk(s.ver, earlier) && earlier in t.ver.tokens && u in t.ver.tokens;
  }

  /** The same at the moment of creation. */
  lemma NewChainIsAloneIff(cfg: Config, s: Service, delay: nat)
    requires Reachable(cfg, s) && s.control && !s.handler
    ensures AtMostOne(StartRequests(cfg, s, delay).ver.tokens) <==> s.ver.tokens == {}
  {
    hide StartRequests, Reachable;
    StartRequestsAdvances(cfg, s, delay);
    if s.ver.tokens != {} {
      TwoPending(cfg, s, StartRequests(cfg, s, delay));
    }
  }

  /** In each of its windows such a connection sends at most W/250 + 1 requests. */
  lemma ConnectionSendsFew(cfg: Config, s: Service, e: Event, later: seq<Event>, window: nat)
    requires Reachable(cfg, s) && Enabled(cfg, s, e) && Step(cfg, s, e).ver.chains > s.ver.chains && s.ver.tokens == {}
    requires SameHandler(cfg, s, e, later) && window > s.ver.window
    ensures TotalSends(RunFrom(cfg, Step(cfg, s, e), later).value.ver.sends, window) <= cfg.recoveryWindowMs / 250 + 1
  {
    hide Step, Enabled, Reachable, OnlyChain, OnlySender, TotalSends, Continues, RunFrom;
    NewChainBegins(cfg, s, e);
    var t := Step(cfg, s, e);
    NothingSentAhead(cfg, s, s.ver.chains);
    BeginsAlone(s.ver, t.ver);
    StepIsReachable(cfg, s, e);
    StaysAlone(cfg, t, s.ver.chains, s.ver.window + 1, later);
    RunStaysReachable(cfg, t, later);
    var end := RunFrom(cfg, t, later).value;
    LoneSenderSendsFew(cfg, end, s.ver.chains, s.ver.window + 1, window);
  }

  lemma NewChainBegins(cfg: Config, s: Service, e: Event)
    requires Enabled(cfg, s, e) && Step(cfg, s, e).ver.chains > s.ver.chains
    ensures Begins(s.ver, Step(cfg, s, e).ver)
  {
    hide Step, Enabled;
    StepAdvances(cfg, s, e);
  }

  lemma LoneSenderSendsFew(cfg: Config, s: Service, chain: nat, first: nat, window: nat)
    requires Reachable(cfg, s) && OnlySender(s.ver.sends, first, chain) && window >= first
    ensures TotalSends(s.ver.sends, window) <= cfg.recoveryWindowMs / 250 + 1
  {
    hide Reachable, OnlySender, TotalSends, SendCount;
    TotalOfOne(s.ver.sends, first, chain, window);
    RequestsAreBounded(cfg, s, chain);
  }

  /** The first-request time is reset only by a version response, with the loss of the control
      channel, or by a new control handler. */
  lemma WindowEndsOnlyBy(cfg: Config, s: Service, e: Event)
    requires Enabled(cfg, s, e)
    ensures var t := Step(cfg, s, e);
            t.ver.window != s.ver.window ==> IsVersionResponse(e) || !t.control || t.ver.chains > s.ver.chains
  {
    hide Step, Enabled;
    StepAdvances(cfg, s, e);
  }
}
