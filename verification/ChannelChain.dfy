/**
  The V5 channel chain: a retry loop inside a failover loop over an ordered endpoint list,
  against a moving clock. The nested loops of `Complete` are proved to follow a flat
  call-by-call rule, and the guarantees are proved of that rule. Times are seconds.
 */
module ChannelChain {
  import opened Wrappers

  const MAX_ATTEMPTS_PER_ENDPOINT := 2
  const PER_ATTEMPT_DEADLINE_SECONDS := 90.0
  const RETRY_BACKOFF_SECONDS := 1.0
  const MIN_RETRY_WINDOW_SECONDS := 1.0

  datatype Category =
    | RateLimited | HttpError | DeadlineExceeded | TransportError
    | InvalidResponse | InvalidOutputJson | ModelIdentityMismatch | ForbiddenReasoning

  datatype Outcome =
    | Success(body: string, attempts: nat, endpointHost: Option<string>)
    | Failure(body: string, category: Category, httpStatus: Option<nat>, attempts: nat, endpointHost: Option<string>)

  /** A delegate's reply to one call and the clock when it arrives. */
  datatype Reply = Reply(outcome: Outcome, finishedAt: real)

  /** What the network would answer: call number, host, start and deadline decide the reply. */
  type Network = (nat, string, real, real) -> Reply

  /** One contact: endpoint index, first or second try, and the pause after it. */
  datatype Contact = Contact(
    host: nat, try_: nat, startedAt: real, deadline: real, outcome: Outcome, finishedAt: real, pause: real)

  function Min(a: real, b: real): real {
    if a <= b then a else b
  }

  function Max(a: real, b: real): real {
    if a <= b then b else a
  }

  function StampAttempt(outcome: Outcome, attempts: nat, host: string): Outcome {
    outcome.(attempts := attempts, endpointHost := Some(host))
  }

  predicate ServerError(o: Outcome) {
    o.Failure? && o.httpStatus.Some? && o.httpStatus.value >= 500
  }

  predicate Retryable(o: Outcome) {
    o.Failure? && (o.category == TransportError || o.category == DeadlineExceeded || ServerError(o))
  }

  predicate Failover(o: Outcome) {
    o.Failure? && o.category == RateLimited && !Retryable(o)
  }

  function AttemptDeadline(now: real, deadline: real): real {
    Min(now + PER_ATTEMPT_DEADLINE_SECONDS, deadline)
  }

  predicate WindowOpen(now: real, deadline: real) {
    deadline - now >= MIN_RETRY_WINDOW_SECONDS
  }

  /** Back-off after a failure that may be retried: only server errors wait, and never into the last second. */
  function Backoff(o: Outcome, now: real, deadline: real): real {
    if ServerError(o) then Min(RETRY_BACKOFF_SECONDS, deadline - now - MIN_RETRY_WINDOW_SECONDS) else 0.0
  }

  datatype Move = Stop(pause: real) | SameHost(pause: real) | NextHost(pause: real)

  /** What follows one outcome: the flat rule behind the two loops. */
  function After(hosts: nat, deadline: real, host: nat, try_: nat, o: Outcome, now: real): Move {
    if (Retryable(o) || Failover(o)) && WindowOpen(now, deadline) then
      var pause := if Retryable(o) then Backoff(o, now, deadline) else 0.0;
      if Retryable(o) && try_ + 1 < MAX_ATTEMPTS_PER_ENDPOINT then SameHost(pause)
      else if host + 1 < hosts then NextHost(pause)
      else Stop(pause)
    else Stop(0.0)
  }

  function MoveAfter(chain: seq<string>, deadline: real, c: Contact): Move {
    After(|chain|, deadline, c.host, c.try_, c.outcome, c.finishedAt)
  }

  predicate MadeAs(chain: seq<string>, network: Network, deadline: real, k: nat, c: Contact) {
    && c.host < |chain|
    && c.deadline == AttemptDeadline(c.startedAt, deadline)
    && Reply(c.outcome, c.finishedAt) == network(k, chain[c.host], c.startedAt, c.deadline)
    && c.pause == MoveAfter(chain, deadline, c).pause
  }

  /** The next contact begins where the previous one's move and pause put it. */
  predicate Leads(chain: seq<string>, deadline: real, a: Contact, b: Contact) {
    && b.startedAt == a.finishedAt + a.pause
    && match MoveAfter(chain, deadline, a)
       case Stop(_) => false
       case SameHost(_) => b.host == a.host && b.try_ == a.try_ + 1
       case NextHost(_) => b.host == a.host + 1 && b.try_ == 0
  }

  /** A legal beginning of a run that starts at `start`. */
  ghost predicate Legal(chain: seq<string>, network: Network, deadline: real, start: real, log: seq<Contact>) {
    && (log != [] ==> log[0].host == 0 && log[0].try_ == 0 && log[0].startedAt == start)
    && (forall k | 0 <= k < |log| :: MadeAs(chain, network, deadline, k, log[k]))
    && (forall k | 0 < k < |log| :: Leads(chain, deadline, log[k - 1], log[k]))
  }

  lemma LegalStep(chain: seq<string>, network: Network, deadline: real, start: real, log: seq<Contact>, c: Contact)
    requires Legal(chain, network, deadline, start, log)
    requires MadeAs(chain, network, deadline, |log|, c)
    requires if log == [] then c.host == 0 && c.try_ == 0 && c.startedAt == start
             else Leads(chain, deadline, log[|log| - 1], c)
    ensures Legal(chain, network, deadline, start, log + [c])
  {
  }

  /** What the caller gets: the last outcome, stamped with the number of calls and the last host. */
  predicate Reported(chain: seq<string>, log: seq<Contact>, outcome: Outcome)
    requires log != [] && log[|log| - 1].host < |chain|
  {
    outcome == StampAttempt(log[|log| - 1].outcome, |log|, chain[log[|log| - 1].host])
  }

  /**
    `complete`. The constructor refuses an empty endpoint list, so the chain has a head.
    The contacts are those the flat rule dictates, to its end, and nothing else is contacted.
   */
  method Complete(chain: seq<string>, network: Network, deadline: real, start: real)
    returns (outcome: Outcome, log: seq<Contact>, finish: real)
    requires chain != []
    ensures log != [] && Legal(chain, network, deadline, start, log)
    ensures MoveAfter(chain, deadline, log[|log| - 1]).Stop?
    ensures finish == log[|log| - 1].finishedAt + log[|log| - 1].pause
    ensures Reported(chain, log, outcome)
  {
    var attempts := 0;
    var now := start;
    var lastOutcome := None;
    var endpointHost := chain[0];
    log := [];
    for h := 0 to |chain|
      invariant Legal(chain, network, deadline, start, log) && attempts == |log|
      invariant h == 0 <==> log == []
      invariant log == [] ==> now == start
      invariant log != [] ==>
        var c := log[|log| - 1];
        && c.host == h - 1 && now == c.finishedAt + c.pause
        && lastOutcome == Some(c.outcome) && endpointHost == chain[c.host]
        && if h < |chain| then MoveAfter(chain, deadline, c).NextHost? else MoveAfter(chain, deadline, c).Stop?
    {
      var t := 0;
      var open := true;
      while t < MAX_ATTEMPTS_PER_ENDPOINT && open
        invariant 0 <= t <= MAX_ATTEMPTS_PER_ENDPOINT
        invariant Legal(chain, network, deadline, start, log) && attempts == |log|
        invariant t == 0 ==> open && (log == [] <==> h == 0) && (log == [] ==> now == start)
        invariant t == 0 && log != [] ==>
          var c := log[|log| - 1];
          now == c.finishedAt + c.pause && c.host == h - 1 && MoveAfter(chain, deadline, c).NextHost?
        invariant t > 0 ==>
          && log != []
          && var c := log[|log| - 1];
             && c.host == h && c.try_ == t - 1 && now == c.finishedAt + c.pause
             && lastOutcome == Some(c.outcome) && endpointHost == chain[h]
             && (Retryable(c.outcome) || Failover(c.outcome))
             && (open ==> Retryable(c.outcome) && WindowOpen(c.finishedAt, deadline))
             && (!open ==> Failover(c.outcome) || !WindowOpen(c.finishedAt, deadline))
        decreases MAX_ATTEMPTS_PER_ENDPOINT - t, open
      {
        attempts := attempts + 1;
        endpointHost := chain[h];
        var attemptDeadline := AttemptDeadline(now, deadline);
        var reply := network(|log|, endpointHost, now, attemptDeadline);
        var startedAt := now;
        now := reply.finishedAt;
        ghost var pause := After(|chain|, deadline, h, t, reply.outcome, now).pause;
        ghost var contact := Contact(h, t, startedAt, attemptDeadline, reply.outcome, now, pause);
        LegalStep(chain, network, deadline, start, log, contact);
        if reply.outcome.Success? {
          log := log + [Contact(h, t, startedAt, attemptDeadline, reply.outcome, now, 0.0)];
          outcome := StampAttempt(reply.outcome, attempts, endpointHost);
          return outcome, log, now;
        }
        lastOutcome := Some(reply.outcome);
        if Retryable(reply.outcome) {
          if deadline - now < MIN_RETRY_WINDOW_SECONDS {
            log := log + [Contact(h, t, startedAt, attemptDeadline, reply.outcome, now, 0.0)];
            open := false;
          } else {
            var slept := 0.0;
            if reply.outcome.httpStatus.Some? && reply.outcome.httpStatus.value >= 500 {
              slept := Min(RETRY_BACKOFF_SECONDS, deadline - now - MIN_RETRY_WINDOW_SECONDS);
            }
            log := log + [Contact(h, t, startedAt, attemptDeadline, reply.outcome, now, slept)];
            now := now + slept;
          }
        } else if reply.outcome.category == RateLimited {
          log := log + [Contact(h, t, startedAt, attemptDeadline, reply.outcome, now, 0.0)];
          open := false;
        } else {
          log := log + [Contact(h, t, startedAt, attemptDeadline, reply.outcome, now, 0.0)];
          outcome := StampAttempt(reply.outcome, attempts, endpointHost);
          return outcome, log, now;
        }
        t := t + 1;
      }
      if deadline - now < MIN_RETRY_WINDOW_SECONDS {
        break;
      }
    }
    outcome := StampAttempt(lastOutcome.value, attempts, endpointHost);
    finish := now;
  }

  lemma {:induction false} LegalRunsAgree(
    chain: seq<string>, network: Network, deadline: real, start: real, a: seq<Contact>, b: seq<Contact>, k: nat)
    requires Legal(chain, network, deadline, start, a) && Legal(chain, network, deadline, start, b)
    requires k < |a| && k < |b|
    ensures a[k] == b[k]
  {
    assert MadeAs(chain, network, deadline, k, a[k]) && MadeAs(chain, network, deadline, k, b[k]);
    if k > 0 {
      LegalRunsAgree(chain, network, deadline, start, a, b, k - 1);
      assert Leads(chain, deadline, a[k - 1], a[k]) && Leads(chain, deadline, b[k - 1], b[k]);
    }
  }

  lemma OnlyTheLastStops(chain: seq<string>, network: Network, deadline: real, start: real, log: seq<Contact>, k: nat)
    requires Legal(chain, network, deadline, start, log)
    ensures 0 < k < |log| ==> !MoveAfter(chain, deadline, log[k - 1]).Stop?
  {
    if 0 < k < |log| { assert Leads(chain, deadline, log[k - 1], log[k]); }
  }

  /** The rule leaves no choice: there is one finished run, so `Complete` has one possible log. */
  lemma OneFinishedRun(
    chain: seq<string>, network: Network, deadline: real, start: real, a: seq<Contact>, b: seq<Contact>)
    requires Legal(chain, network, deadline, start, a) && Legal(chain, network, deadline, start, b)
    requires a != [] && MoveAfter(chain, deadline, a[|a| - 1]).Stop?
    requires b != [] && MoveAfter(chain, deadline, b[|b| - 1]).Stop?
    ensures a == b
  {
    forall k | 0 <= k < |a| && k < |b| ensures a[k] == b[k] {
      LegalRunsAgree(chain, network, deadline, start, a, b, k);
    }
    OnlyTheLastStops(chain, network, deadline, start, b, |a|);
    OnlyTheLastStops(chain, network, deadline, start, a, |b|);
  }

  // ---------------------------------------------------------------- timing

  /** Delegates return by their deadline, or at once when it has already passed. */
  ghost predicate Punctual(network: Network) {
    forall k, host, t, d :: t <= network(k, host, t, d).finishedAt <= Max(t, d)
  }

  /** After the first, every call starts with the whole minimum window left; every pause is at most a second. */
  lemma CallsKeepTheWindow(chain: seq<string>, network: Network, deadline: real, start: real, log: seq<Contact>, k: nat)
    requires Legal(chain, network, deadline, start, log) && k < |log|
    ensures k > 0 ==> WindowOpen(log[k].startedAt, deadline)
    ensures 0.0 <= log[k].pause <= RETRY_BACKOFF_SECONDS
    ensures log[k].deadline == Min(log[k].startedAt + 90.0, deadline)
  {
    if k > 0 {
      assert Leads(chain, deadline, log[k - 1], log[k]) && MadeAs(chain, network, deadline, k - 1, log[k - 1]);
    }
    assert MadeAs(chain, network, deadline, k, log[k]);
  }

  lemma {:induction false} ContactsEndInTime(
    chain: seq<string>, network: Network, deadline: real, start: real, log: seq<Contact>, k: nat)
    requires Legal(chain, network, deadline, start, log) && Punctual(network) && k < |log|
    ensures start <= log[k].startedAt <= log[k].finishedAt
    ensures log[k].finishedAt + log[k].pause <= Max(start, deadline)
  {
    var c := log[k];
    assert MadeAs(chain, network, deadline, k, c);
    CallsKeepTheWindow(chain, network, deadline, start, log, k);
    if k > 0 {
      ContactsEndInTime(chain, network, deadline, start, log, k - 1);
      CallsKeepTheWindow(chain, network, deadline, start, log, k - 1);
      assert Leads(chain, deadline, log[k - 1], c);
    }
    var reply := network(k, chain[c.host], c.startedAt, c.deadline);
    assert c.startedAt <= reply.finishedAt <= Max(c.startedAt, c.deadline);
  }

  // ---------------------------------------------------------------- shape

  lemma {:induction false} PositionBounds(
    chain: seq<string>, network: Network, deadline: real, start: real, log: seq<Contact>, k: nat)
    requires Legal(chain, network, deadline, start, log) && k < |log|
    ensures log[k].host < |chain| && log[k].try_ < MAX_ATTEMPTS_PER_ENDPOINT
    ensures k <= 2 * log[k].host + log[k].try_
  {
    assert MadeAs(chain, network, deadline, k, log[k]);
    if k > 0 {
      PositionBounds(chain, network, deadline, start, log, k - 1);
      assert Leads(chain, deadline, log[k - 1], log[k]);
    }
  }

  /**
    The contacted hosts run through a prefix of the list in order, none skipped: first host
    first, and each next contact is either the second try of the same host, after a retryable
    failure, or the first try of the next host. Success and hard failure end the run.
   */
  lemma ContactOrder(chain: seq<string>, network: Network, deadline: real, start: real, log: seq<Contact>, k: nat)
    requires Legal(chain, network, deadline, start, log) && 0 < k < |log|
    ensures log[0].host == 0 && log[0].try_ == 0
    ensures Retryable(log[k - 1].outcome) || Failover(log[k - 1].outcome)
    ensures (log[k].host, log[k].try_) ==
      if log[k - 1].try_ == 0 && Retryable(log[k - 1].outcome) then (log[k - 1].host, 1) else (log[k - 1].host + 1, 0)
  {
    PositionBounds(chain, network, deadline, start, log, k - 1);
    assert Leads(chain, deadline, log[k - 1], log[k]);
  }

  /** The number of calls is what the outcome says, between one and two per endpoint. */
  lemma AttemptsAreCounted(
    chain: seq<string>, network: Network, deadline: real, start: real, log: seq<Contact>, outcome: Outcome)
    requires Legal(chain, network, deadline, start, log) && log != []
    requires log[|log| - 1].host < |chain| && Reported(chain, log, outcome)
    ensures 1 <= outcome.attempts == |log| <= 2 * |chain|
    ensures outcome.endpointHost == Some(chain[log[|log| - 1].host])
    ensures outcome.(attempts := 0, endpointHost := None)
      == log[|log| - 1].outcome.(attempts := 0, endpointHost := None)
  {
    PositionBounds(chain, network, deadline, start, log, |log| - 1);
  }

  /** A finished run stopped for one of four reasons, and only for them. */
  lemma WhyItStopped(chain: seq<string>, network: Network, deadline: real, start: real, log: seq<Contact>)
    requires Legal(chain, network, deadline, start, log) && log != []
    ensures var c := log[|log| - 1];
      MoveAfter(chain, deadline, c).Stop? <==>
      || c.outcome.Success?
      || (!Retryable(c.outcome) && c.outcome.category != RateLimited)
      || !WindowOpen(c.finishedAt, deadline)
      || (c.host == |chain| - 1 && (c.try_ == 1 || !Retryable(c.outcome)))
  {
    PositionBounds(chain, network, deadline, start, log, |log| - 1);
  }

  lemma {:induction false} HostsAreContiguous(
    chain: seq<string>, network: Network, deadline: real, start: real, log: seq<Contact>, k: nat, h: nat)
    requires Legal(chain, network, deadline, start, log) && k < |log| && h <= log[k].host
    ensures exists j | 0 <= j <= k :: log[j].host == h
  {
    if h < log[k].host {
      assert k > 0;
      assert Leads(chain, deadline, log[k - 1], log[k]);
      HostsAreContiguous(chain, network, deadline, start, log, k - 1, h);
    }
  }

  /**
    A run that ends in a failure it might still have gone on after, with time left, has tried
    every endpoint of the list.
   */
  lemma GivesUpOnlyAfterEveryHost(
    chain: seq<string>, network: Network, deadline: real, start: real, log: seq<Contact>, h: nat)
    requires Legal(chain, network, deadline, start, log) && log != [] && h < |chain|
    requires MoveAfter(chain, deadline, log[|log| - 1]).Stop?
    requires var last := log[|log| - 1];
      && last.outcome.Failure? && deadline - last.finishedAt >= 1.0
      && (last.outcome.category in {TransportError, DeadlineExceeded, RateLimited}
          || (last.outcome.httpStatus.Some? && last.outcome.httpStatus.value >= 500))
    ensures exists j | 0 <= j < |log| :: log[j].host == h
    ensures |log| >= |chain|
  {
    WhyItStopped(chain, network, deadline, start, log);
    HostsAreContiguous(chain, network, deadline, start, log, |log| - 1, h);
    HostNumberBounds(chain, network, deadline, start, log, |log| - 1);
  }

  lemma {:induction false} HostNumberBounds(
    chain: seq<string>, network: Network, deadline: real, start: real, log: seq<Contact>, k: nat)
    requires Legal(chain, network, deadline, start, log) && k < |log|
    ensures log[k].host <= k
  {
    if k > 0 {
      HostNumberBounds(chain, network, deadline, start, log, k - 1);
      assert Leads(chain, deadline, log[k - 1], log[k]);
    }
  }

  /**
    What follows contact `k` of a finished run. The same host is tried again exactly after a first
    try with at least a second left that failed in transport, on its deadline or with status 500 or
    more; the next host exactly after such a second try or a rate limit, while there is one. Before
    that the chain pauses only after status 500 or more: one second, or what leaves one second over.
   */
  lemma WhatFollows(
    chain: seq<string>, network: Network, deadline: real, start: real, log: seq<Contact>, k: nat)
    requires Legal(chain, network, deadline, start, log) && k < |log|
    requires MoveAfter(chain, deadline, log[|log| - 1]).Stop?
    ensures var c := log[k];
      var left := deadline - c.finishedAt;
      var broken := c.outcome.Failure? && c.outcome.httpStatus.Some? && c.outcome.httpStatus.value >= 500;
      var passing := c.outcome.Failure?
        && (c.outcome.category == TransportError || c.outcome.category == DeadlineExceeded || broken);
      var limited := c.outcome.Failure? && c.outcome.category == RateLimited && !passing;
      && (k + 1 < |log| && log[k + 1].host == c.host <==> c.try_ == 0 && left >= 1.0 && passing)
      && (k + 1 < |log| && log[k + 1].host == c.host + 1 <==>
          c.host + 1 < |chain| && left >= 1.0 && (limited || (passing && c.try_ == 1)))
      && (k + 1 < |log| ==>
          && (log[k + 1].host == c.host || log[k + 1].host == c.host + 1)
          && log[k + 1].try_ == (if log[k + 1].host == c.host then 1 else 0)
          && log[k + 1].startedAt == c.finishedAt + c.pause)
      && c.pause == if broken && left >= 1.0 then (if left - 1.0 < 1.0 then left - 1.0 else 1.0) else 0.0
  {
    PositionBounds(chain, network, deadline, start, log, k);
    assert MadeAs(chain, network, deadline, k, log[k]);
    if k + 1 < |log| {
      assert Leads(chain, deadline, log[k], log[k + 1]);
    }
  }
}
