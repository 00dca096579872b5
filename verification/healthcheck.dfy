/**
 * The readiness gate of modules/healthcheck.ts: `waitForPort` and the bounded
 * polling loop `waitForServices`.
 *
 * A socket connection is not opened here: how each probe ends is given by an
 * oracle `observe(round, port)`, so that probes of different rounds are
 * independent observations. The three probes of one round run concurrently in
 * the source; the model records them as one `Probe` event.
 */
module Healthcheck {
  import opened Common

  /** How one `net.Socket` connection attempt ends. */
  datatype ProbeOutcome = Connected | SocketError | TimedOut

  /** Per-probe socket timeout in milliseconds. */
  const ProbeTimeoutMs := 1000
  /** Default round budget of `waitForServices`. */
  const DefaultAttempts := 30
  /** Default sleep between rounds, in milliseconds. */
  const DefaultInterval := 1000
  /** Port probed for Mongo when `MONGO_PORT` is null. */
  const DefaultMongoPort := 27017

  /** `waitForPort(port)`: resolves true on an established connection; false on a socket error or on the timeout. */
  function WaitForPort(outcome: ProbeOutcome): (ready: bool)
    ensures ready <==> outcome == Connected
    ensures outcome == TimedOut ==> !ready
  {
    match outcome
    case Connected => true
    case SocketError => false
    case TimedOut => false
  }

  /** The configured ports: `REDIS_PORT`, `MONGO_PORT` (nullable) and `MAILHOG_HTTP`. */
  datatype Ports = Ports(redis: int, mongo: Option<int>, mailhog: int)

  /** The ports one round probes, in the order Redis, Mongo, MailHog. */
  function RoundTargets(p: Ports): (targets: seq<int>)
    ensures |targets| == 3
  {
    [p.redis, p.mongo.GetOr(DefaultMongoPort), p.mailhog]
  }

  /** The Mongo probe targets `MONGO_PORT`, or 27017 when it is null. */
  lemma MongoTarget(p: Ports)
    ensures p.mongo.None? ==> RoundTargets(p)[1] == 27017
    ensures p.mongo.Some? ==> RoundTargets(p)[1] == p.mongo.value
    ensures RoundTargets(p)[0] == p.redis && RoundTargets(p)[2] == p.mailhog
  {
  }

  /** Round `k` passes when its three probes all connect. */
  predicate RoundReady(targets: seq<int>, observe: (nat, int) -> ProbeOutcome, k: nat)
    requires |targets| == 3
  {
    WaitForPort(observe(k, targets[0])) && WaitForPort(observe(k, targets[1])) && WaitForPort(observe(k, targets[2]))
  }

  /** The first passing round in `[i, attempts)`, if any. */
  function SearchFrom(targets: seq<int>, observe: (nat, int) -> ProbeOutcome, i: nat, attempts: int): Option<nat>
    requires |targets| == 3
    decreases attempts - i
  {
    if i >= attempts then None
    else if RoundReady(targets, observe, i) then Some(i)
    else SearchFrom(targets, observe, i + 1, attempts)
  }

  /** The first passing round below the budget, if any. */
  function FirstReadyRound(targets: seq<int>, observe: (nat, int) -> ProbeOutcome, attempts: int): Option<nat>
    requires |targets| == 3
  {
    SearchFrom(targets, observe, 0, attempts)
  }

  lemma {:induction false} SearchFromFinds(targets: seq<int>, observe: (nat, int) -> ProbeOutcome, i: nat, attempts: int)
    requires |targets| == 3
    ensures match SearchFrom(targets, observe, i, attempts)
      case Some(k) =>
        i <= k < attempts && RoundReady(targets, observe, k)
        && forall j :: i <= j < k ==> !RoundReady(targets, observe, j)
      case None => forall j :: i <= j < attempts ==> !RoundReady(targets, observe, j)
    decreases attempts - i
  {
    if i < attempts && !RoundReady(targets, observe, i) {
      SearchFromFinds(targets, observe, i + 1, attempts);
    }
  }

  /** The first passing round is the least round below the budget whose three probes all connect; there is none exactly when no such round exists. */
  lemma FirstReadyRoundIsLeast(targets: seq<int>, observe: (nat, int) -> ProbeOutcome, attempts: int)
    requires |targets| == 3
    ensures match FirstReadyRound(targets, observe, attempts)
      case Some(k) =>
        k < attempts && RoundReady(targets, observe, k)
        && forall j :: 0 <= j < k ==> !RoundReady(targets, observe, j)
      case None => forall j :: 0 <= j < attempts ==> !RoundReady(targets, observe, j)
  {
    SearchFromFinds(targets, observe, 0, attempts);
  }

  /** What the gate does: probe all targets for a round, or sleep. */
  datatype Event = Probe(round: nat, ports: seq<int>) | Sleep(ms: int)

  /** How the gate settles: it returns after a passing round, or throws. */
  datatype WaitResult = Ready(round: nat) | ServicesUnavailable

  /** The events of `k` failing rounds: each one probed and followed by one sleep. */
  function FailedRounds(targets: seq<int>, k: nat, interval: int): seq<Event>
    decreases k
  {
    if k == 0 then [] else FailedRounds(targets, k - 1, interval) + [Probe(k - 1, targets), Sleep(interval)]
  }

  /** Failing rounds probe rounds 0, 1, ..., k-1 in order, each followed by exactly one sleep. */
  lemma {:induction false} FailedRoundsShape(targets: seq<int>, k: nat, interval: int)
    ensures |FailedRounds(targets, k, interval)| == 2 * k
    ensures forall j :: 0 <= j < k ==>
      FailedRounds(targets, k, interval)[2 * j] == Probe(j, targets)
      && FailedRounds(targets, k, interval)[2 * j + 1] == Sleep(interval)
    decreases k
  {
    if k > 0 {
      FailedRoundsShape(targets, k - 1, interval);
    }
  }

  lemma {:induction false} SearchFromSkips(targets: seq<int>, observe: (nat, int) -> ProbeOutcome, i: nat, attempts: int)
    requires |targets| == 3
    requires forall j :: 0 <= j < i ==> !RoundReady(targets, observe, j)
    ensures FirstReadyRound(targets, observe, attempts) == SearchFrom(targets, observe, i, attempts)
    decreases i
  {
    if i > 0 {
      SearchFromSkips(targets, observe, i - 1, attempts);
    }
  }

  /**
   * `waitForServices(attempts = 30, interval = 1000)`: up to `attempts` rounds;
   * returns at the first round whose three probes all connect, sleeping
   * `interval` after every failing round; throws once the budget is spent.
   */
  method WaitForServices(ports: Ports, observe: (nat, int) -> ProbeOutcome, attempts: Option<int>, interval: Option<int>)
    returns (result: WaitResult, trace: seq<Event>)
    ensures var targets := RoundTargets(ports);
      var n := attempts.GetOr(DefaultAttempts);
      var ms := interval.GetOr(DefaultInterval);
      match FirstReadyRound(targets, observe, n)
      case Some(k) => result == Ready(k) && trace == FailedRounds(targets, k, ms) + [Probe(k, targets)]
      case None => result == ServicesUnavailable && trace == FailedRounds(targets, if n < 0 then 0 else n, ms)
  {
    var n := attempts.GetOr(DefaultAttempts);
    var ms := interval.GetOr(DefaultInterval);
    var targets := RoundTargets(ports);
    trace := [];
    var i: nat := 0;
    while i < n
      invariant n >= 0 ==> i <= n
      invariant n < 0 ==> i == 0
      invariant trace == FailedRounds(targets, i, ms)
      invariant forall j :: 0 <= j < i ==> !RoundReady(targets, observe, j)
    {
      trace := trace + [Probe(i, targets)];
      var redisReady := WaitForPort(observe(i, targets[0]));
      var mongoReady := WaitForPort(observe(i, targets[1]));
      var mailhogReady := WaitForPort(observe(i, targets[2]));
      if redisReady && mongoReady && mailhogReady {
        SearchFromSkips(targets, observe, i, n);
        result := Ready(i);
        return;
      }
      trace := trace + [Sleep(ms)];
      i := i + 1;
    }
    SearchFromSkips(targets, observe, i, n);
    result := ServicesUnavailable;
  }

  /** Readiness is judged per round: each probe succeeding in some round does not pass the gate unless one round has all three. */
  lemma PartialReadinessDoesNotCount(p: Ports)
    requires p.mailhog != p.redis && p.mailhog != p.mongo.GetOr(DefaultMongoPort)
    ensures var observe := (k: nat, port: int) => if (k == 0) == (port == p.mailhog) then TimedOut else Connected;
      && WaitForPort(observe(0, p.redis)) && WaitForPort(observe(0, p.mongo.GetOr(DefaultMongoPort)))
      && WaitForPort(observe(1, p.mailhog))
      && FirstReadyRound(RoundTargets(p), observe, 2) == None
  {
  }
}
