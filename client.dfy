/**
 * `ApiClient.request`: the decision procedure run for every API call.
 *
 * It short-circuits when offline, serves truthy cache hits, and otherwise runs
 * a bounded retry loop with capped exponential backoff, writing the parsed
 * result to the cache on success.
 *
 * The environment is a sequence of per-attempt answers: what the network
 * did, whether the browser was online when the failure was handled, and the
 * jitter drawn for the backoff. Side effects on the page and the monitor
 * are returned as a trace of `Effect`s.
 *
 * The abort timer is created once per call and cleared by the first
 * response that arrives, OK or not. A stall while the timer is armed is an
 * `AbortError`. A stall after it was cleared never settles.
 */
module Client {

  import opened Json
  import opened Text
  import opened ApiCaching

  /** The options of one call, after merging with the defaults. A null or empty cache key means no caching. */
  datatype Config = Config(
    cacheKey: Option<string>,
    retries: int,
    retryDelay: int,
    timeout: int,
    forceRefresh: bool,
    background: bool)

  const DefaultConfig: Config := Config(None, 2, 1000, 30000, false, false)

  predicate HasCacheKey(c: Config) {
    c.cacheKey.Some? && c.cacheKey.value != ""
  }

  /** `api_${cacheKey || url}`. */
  function MetricName(c: Config, url: string): string {
    "api_" + (if HasCacheKey(c) then c.cacheKey.value else url)
  }

  /** A response: `json` is what `response.json()` yields for `text`, None when it throws. */
  datatype Response = Response(ok: bool, status: int, contentType: Option<string>, text: string, json: Option<Json>)

  /** What the network does with one attempt; `Stalled` means no response before the call's deadline. */
  datatype NetResult = Responded(response: Response) | NetworkFailure(message: string) | Stalled

  /** The jitter factor in thousandths: `0.8 + Math.random() * 0.4` lies in [0.8, 1.2). */
  type Jitter = j: int | 800 <= j < 1200 witness 800

  datatype AttemptEnv = AttemptEnv(net: NetResult, onlineAfter: bool, jitter: Jitter)

  datatype Failure =
    | Offline
    | HttpError(status: int, body: string)
    | NetworkError(message: string)
    | AbortError
    | ParseError
    | RetriesExhausted

  datatype Outcome = Resolved(data: Json) | Rejected(error: Failure) | NeverSettles

  /**
   * What a call does to the page and the monitor, in order. `Fetch(i)` is
   * attempt `i`, handed to the request queue through `executeRequest`;
   * `Sleep(i, d)` is the backoff of `d` microseconds after attempt `i`.
   */
  datatype Effect =
    | Notify(message: string)
    | ShowLoading(on: bool)
    | StartTiming(name: string)
    | EndTiming(name: string)
    | Fetch(attempt: nat)
    | Sleep(attempt: nat, micros: int)

  const OfflineMessage: string := "Cannot make request while offline"

  /** The cap on one backoff, ten seconds, in microseconds. */
  const MaxDelayMicros: int := 10000 * 1000

  function Pow2(n: nat): (r: nat)
    ensures r >= 1
  {
    if n == 0 then 1 else 2 * Pow2(n - 1)
  }

  /**
   * `min(retryDelay * 2^attempt * jitter, 10000)` milliseconds, in
   * microseconds so that the jitter in thousandths stays exact.
   */
  function DelayMicros(retryDelay: int, attempt: nat, jitter: Jitter): (d: int)
    ensures d <= MaxDelayMicros
    ensures d <= retryDelay * Pow2(attempt) * jitter
    ensures d == MaxDelayMicros || d == retryDelay * Pow2(attempt) * jitter
    ensures retryDelay >= 0 ==> d >= 0
    ensures retryDelay > 0 && d < MaxDelayMicros ==>
      800 * (retryDelay * Pow2(attempt)) <= d < 1200 * (retryDelay * Pow2(attempt))
    ensures retryDelay > 0 && 800 * (retryDelay * Pow2(attempt)) >= MaxDelayMicros ==> d == MaxDelayMicros
  {
    var base := retryDelay * Pow2(attempt);
    ScaleByJitter(retryDelay, Pow2(attempt), jitter);
    var raw := base * jitter;
    if raw < MaxDelayMicros then raw else MaxDelayMicros
  }

  lemma ScaleByJitter(delay: int, factor: nat, j: Jitter)
    requires factor >= 1
    ensures delay > 0 ==> 800 * (delay * factor) <= (delay * factor) * j < 1200 * (delay * factor)
    ensures delay >= 0 ==> (delay * factor) * j >= 0
  {
    var base := delay * factor;
    if delay > 0 {
      assert base >= delay;
      assert base * j - base * 800 == base * (j - 800);
      assert base * 1200 - base * j == base * (1200 - j);
    } else if delay == 0 {
      assert base == 0;
    }
  }

  /** JSON when the content type says so, the text otherwise; None when the JSON does not parse. */
  function ParseBody(r: Response): Option<Json> {
    if r.contentType.Some? && Contains(r.contentType.value, "application/json") then r.json
    else Some(JStr(r.text))
  }

  /** One attempt: the parsed data, a failure with the timer's new state, or a call that never settles. */
  datatype AttemptResult = Got(data: Json) | Failed(error: Failure, armed: bool) | Hangs

  function Attempt(net: NetResult, armed: bool): (r: AttemptResult)
    ensures r.Hangs? <==> net.Stalled? && !armed
    ensures r == Failed(AbortError, true) <==> net.Stalled? && armed
    ensures net.Responded? && r.Failed? ==> !r.armed
    ensures r.Got? ==> net.Responded? && net.response.ok
  {
    match net
    case Stalled => if armed then Failed(AbortError, true) else Hangs
    case NetworkFailure(m) => Failed(NetworkError(m), armed)
    case Responded(resp) =>
      if !resp.ok then Failed(HttpError(resp.status, resp.text), false)
      else
        match ParseBody(resp)
        case Some(d) => Got(d)
        case None => Failed(ParseError, false)
  }

  /** Loading on (unless background), then the timing start. */
  function Opening(c: Config, name: string): seq<Effect> {
    (if !c.background then [ShowLoading(true)] else []) + [StartTiming(name)]
  }

  /** The timing end, then loading off (unless background): both exits run these. */
  function Closing(c: Config, name: string): seq<Effect> {
    [EndTiming(name)] + (if !c.background then [ShowLoading(false)] else [])
  }

  /** The backoff after a failed attempt: none after the last one. */
  function Pause(c: Config, attempt: nat, env: AttemptEnv): seq<Effect> {
    if attempt < c.retries then [Sleep(attempt, DelayMicros(c.retryDelay, attempt, env.jitter))] else []
  }

  datatype LoopResult = LoopResult(outcome: Outcome, effects: seq<Effect>, attempts: nat)

  /**
   * The retry loop from attempt `attempt` on, with the timer `armed`, the
   * last error so far and the trace so far.
   */
  function Loop(
    c: Config, name: string, envs: seq<AttemptEnv>,
    attempt: nat, armed: bool, lastError: Option<Failure>, trace: seq<Effect>): LoopResult
    requires c.retries < |envs|
    decreases c.retries + 1 - attempt
  {
    if attempt > c.retries then
      LoopResult(Rejected(if lastError.Some? then lastError.value else RetriesExhausted), trace + Closing(c, name), attempt)
    else
      var env := envs[attempt];
      var tried := trace + [Fetch(attempt)];
      match Attempt(env.net, armed)
      case Hangs => LoopResult(NeverSettles, tried, attempt + 1)
      case Got(d) => LoopResult(Resolved(d), tried + Closing(c, name), attempt + 1)
      case Failed(e, armed') =>
        if e == AbortError || !env.onlineAfter then
          LoopResult(Rejected(e), tried + Closing(c, name), attempt + 1)
        else
          Loop(c, name, envs, attempt + 1, armed', Some(e), tried + Pause(c, attempt, env))
  }

  datatype RequestResult = RequestResult(outcome: Outcome, effects: seq<Effect>, cache: map<string, Entry>)

  /** The cache-first read: only with a cache key and without `forceRefresh`. */
  function CacheRead(data: map<string, Entry>, maxAge: int, c: Config, readAt: int): Read {
    if HasCacheKey(c) && !c.forceRefresh then Lookup(data, c.cacheKey.value, readAt, maxAge)
    else Read(None, data)
  }

  /** `if (cachedData)`: only a truthy cached value is served. */
  predicate Serves(read: Read) {
    read.result.Some? && JsTruthy(read.result.value)
  }

  /** The whole call, over the cache map and window it finds. */
  function RequestSpec(
    data: map<string, Entry>, maxAge: int, url: string, c: Config,
    online: bool, readAt: int, writeAt: int, envs: seq<AttemptEnv>): RequestResult
    requires c.retries < |envs|
  {
    if !online && !c.background then
      RequestResult(Rejected(Offline), [Notify(OfflineMessage)], data)
    else
      var read := CacheRead(data, maxAge, c, readAt);
      if Serves(read) then
        RequestResult(Resolved(read.result.value), [], read.remaining)
      else
        var name := MetricName(c, url);
        var loop := Loop(c, name, envs, 0, true, None, []);
        var after := if loop.outcome.Resolved? && HasCacheKey(c)
                     then Store(read.remaining, c.cacheKey.value, loop.outcome.data, writeAt)
                     else read.remaining;
        RequestResult(loop.outcome, Opening(c, name) + loop.effects, after)
  }

  /** Whether the call writes the cache, and with it local storage: a success from the network with a cache key. */
  predicate RequestWrites(
    data: map<string, Entry>, maxAge: int, url: string, c: Config,
    online: bool, readAt: int, envs: seq<AttemptEnv>)
    requires c.retries < |envs|
  {
    && (online || c.background)
    && !Serves(CacheRead(data, maxAge, c, readAt))
    && Loop(c, MetricName(c, url), envs, 0, true, None, []).outcome.Resolved?
    && HasCacheKey(c)
  }

  /** The `while` loop of `request`. The cache write on success is done by the caller. */
  method RunAttempts(c: Config, name: string, envs: seq<AttemptEnv>)
    returns (outcome: Outcome, trace: seq<Effect>)
    requires c.retries < |envs|
    ensures var loop := Loop(c, name, envs, 0, true, None, []);
      outcome == loop.outcome && trace == loop.effects
  {
    var attempt: nat := 0;
    var lastError: Option<Failure> := None;
    var armed := true;
    trace := [];
    while attempt <= c.retries
      invariant attempt == 0 || attempt <= c.retries + 1
      invariant Loop(c, name, envs, 0, true, None, []) == Loop(c, name, envs, attempt, armed, lastError, trace)
      decreases c.retries + 1 - attempt
    {
      var env := envs[attempt];
      trace := trace + [Fetch(attempt)];
      match Attempt(env.net, armed)
      case Hangs =>
        return NeverSettles, trace;
      case Got(d) =>
        trace := trace + Closing(c, name);
        return Resolved(d), trace;
      case Failed(e, armed') =>
        lastError := Some(e);
        armed := armed';
        if e == AbortError || !env.onlineAfter {
          // `break`: the code after the loop runs with this error
          trace := trace + Closing(c, name);
          return Rejected(e), trace;
        }
        trace := trace + Pause(c, attempt, env);
        attempt := attempt + 1;
    }
    trace := trace + Closing(c, name);
    outcome := Rejected(if lastError.Some? then lastError.value else RetriesExhausted);
  }

  /**
   * `request(url, options)`. `readAt` is the clock at the cache read and
   * `writeAt` the clock at the cache write.
   */
  method Request(
    cache: ApiCache, url: string, c: Config,
    online: bool, readAt: int, writeAt: int, envs: seq<AttemptEnv>)
    returns (outcome: Outcome, effects: seq<Effect>)
    requires c.retries < |envs|
    modifies cache`data, cache`mirror
    ensures var spec := RequestSpec(old(cache.data), cache.maxAge, url, c, online, readAt, writeAt, envs);
      outcome == spec.outcome && effects == spec.effects && cache.data == spec.cache
    ensures cache.mirror == (if RequestWrites(old(cache.data), cache.maxAge, url, c, online, readAt, envs)
                             then cache.data else old(cache.mirror))
  {
    if !online && !c.background {
      return Rejected(Offline), [Notify(OfflineMessage)];
    }
    if HasCacheKey(c) && !c.forceRefresh {
      var cached := cache.Get(c.cacheKey.value, readAt);
      if cached.Some? && JsTruthy(cached.value) {
        return Resolved(cached.value), [];
      }
    }
    var name := MetricName(c, url);
    var trace;
    outcome, trace := RunAttempts(c, name, envs);
    if outcome.Resolved? && HasCacheKey(c) {
      cache.Set(c.cacheKey.value, outcome.data, writeAt);
    }
    effects := Opening(c, name) + trace;
  }

  // ---------------------------------------------------------------------
  // Counting views of a trace
  // ---------------------------------------------------------------------

  /** The number of attempts a trace records. */
  function Fetches(effects: seq<Effect>): nat
    decreases |effects|
  {
    if effects == [] then 0 else (if effects[0].Fetch? then 1 else 0) + Fetches(effects[1..])
  }

  /** The loading signals a trace sends, in order. */
  function Signals(effects: seq<Effect>): seq<bool>
    decreases |effects|
  {
    if effects == [] then [] else (if effects[0].ShowLoading? then [effects[0].on] else []) + Signals(effects[1..])
  }

  lemma {:induction false} CountsAppend(a: seq<Effect>, b: seq<Effect>)
    ensures Fetches(a + b) == Fetches(a) + Fetches(b)
    ensures Signals(a + b) == Signals(a) + Signals(b)
    decreases |a|
  {
    if a == [] {
      assert a + b == b;
    } else {
      assert (a + b)[0] == a[0];
      assert (a + b)[1..] == a[1..] + b;
      CountsAppend(a[1..], b);
    }
  }

  lemma CountsOfOne(x: Effect)
    ensures Fetches([x]) == (if x.Fetch? then 1 else 0)
    ensures Signals([x]) == (if x.ShowLoading? then [x.on] else [])
  {
    assert [x][1..] == [];
  }

  /** The pieces around the attempts record no attempt and send loading only in the opening and closing. */
  lemma QuietPieces(c: Config, name: string, attempt: nat, env: AttemptEnv)
    ensures Fetches(Opening(c, name)) == 0 && Fetches(Closing(c, name)) == 0 && Fetches(Pause(c, attempt, env)) == 0
    ensures Signals(Opening(c, name)) == (if c.background then [] else [true])
    ensures Signals(Closing(c, name)) == (if c.background then [] else [false])
    ensures Signals(Pause(c, attempt, env)) == []
    ensures Fetches([Fetch(attempt)]) == 1 && Signals([Fetch(attempt)]) == []
    ensures forall k :: 0 <= k < |Opening(c, name)| ==> !Opening(c, name)[k].Sleep?
    ensures forall k :: 0 <= k < |Closing(c, name)| ==> !Closing(c, name)[k].Sleep?
  {
    CountsOfOne(Fetch(attempt));
    CountsOfOne(StartTiming(name));
    CountsOfOne(EndTiming(name));
    if !c.background {
      CountsOfOne(ShowLoading(true));
      CountsOfOne(ShowLoading(false));
      CountsAppend([ShowLoading(true)], [StartTiming(name)]);
      CountsAppend([EndTiming(name)], [ShowLoading(false)]);
    } else {
      assert Opening(c, name) == [StartTiming(name)];
      assert Closing(c, name) == [EndTiming(name)];
    }
    if attempt < c.retries {
      CountsOfOne(Sleep(attempt, DelayMicros(c.retryDelay, attempt, env.jitter)));
    }
  }

  // ---------------------------------------------------------------------
  // The retry loop
  // ---------------------------------------------------------------------

  /** The trace handed to the loop is kept as a prefix; outcome and attempt count do not depend on it. */
  lemma {:induction false} LoopFrame(
    c: Config, name: string, envs: seq<AttemptEnv>,
    attempt: nat, armed: bool, lastError: Option<Failure>, trace: seq<Effect>)
    requires c.retries < |envs|
    ensures var r := Loop(c, name, envs, attempt, armed, lastError, trace);
      var r0 := Loop(c, name, envs, attempt, armed, lastError, []);
      r.outcome == r0.outcome && r.attempts == r0.attempts && r.effects == trace + r0.effects
    decreases c.retries + 1 - attempt
  {
    if attempt > c.retries {
      assert [] + Closing(c, name) == Closing(c, name);
    } else {
      var env := envs[attempt];
      assert [] + [Fetch(attempt)] == [Fetch(attempt)];
      match Attempt(env.net, armed)
      case Hangs =>
      case Got(_) =>
        assert trace + [Fetch(attempt)] + Closing(c, name) == trace + ([Fetch(attempt)] + Closing(c, name));
      case Failed(e, armed') =>
        if e == AbortError || !env.onlineAfter {
          assert trace + [Fetch(attempt)] + Closing(c, name) == trace + ([Fetch(attempt)] + Closing(c, name));
        } else {
          var piece := [Fetch(attempt)] + Pause(c, attempt, env);
          LoopFrame(c, name, envs, attempt + 1, armed', Some(e), trace + [Fetch(attempt)] + Pause(c, attempt, env));
          LoopFrame(c, name, envs, attempt + 1, armed', Some(e), [] + [Fetch(attempt)] + Pause(c, attempt, env));
          var rest := Loop(c, name, envs, attempt + 1, armed', Some(e), []).effects;
          assert trace + [Fetch(attempt)] + Pause(c, attempt, env) == trace + piece;
          assert (trace + piece) + rest == trace + (piece + rest);
        }
    }
  }

  /** An attempt that fails without stopping the loop: its fetch and pause, then the rest of the loop. */
  lemma LoopContinues(c: Config, name: string, envs: seq<AttemptEnv>, attempt: nat, armed: bool, lastError: Option<Failure>)
    requires c.retries < |envs| && attempt <= c.retries
    requires Attempt(envs[attempt].net, armed).Failed?
    requires Attempt(envs[attempt].net, armed).error != AbortError && envs[attempt].onlineAfter
    ensures var step := Attempt(envs[attempt].net, armed);
      var r := Loop(c, name, envs, attempt, armed, lastError, []);
      var rest := Loop(c, name, envs, attempt + 1, step.armed, Some(step.error), []);
      r.outcome == rest.outcome && r.attempts == rest.attempts
      && r.effects == [Fetch(attempt)] + Pause(c, attempt, envs[attempt]) + rest.effects
  {
    var step := Attempt(envs[attempt].net, armed);
    LoopFrame(c, name, envs, attempt + 1, step.armed, Some(step.error), [] + [Fetch(attempt)] + Pause(c, attempt, envs[attempt]));
    assert [] + [Fetch(attempt)] == [Fetch(attempt)];
  }

  /** What an attempt that continues the loop adds in front of the rest. */
  lemma PieceCounts(c: Config, attempt: nat, env: AttemptEnv, rest: seq<Effect>)
    ensures var all := [Fetch(attempt)] + Pause(c, attempt, env) + rest;
      && Fetches(all) == 1 + Fetches(rest)
      && Signals(all) == Signals(rest)
      && (|rest| > 0 ==> all[|all| - 1] == rest[|rest| - 1])
  {
    QuietPieces(c, "", attempt, env);
    CountsAppend([Fetch(attempt)], Pause(c, attempt, env));
    CountsAppend([Fetch(attempt)] + Pause(c, attempt, env), rest);
  }

  /** What an attempt that ends the loop, or the end of the budget, contributes. */
  lemma StopCounts(c: Config, name: string, attempt: nat)
    ensures Fetches([Fetch(attempt)]) == 1 && Signals([Fetch(attempt)]) == []
    ensures var t := [Fetch(attempt)] + Closing(c, name);
      Fetches(t) == 1 && Signals(t) == Signals(Closing(c, name)) && t[|t| - 1] == Finale(c, name)
    ensures var t := [] + Closing(c, name);
      Fetches(t) == 0 && Signals(t) == Signals(Closing(c, name)) && t[|t| - 1] == Finale(c, name)
  {
    QuietPieces(c, name, attempt, AttemptEnv(Stalled, true, 800));
    CountsAppend([Fetch(attempt)], Closing(c, name));
    assert [] + Closing(c, name) == Closing(c, name);
  }

  /**
   * At most `retries + 1` attempts, each recorded once in the trace, the
   * first of them being the attempt the loop starts at.
   */
  lemma {:induction false} LoopCounts(c: Config, name: string, envs: seq<AttemptEnv>, attempt: nat, armed: bool, lastError: Option<Failure>)
    requires c.retries < |envs|
    ensures var r := Loop(c, name, envs, attempt, armed, lastError, []);
      && (attempt > c.retries ==> r.attempts == attempt)
      && (attempt <= c.retries ==> attempt < r.attempts <= c.retries + 1 && |r.effects| > 0 && r.effects[0] == Fetch(attempt))
      && Fetches(r.effects) == r.attempts - attempt
    decreases c.retries + 1 - attempt
  {
    StopCounts(c, name, attempt);
    if attempt <= c.retries {
      var env := envs[attempt];
      assert [] + [Fetch(attempt)] == [Fetch(attempt)];
      var step := Attempt(env.net, armed);
      if step.Failed? && step.error != AbortError && env.onlineAfter {
        LoopContinues(c, name, envs, attempt, armed, lastError);
        LoopCounts(c, name, envs, attempt + 1, step.armed, Some(step.error));
        PieceCounts(c, attempt, env, Loop(c, name, envs, attempt + 1, step.armed, Some(step.error), []).effects);
      }
    }
  }

  /** The last effect of a call that settles: loading off, or the timing end for a background call. */
  function Finale(c: Config, name: string): Effect {
    if c.background then EndTiming(name) else ShowLoading(false)
  }

  /** Whether attempt `attempt` fails in a way that lets the loop go on. */
  predicate Continues(envs: seq<AttemptEnv>, attempt: nat, armed: bool)
    requires attempt < |envs|
  {
    var step := Attempt(envs[attempt].net, armed);
    step.Failed? && step.error != AbortError && envs[attempt].onlineAfter
  }

  /** A loop past its budget only closes; an attempt that does not continue is its fetch, then the closing unless it hangs. */
  lemma LoopStops(c: Config, name: string, envs: seq<AttemptEnv>, attempt: nat, armed: bool, lastError: Option<Failure>)
    requires c.retries < |envs|
    requires attempt <= c.retries ==> !Continues(envs, attempt, armed)
    ensures var r := Loop(c, name, envs, attempt, armed, lastError, []);
      && (attempt > c.retries ==> !r.outcome.NeverSettles? && r.effects == [] + Closing(c, name))
      && (attempt <= c.retries && r.outcome.NeverSettles? ==> r.effects == [Fetch(attempt)])
      && (attempt <= c.retries && !r.outcome.NeverSettles? ==> r.effects == [Fetch(attempt)] + Closing(c, name))
  {
    if attempt <= c.retries {
      assert [] + [Fetch(attempt)] == [Fetch(attempt)];
    }
  }

  /** A loop that settles ends with the closing effects and sends loading off once (unless background), and nothing else. */
  lemma {:induction false} LoopCloses(c: Config, name: string, envs: seq<AttemptEnv>, attempt: nat, armed: bool, lastError: Option<Failure>)
    requires c.retries < |envs|
    ensures var r := Loop(c, name, envs, attempt, armed, lastError, []);
      && Signals(r.effects) == (if r.outcome.NeverSettles? then [] else Signals(Closing(c, name)))
      && (!r.outcome.NeverSettles? ==> |r.effects| > 0 && r.effects[|r.effects| - 1] == Finale(c, name))
    decreases c.retries + 1 - attempt
  {
    if attempt <= c.retries && Continues(envs, attempt, armed) {
      var step := Attempt(envs[attempt].net, armed);
      LoopContinues(c, name, envs, attempt, armed, lastError);
      LoopCloses(c, name, envs, attempt + 1, step.armed, Some(step.error));
      PieceCounts(c, attempt, envs[attempt], Loop(c, name, envs, attempt + 1, step.armed, Some(step.error), []).effects);
    } else {
      StopCloses(c, name, envs, attempt, armed, lastError);
    }
  }

  /** `LoopCloses` for a loop that stops at once. */
  lemma StopCloses(c: Config, name: string, envs: seq<AttemptEnv>, attempt: nat, armed: bool, lastError: Option<Failure>)
    requires c.retries < |envs|
    requires attempt <= c.retries ==> !Continues(envs, attempt, armed)
    ensures var r := Loop(c, name, envs, attempt, armed, lastError, []);
      && Signals(r.effects) == (if r.outcome.NeverSettles? then [] else Signals(Closing(c, name)))
      && (!r.outcome.NeverSettles? ==> |r.effects| > 0 && r.effects[|r.effects| - 1] == Finale(c, name))
  {
    LoopStops(c, name, envs, attempt, armed, lastError);
    StopCounts(c, name, attempt);
  }

  /** Every backoff sits between two attempts: a sleep after attempt i is followed at once by attempt i + 1. */
  predicate SleepsBetweenAttempts(effects: seq<Effect>) {
    forall k :: 0 <= k < |effects| && effects[k].Sleep? ==>
      k + 1 < |effects| && effects[k + 1] == Fetch(effects[k].attempt + 1)
  }

  /** Every backoff follows a failed attempt other than the last, for the capped, jittered delay drawn for it. */
  predicate BackoffsFollowSchedule(c: Config, envs: seq<AttemptEnv>, effects: seq<Effect>) {
    forall k :: 0 <= k < |effects| && effects[k].Sleep? ==>
      && effects[k].attempt < c.retries < |envs|
      && effects[k].micros == DelayMicros(c.retryDelay, effects[k].attempt, envs[effects[k].attempt].jitter)
  }

  /** An attempt and its pause, put before a loop whose sleeps are in place, keep them in place. */
  lemma PauseThenRest(c: Config, envs: seq<AttemptEnv>, attempt: nat, rest: seq<Effect>)
    requires c.retries < |envs| && attempt <= c.retries
    requires SleepsBetweenAttempts(rest) && BackoffsFollowSchedule(c, envs, rest)
    requires attempt < c.retries ==> |rest| > 0 && rest[0] == Fetch(attempt + 1)
    ensures var all := [Fetch(attempt)] + Pause(c, attempt, envs[attempt]) + rest;
      SleepsBetweenAttempts(all) && BackoffsFollowSchedule(c, envs, all)
  {
    var piece := [Fetch(attempt)] + Pause(c, attempt, envs[attempt]);
    var all := piece + rest;
    forall k | 0 <= k < |all| && all[k].Sleep?
      ensures k + 1 < |all| && all[k + 1] == Fetch(all[k].attempt + 1)
      ensures all[k].attempt < c.retries < |envs|
      ensures all[k].micros == DelayMicros(c.retryDelay, all[k].attempt, envs[all[k].attempt].jitter)
    {
      if k >= |piece| {
        assert all[k] == rest[k - |piece|];
        if k + 1 < |all| {
          assert all[k + 1] == rest[k + 1 - |piece|];
        }
      }
    }
  }

  /** An attempt that ends the loop leaves no sleep behind it. */
  lemma StopHasNoSleep(c: Config, name: string, attempt: nat, envs: seq<AttemptEnv>)
    ensures SleepsBetweenAttempts([Fetch(attempt)]) && BackoffsFollowSchedule(c, envs, [Fetch(attempt)])
    ensures SleepsBetweenAttempts([Fetch(attempt)] + Closing(c, name))
    ensures BackoffsFollowSchedule(c, envs, [Fetch(attempt)] + Closing(c, name))
    ensures SleepsBetweenAttempts([] + Closing(c, name)) && BackoffsFollowSchedule(c, envs, [] + Closing(c, name))
  {
    assert [] + Closing(c, name) == Closing(c, name);
    if c.background {
      assert [Fetch(attempt)] + Closing(c, name) == [Fetch(attempt), EndTiming(name)];
    } else {
      assert [Fetch(attempt)] + Closing(c, name) == [Fetch(attempt), EndTiming(name), ShowLoading(false)];
    }
  }

  lemma {:induction false} LoopSleeps(c: Config, name: string, envs: seq<AttemptEnv>, attempt: nat, armed: bool, lastError: Option<Failure>)
    requires c.retries < |envs|
    ensures var r := Loop(c, name, envs, attempt, armed, lastError, []);
      SleepsBetweenAttempts(r.effects) && BackoffsFollowSchedule(c, envs, r.effects)
    decreases c.retries + 1 - attempt
  {
    StopHasNoSleep(c, name, attempt, envs);
    if attempt <= c.retries {
      var env := envs[attempt];
      assert [] + [Fetch(attempt)] == [Fetch(attempt)];
      var step := Attempt(env.net, armed);
      if step.Failed? && step.error != AbortError && env.onlineAfter {
        LoopContinues(c, name, envs, attempt, armed, lastError);
        LoopSleeps(c, name, envs, attempt + 1, step.armed, Some(step.error));
        LoopCounts(c, name, envs, attempt + 1, step.armed, Some(step.error));
        PauseThenRest(c, envs, attempt, Loop(c, name, envs, attempt + 1, step.armed, Some(step.error), []).effects);
      }
    }
  }

  // ---------------------------------------------------------------------
  // Properties of `request`
  // ---------------------------------------------------------------------

  /** Whether a call gets past the offline test and the cache. */
  predicate EntersLoop(data: map<string, Entry>, maxAge: int, c: Config, online: bool, readAt: int) {
    (online || c.background) && !Serves(CacheRead(data, maxAge, c, readAt))
  }

  /** A call that gets past the offline test and the cache is its opening followed by the loop. */
  lemma RequestRunsLoop(
    data: map<string, Entry>, maxAge: int, url: string, c: Config,
    online: bool, readAt: int, writeAt: int, envs: seq<AttemptEnv>)
    requires c.retries < |envs|
    requires EntersLoop(data, maxAge, c, online, readAt)
    ensures var r := RequestSpec(data, maxAge, url, c, online, readAt, writeAt, envs);
      var loop := Loop(c, MetricName(c, url), envs, 0, true, None, []);
      r.outcome == loop.outcome && r.effects == Opening(c, MetricName(c, url)) + loop.effects
  {
  }

  /** Offline and not background: rejected with `Offline`, with a notice and nothing else. */
  lemma OfflineRejectsAtOnce(
    data: map<string, Entry>, maxAge: int, url: string, c: Config,
    readAt: int, writeAt: int, envs: seq<AttemptEnv>)
    requires c.retries < |envs| && !c.background
    ensures var r := RequestSpec(data, maxAge, url, c, false, readAt, writeAt, envs);
      r.outcome == Rejected(Offline) && r.effects == [Notify(OfflineMessage)] && r.cache == data
      && Fetches(r.effects) == 0
  {
    var e := [Notify(OfflineMessage)];
    assert e[1..] == [];
  }

  /** A truthy fresh value under the key is returned with no effect at all and the cache left as it was. */
  lemma CacheHitIsServed(
    data: map<string, Entry>, maxAge: int, url: string, c: Config,
    online: bool, readAt: int, writeAt: int, envs: seq<AttemptEnv>)
    requires c.retries < |envs| && (online || c.background)
    requires HasCacheKey(c) && !c.forceRefresh
    requires c.cacheKey.value in data && readAt - data[c.cacheKey.value].timestamp <= maxAge
    requires JsTruthy(data[c.cacheKey.value].value)
    ensures var r := RequestSpec(data, maxAge, url, c, online, readAt, writeAt, envs);
      r.outcome == Resolved(data[c.cacheKey.value].value) && r.effects == [] && r.cache == data
  {
  }

  /**
   * Otherwise the call shows loading (unless background), starts the timer
   * and makes its first attempt: also with `forceRefresh`, and also when the
   * cached value is falsy.
   */
  lemma MissGoesToNetwork(
    data: map<string, Entry>, maxAge: int, url: string, c: Config,
    online: bool, readAt: int, writeAt: int, envs: seq<AttemptEnv>)
    requires c.retries < |envs| && c.retries >= 0
    requires EntersLoop(data, maxAge, c, online, readAt)
    ensures var r := RequestSpec(data, maxAge, url, c, online, readAt, writeAt, envs);
      var o := Opening(c, MetricName(c, url));
      |o| < |r.effects| && r.effects[..|o|] == o && r.effects[|o|] == Fetch(0)
  {
    LoopCounts(c, MetricName(c, url), envs, 0, true, None);
  }

  /** No call makes more than `retries + 1` attempts (none when `retries` is negative). */
  lemma AttemptsAreBounded(
    data: map<string, Entry>, maxAge: int, url: string, c: Config,
    online: bool, readAt: int, writeAt: int, envs: seq<AttemptEnv>)
    requires c.retries < |envs|
    ensures Fetches(RequestSpec(data, maxAge, url, c, online, readAt, writeAt, envs).effects)
      <= if c.retries >= 0 then c.retries + 1 else 0
  {
    var name := MetricName(c, url);
    if EntersLoop(data, maxAge, c, online, readAt) {
      LoopCounts(c, name, envs, 0, true, None);
      QuietPieces(c, name, 0, AttemptEnv(Stalled, true, 800));
      CountsAppend(Opening(c, name), Loop(c, name, envs, 0, true, None, []).effects);
    } else if !online && !c.background {
      var e := [Notify(OfflineMessage)];
      assert e[1..] == [];
    }
  }

  /** Sleeps happen only between attempts, never after the last one, for the capped backoff delay. */
  lemma BackoffOnlyBetweenAttempts(
    data: map<string, Entry>, maxAge: int, url: string, c: Config,
    online: bool, readAt: int, writeAt: int, envs: seq<AttemptEnv>)
    requires c.retries < |envs|
    ensures var e := RequestSpec(data, maxAge, url, c, online, readAt, writeAt, envs).effects;
      SleepsBetweenAttempts(e) && BackoffsFollowSchedule(c, envs, e)
  {
    var name := MetricName(c, url);
    if EntersLoop(data, maxAge, c, online, readAt) {
      LoopSleeps(c, name, envs, 0, true, None);
      QuietPieces(c, name, 0, AttemptEnv(Stalled, true, 800));
      var o := Opening(c, name);
      var rest := Loop(c, name, envs, 0, true, None, []).effects;
      var all: seq<Effect> := o + rest;
      forall k | 0 <= k < |all| && all[k].Sleep?
        ensures k + 1 < |all| && all[k + 1] == Fetch(all[k].attempt + 1)
      {
        assert all[k] == rest[k - |o|];
        if k + 1 < |all| {
          assert all[k + 1] == rest[k + 1 - |o|];
        }
      }
    }
  }

  /** The opening, put before the loop's trace, comes first and leaves its last effect and its signals in place. */
  lemma OpeningThenLoop(c: Config, name: string, rest: seq<Effect>)
    ensures var all := Opening(c, name) + rest;
      && all[0] == (if c.background then StartTiming(name) else ShowLoading(true))
      && Signals(all) == (if c.background then [] else [true]) + Signals(rest)
      && (|rest| > 0 ==> all[|all| - 1] == rest[|rest| - 1])
  {
    QuietPieces(c, name, 0, AttemptEnv(Stalled, true, 800));
    CountsAppend(Opening(c, name), rest);
  }

  /** A call served from the cache or refused offline, and every background call, sends no loading signal. */
  lemma NoLoadingWithoutNetwork(
    data: map<string, Entry>, maxAge: int, url: string, c: Config,
    online: bool, readAt: int, writeAt: int, envs: seq<AttemptEnv>)
    requires c.retries < |envs|
    requires !EntersLoop(data, maxAge, c, online, readAt) || c.background
    ensures Signals(RequestSpec(data, maxAge, url, c, online, readAt, writeAt, envs).effects) == []
  {
    var name := MetricName(c, url);
    if EntersLoop(data, maxAge, c, online, readAt) {
      LoopCloses(c, name, envs, 0, true, None);
      QuietPieces(c, name, 0, AttemptEnv(Stalled, true, 800));
      OpeningThenLoop(c, name, Loop(c, name, envs, 0, true, None, []).effects);
    } else if !online && !c.background {
      CountsOfOne(Notify(OfflineMessage));
    }
  }

  /**
   * Loading is paired: a non-background call that reaches the network sends
   * loading on first and, once it settles, loading off last, and no other
   * loading signal.
   */
  lemma LoadingIsPaired(
    data: map<string, Entry>, maxAge: int, url: string, c: Config,
    online: bool, readAt: int, writeAt: int, envs: seq<AttemptEnv>)
    requires c.retries < |envs|
    requires EntersLoop(data, maxAge, c, online, readAt) && !c.background
    ensures var r := RequestSpec(data, maxAge, url, c, online, readAt, writeAt, envs);
      && Signals(r.effects) == (if r.outcome.NeverSettles? then [true] else [true, false])
      && r.effects[0] == ShowLoading(true)
      && (!r.outcome.NeverSettles? ==> r.effects[|r.effects| - 1] == ShowLoading(false))
  {
    var name := MetricName(c, url);
    var loop := Loop(c, name, envs, 0, true, None, []);
    RequestRunsLoop(data, maxAge, url, c, online, readAt, writeAt, envs);
    LoopCloses(c, name, envs, 0, true, None);
    PairedSignals(c, name, loop.effects, loop.outcome.NeverSettles?);
  }

  /** The opening of a non-background call put before a loop trace that closes as `LoopCloses` says. */
  lemma PairedSignals(c: Config, name: string, rest: seq<Effect>, hangs: bool)
    requires !c.background
    requires Signals(rest) == (if hangs then [] else Signals(Closing(c, name)))
    requires !hangs ==> |rest| > 0 && rest[|rest| - 1] == Finale(c, name)
    ensures var all := Opening(c, name) + rest;
      && Signals(all) == (if hangs then [true] else [true, false])
      && all[0] == ShowLoading(true)
      && (!hangs ==> all[|all| - 1] == ShowLoading(false))
  {
    QuietPieces(c, name, 0, AttemptEnv(Stalled, true, 800));
    OpeningThenLoop(c, name, rest);
    if hangs {
      assert Signals(Opening(c, name) + rest) == [true] + [];
    } else {
      assert Signals(Opening(c, name) + rest) == [true] + [false];
    }
  }

  /** A resolved call with a cache key leaves the returned value in the cache; a failed one writes nothing. */
  lemma ResultIsCached(
    data: map<string, Entry>, maxAge: int, url: string, c: Config,
    online: bool, readAt: int, writeAt: int, envs: seq<AttemptEnv>)
    requires c.retries < |envs|
    ensures var r := RequestSpec(data, maxAge, url, c, online, readAt, writeAt, envs);
      && (r.outcome.Resolved? && HasCacheKey(c) ==>
            c.cacheKey.value in r.cache && r.cache[c.cacheKey.value].value == r.outcome.data)
      && (EntersLoop(data, maxAge, c, online, readAt) && r.outcome.Resolved? && HasCacheKey(c) ==>
            r.cache[c.cacheKey.value] == Entry(writeAt, r.outcome.data))
      && (!r.outcome.Resolved? ==> r.cache.Keys <= data.Keys && forall k :: k in r.cache ==> r.cache[k] == data[k])
  {
  }

  /** The failures that never stop the loop early, whatever the timer: network errors, HTTP errors, bodies that do not parse. */
  predicate Retryable(env: AttemptEnv) {
    && env.onlineAfter
    && (|| env.net.NetworkFailure?
        || (env.net.Responded? && (!env.net.response.ok || ParseBody(env.net.response).None?)))
  }

  /** The error an attempt fails with while the timer is armed. */
  function RetryableError(net: NetResult): Failure {
    match net
    case NetworkFailure(m) => NetworkError(m)
    case Responded(resp) => if !resp.ok then HttpError(resp.status, resp.text) else ParseError
    case Stalled => AbortError
  }

  lemma {:induction false} LoopExhausts(
    c: Config, name: string, envs: seq<AttemptEnv>,
    attempt: nat, armed: bool, lastError: Option<Failure>, trace: seq<Effect>)
    requires c.retries < |envs| && attempt <= c.retries
    requires forall i :: attempt <= i <= c.retries ==> Retryable(envs[i])
    ensures var r := Loop(c, name, envs, attempt, armed, lastError, trace);
      r.attempts == c.retries + 1 && r.outcome == Rejected(RetryableError(envs[c.retries].net))
    decreases c.retries + 1 - attempt
  {
    var env := envs[attempt];
    assert Retryable(env);
    var step := Attempt(env.net, armed);
    assert step.Failed? && step.error == RetryableError(env.net);
    if attempt < c.retries {
      LoopExhausts(c, name, envs, attempt + 1, step.armed, Some(step.error), trace + [Fetch(attempt)] + Pause(c, attempt, env));
    }
  }

  /** When every attempt fails with a retryable error, the call makes exactly `retries + 1` attempts and rethrows the last error. */
  lemma PersistentFailureUsesEveryAttempt(
    data: map<string, Entry>, maxAge: int, url: string, c: Config,
    online: bool, readAt: int, writeAt: int, envs: seq<AttemptEnv>)
    requires 0 <= c.retries < |envs|
    requires EntersLoop(data, maxAge, c, online, readAt)
    requires forall i :: 0 <= i <= c.retries ==> Retryable(envs[i])
    ensures var r := RequestSpec(data, maxAge, url, c, online, readAt, writeAt, envs);
      r.outcome == Rejected(RetryableError(envs[c.retries].net))
      && Fetches(r.effects) == c.retries + 1
  {
    var name := MetricName(c, url);
    LoopExhausts(c, name, envs, 0, true, None, []);
    LoopCounts(c, name, envs, 0, true, None);
    QuietPieces(c, name, 0, envs[0]);
    CountsAppend(Opening(c, name), Loop(c, name, envs, 0, true, None, []).effects);
  }

  /** A timeout, or any failure of the first attempt while offline, ends the call after that one attempt with that error. */
  lemma EarlyStopMakesOneAttempt(
    data: map<string, Entry>, maxAge: int, url: string, c: Config,
    online: bool, readAt: int, writeAt: int, envs: seq<AttemptEnv>)
    requires 0 <= c.retries < |envs|
    requires EntersLoop(data, maxAge, c, online, readAt)
    requires envs[0].net.Stalled? || (Attempt(envs[0].net, true).Failed? && !envs[0].onlineAfter)
    ensures var r := RequestSpec(data, maxAge, url, c, online, readAt, writeAt, envs);
      && r.outcome == Rejected(Attempt(envs[0].net, true).error)
      && (envs[0].net.Stalled? ==> r.outcome == Rejected(AbortError))
      && (envs[0].net.NetworkFailure? ==> r.outcome == Rejected(NetworkError(envs[0].net.message)))
      && (envs[0].net.Responded? && !envs[0].net.response.ok ==>
            r.outcome == Rejected(HttpError(envs[0].net.response.status, envs[0].net.response.text)))
      && Fetches(r.effects) == 1
  {
    var name := MetricName(c, url);
    LoopCounts(c, name, envs, 0, true, None);
    QuietPieces(c, name, 0, envs[0]);
    CountsAppend(Opening(c, name), Loop(c, name, envs, 0, true, None, []).effects);
  }

  /**
   * The timer is cleared by the first response: a stall on the attempt
   * after an HTTP error is no longer aborted, and the call never settles.
   */
  lemma StallAfterHttpErrorNeverSettles(
    data: map<string, Entry>, maxAge: int, url: string, c: Config,
    online: bool, readAt: int, writeAt: int, envs: seq<AttemptEnv>)
    requires 1 <= c.retries < |envs|
    requires EntersLoop(data, maxAge, c, online, readAt)
    requires envs[0].net.Responded? && !envs[0].net.response.ok && envs[0].onlineAfter
    requires envs[1].net.Stalled?
    ensures RequestSpec(data, maxAge, url, c, online, readAt, writeAt, envs).outcome == NeverSettles
  {
    var name := MetricName(c, url);
    LoopContinues(c, name, envs, 0, true, None);
  }

  /**
   * One retryable failure, then `{a: 1}`: with one retry and a 100 ms base
   * delay, one backoff of 80 to 120 ms, the value returned and cached.
   */
  lemma RetryThenSucceed(data: map<string, Entry>, maxAge: int, readAt: int, writeAt: int, j0: Jitter, j1: Jitter)
    requires "k" !in data
    ensures var c := DefaultConfig.(cacheKey := Some("k"), retries := 1, retryDelay := 100);
      var payload := JObj(map["a" := JNum(1)]);
      var ok := Response(true, 200, Some("application/json"), "{\"a\":1}", Some(payload));
      var envs := [AttemptEnv(NetworkFailure("reset"), true, j0), AttemptEnv(Responded(ok), true, j1)];
      var r := RequestSpec(data, maxAge, "/x", c, true, readAt, writeAt, envs);
      && r.outcome == Resolved(payload)
      && r.effects == [ShowLoading(true), StartTiming("api_k"), Fetch(0), Sleep(0, 100 * j0), Fetch(1), EndTiming("api_k"), ShowLoading(false)]
      && 80000 <= 100 * j0 < 120000
      && r.cache == data["k" := Entry(writeAt, payload)]
  {
    var c := DefaultConfig.(cacheKey := Some("k"), retries := 1, retryDelay := 100);
    var payload := JObj(map["a" := JNum(1)]);
    var ok := Response(true, 200, Some("application/json"), "{\"a\":1}", Some(payload));
    var envs := [AttemptEnv(NetworkFailure("reset"), true, j0), AttemptEnv(Responded(ok), true, j1)];
    assert Contains("application/json", "application/json");
    assert DelayMicros(100, 0, j0) == 100 * j0;
    LoopContinues(c, "api_k", envs, 0, true, None);
    assert MetricName(c, "/x") == "api_k";
  }

  /** `forceRefresh` skips even a fresh entry, and the new result overwrites it. */
  lemma ForceRefreshOverwrites(
    data: map<string, Entry>, maxAge: int, url: string, c: Config,
    online: bool, readAt: int, writeAt: int, envs: seq<AttemptEnv>, latest: Json)
    requires 0 <= c.retries < |envs| && online
    requires HasCacheKey(c) && c.forceRefresh
    requires envs[0].net.Responded? && envs[0].net.response.ok && ParseBody(envs[0].net.response) == Some(latest)
    ensures var r := RequestSpec(data, maxAge, url, c, online, readAt, writeAt, envs);
      r.outcome == Resolved(latest) && r.cache == data[c.cacheKey.value := Entry(writeAt, latest)]
  {
  }
}
