/**
 * The crawler's surroundings and its HTTP session (main.py:22-35, 58-83).
 *
 * Everything the crawler cannot decide for itself comes from a `Script`: what the site
 * answers to each request in turn, the numbers Python's shared random generator draws in
 * turn and the successive readings of the clock. Any run of the crawler is the run on
 * some script. The `Env` follows the script and keeps what the crawler does to the
 * outside world: the lines it logs, the pauses it sleeps, how many sessions it opened.
 */
module Session {
  import opened Wrappers
  import opened Text
  import opened Records
  import opened Seqs

  /** `MySession._retry_limit` (main.py:68). */
  const RETRY_LIMIT: nat := 10

  /** The number of user-agent strings `MySession` picks from (main.py:60-65). */
  const USER_AGENT_COUNT: nat := 4

  /**
   * The outside world of one run. Request number `n` (counted from 0) gets
   * `responses[n]`, a body or `None` where `requests` raised; draw number `n` of the random
   * generator is `dice[n]`; reading number `n` of the clock is `clock[n]`. Past the end
   * of a script every request fails, every draw is 0 and the clock reads "".
   */
  datatype Script = Script(responses: seq<Option<Body>>, dice: seq<nat>, clock: seq<string>)

  function Response(w: Script, n: nat): Option<Body> {
    if n < |w.responses| then w.responses[n] else None
  }

  function Draw(w: Script, n: nat): nat {
    if n < |w.dice| then w.dice[n] else 0
  }

  function Clock(w: Script, n: nat): string {
    if n < |w.clock| then w.clock[n] else ""
  }

  class Env {
    const script: Script

    /** The URLs requested so far, in order: request number `n` was for `requests[n]`. */
    var requests: seq<string>
    var draws: nat
    var ticks: nat
    /** The messages given to `LogWriter.write`, in order. */
    var log: seq<string>
    /** The durations given to `time.sleep`, in order. */
    var sleeps: seq<nat>
    /** How many `requests.Session` objects have been opened. */
    var sessions: nat

    constructor (script: Script)
      ensures this.script == script
      ensures requests == [] && draws == 0 && ticks == 0 && log == [] && sleeps == [] && sessions == 0
    {
      this.script := script;
      requests, draws, ticks, log, sleeps, sessions := [], 0, 0, [], [], 0;
    }

    /** `random.randint(lo, hi)`: the next draw, brought into `[lo, hi]`. */
    method RandInt(lo: int, hi: int) returns (r: int)
      requires lo <= hi
      modifies this`draws
      ensures lo <= r <= hi
      ensures r == lo + Draw(script, old(draws)) % (hi - lo + 1)
      ensures draws == old(draws) + 1
    {
      r := lo + Draw(script, draws) % (hi - lo + 1);
      draws := draws + 1;
    }

    /** `time.sleep(seconds)`. */
    method Sleep(seconds: nat)
      modifies this`sleeps
      ensures sleeps == old(sleeps) + [seconds]
    {
      sleeps := sleeps + [seconds];
    }

    /** `LogWriter.write(msg)`, without the time stamp it prefixes. */
    method Log(msg: string)
      modifies this`log
      ensures log == old(log) + [msg]
    {
      log := log + [msg];
    }

    /** `datetime.now().strftime(...)`. */
    method Now() returns (time: string)
      modifies this`ticks
      ensures time == Clock(script, old(ticks)) && ticks == old(ticks) + 1
    {
      time := Clock(script, ticks);
      ticks := ticks + 1;
    }

    /** One `requests.Session.get(url)`: the body, or `None` where it raised. */
    method Request(url: string) returns (r: Option<Body>)
      modifies this`requests
      ensures r == Response(script, |old(requests)|) && requests == old(requests) + [url]
    {
      r := Response(script, |requests|);
      requests := requests + [url];
    }

    /** A fresh `requests.Session` (main.py:67). */
    method OpenSession()
      modifies this`sessions
      ensures sessions == old(sessions) + 1
    {
      sessions := sessions + 1;
    }
  }

  /** Requests number `lo` up to (not including) `hi` all fail. */
  predicate AllFail(w: Script, lo: nat, hi: nat) {
    forall m: nat :: lo <= m < hi ==> Response(w, m).None?
  }

  lemma AllFailExtend(w: Script, lo: nat, hi: nat)
    requires lo <= hi && AllFail(w, lo, hi) && Response(w, hi).None?
    ensures AllFail(w, lo, hi + 1)
  {
  }

  /**
   * How many attempts `MySession.get` makes when its first attempt is request number
   * `start`: up to and including the first that succeeds, and never more than the limit.
   */
  function Attempts(w: Script, start: nat): (n: nat)
    ensures 1 <= n <= RETRY_LIMIT
  {
    AttemptsFrom(w, start, 0)
  }

  function AttemptsFrom(w: Script, start: nat, i: nat): (n: nat)
    requires i < RETRY_LIMIT
    ensures i + 1 <= n <= RETRY_LIMIT
    decreases RETRY_LIMIT - i
  {
    if i + 1 == RETRY_LIMIT || Response(w, start + i).Some? then i + 1
    else AttemptsFrom(w, start, i + 1)
  }

  /** Every attempt but the last fails, and the last succeeds unless it is the tenth. */
  lemma AttemptsFail(w: Script, start: nat)
    ensures AllFail(w, start, start + Attempts(w, start) - 1)
    ensures Attempts(w, start) < RETRY_LIMIT ==> Response(w, start + Attempts(w, start) - 1).Some?
  {
    AttemptsFromFail(w, start, 0);
  }

  lemma {:induction false} AttemptsFromFail(w: Script, start: nat, i: nat)
    requires i < RETRY_LIMIT && AllFail(w, start, start + i)
    ensures AllFail(w, start, start + AttemptsFrom(w, start, i) - 1)
    ensures AttemptsFrom(w, start, i) < RETRY_LIMIT ==> Response(w, start + AttemptsFrom(w, start, i) - 1).Some?
    decreases RETRY_LIMIT - i
  {
    if i + 1 < RETRY_LIMIT && Response(w, start + i).None? {
      AllFailExtend(w, start, start + i);
      AttemptsFromFail(w, start, i + 1);
    }
  }

  /** The attempts stop at attempt `i + 1` when it succeeds or is the last one allowed. */
  lemma AttemptsStop(w: Script, start: nat, i: nat)
    requires i < RETRY_LIMIT && AllFail(w, start, start + i)
    requires Response(w, start + i).Some? || i + 1 == RETRY_LIMIT
    ensures Attempts(w, start) == i + 1
  {
    var n := Attempts(w, start);
    AttemptsFail(w, start);
    var last: nat, here: nat := start + n - 1, start + i;
    assert n - 1 < i ==> Response(w, last).None?;
    assert i < n - 1 ==> Response(w, here).None?;
  }

  /** What `MySession.get` returns: the outcome of its last attempt. */
  function Fetch(w: Script, start: nat): Option<Body> {
    Response(w, start + Attempts(w, start) - 1)
  }

  /**
   * `MySession.get` returns a body exactly when one of its ten attempts succeeds, and
   * then the body of the first attempt that does.
   */
  lemma FetchFirstSuccess(w: Script, start: nat)
    ensures Fetch(w, start).Some? <==> !AllFail(w, start, start + RETRY_LIMIT)
    ensures Fetch(w, start).Some? ==>
              exists m: nat :: start <= m < start + RETRY_LIMIT && Fetch(w, start) == Response(w, m)
                               && AllFail(w, start, m)
  {
    var n := Attempts(w, start);
    AttemptsFail(w, start);
    if !AllFail(w, start, start + RETRY_LIMIT) {
      var m: nat :| start <= m < start + RETRY_LIMIT && Response(w, m).Some?;
      assert start + n - 1 <= m;
    }
  }

  /** The requests from `before` to `after` were all for `url`. */
  ghost predicate RequestedOnly(before: seq<string>, after: seq<string>, url: string) {
    |before| <= |after| && after == before + Repeat(url, |after| - |before|)
  }

  /** The requests added are copies of `url`. */
  lemma RequestedOnlyTail(before: seq<string>, after: seq<string>, url: string)
    requires RequestedOnly(before, after, url)
    ensures after[|before|..] == Repeat(url, |after| - |before|)
  {
    assert after[|before|..] == (before + Repeat(url, |after| - |before|))[|before|..];
  }

  lemma RequestedOnlyTrans(a: seq<string>, b: seq<string>, c: seq<string>, url: string)
    requires RequestedOnly(a, b, url) && RequestedOnly(b, c, url)
    ensures RequestedOnly(a, c, url)
  {
    AppendAssoc(a, Repeat(url, |b| - |a|), Repeat(url, |c| - |b|));
    RepeatConcat(url, |b| - |a|, |c| - |b|);
  }

  /** The log line before attempt `k` (counted from 1). */
  function TrialLine(url: string, k: nat): string {
    url + " trial[" + NatToDecimal(k) + "]"
  }

  /** The log lines of `n` attempts on `url`. */
  function TrialLines(url: string, n: nat): (lines: seq<string>)
    ensures |lines| == n
    ensures forall k :: 0 <= k < n ==> lines[k] == TrialLine(url, k + 1)
  {
    if n == 0 then [] else TrialLines(url, n - 1) + [TrialLine(url, n)]
  }

  /** The trial number can be read back from a log line: lines of different attempts differ. */
  lemma TrialLineNumber(url: string, k: nat)
    ensures var line := TrialLine(url, k);
            |line| >= |url| + 8 && line[..|url|] == url
            && DecimalValue(line[|url| + 7..|line| - 1]) == k
  {
    var line := TrialLine(url, k);
    assert line == url + " trial[" + NatToDecimal(k) + "]";
    assert line[|url| + 7..|line| - 1] == NatToDecimal(k);
    DecimalOfNatToDecimal(k);
  }

  /** The pauses after `failures` failed attempts: 1 second after the first, 2 after the second, ... */
  function Pauses(failures: nat): (pauses: seq<nat>)
    ensures |pauses| == failures
    ensures forall k :: 0 <= k < failures ==> pauses[k] == k + 1
  {
    if failures == 0 then [] else Pauses(failures - 1) + [failures]
  }

  /** One more attempt adds its log line, its request and, when it fails, its pause. */
  lemma TrialGrows(log: seq<string>, sleeps: seq<nat>, requests: seq<string>, url: string, i: nat)
    ensures log + TrialLines(url, i) + [TrialLine(url, i + 1)] == log + TrialLines(url, i + 1)
    ensures sleeps + Pauses(i) + [i + 1] == sleeps + Pauses(i + 1)
    ensures requests + Repeat(url, i) + [url] == requests + Repeat(url, i + 1)
  {
    AppendAssoc(log, TrialLines(url, i), [TrialLine(url, i + 1)]);
    AppendAssoc(sleeps, Pauses(i), [i + 1]);
    AppendAssoc(requests, Repeat(url, i), [url]);
    RepeatConcat(url, i, 1);
  }

  /** `MySession` (main.py:58-83). The cookies of its `requests.Session` are not modelled. */
  class MySession {
    const env: Env

    /** `MySession.__init__`: opens a fresh `requests.Session`. */
    constructor (env: Env)
      modifies env`sessions
      ensures this.env == env
      ensures env.sessions == old(env.sessions) + 1
    {
      this.env := env;
      env.OpenSession();
    }

    /** Attempt `i + 1` of `MySession.get`: the body of the `try` and its `except`. */
    method Attempt(url: string, i: nat) returns (r: Option<Body>)
      modifies env`log, env`requests, env`sleeps
      ensures env.log == old(env.log) + [TrialLine(url, i + 1)]
      ensures r == Response(env.script, |old(env.requests)|) && env.requests == old(env.requests) + [url]
      ensures env.sleeps == old(env.sleeps) + (if r.Some? then [] else [i + 1])
    {
      env.Log(TrialLine(url, i + 1));
      r := env.Request(url);
      if r.None? {
        env.Sleep(i + 1);
      }
    }

    /** `MySession._default_header`: a user agent drawn at random. */
    method DefaultHeader() returns (agent: nat)
      modifies env`draws
      ensures agent < USER_AGENT_COUNT
      ensures agent == Draw(env.script, old(env.draws)) % USER_AGENT_COUNT && env.draws == old(env.draws) + 1
    {
      var k := env.RandInt(0, USER_AGENT_COUNT - 1);
      agent := k;
    }

    /**
     * `MySession.get(url)`: picks a user agent, then tries at most ten times, logging
     * `url trial[k]` before attempt k and sleeping k seconds after failed attempt k.
     * The result is the first body received, or `None` when all ten attempts failed.
     */
    method Get(url: string) returns (r: Option<Body>)
      modifies env`log, env`requests, env`sleeps, env`draws
      ensures r == Fetch(env.script, |old(env.requests)|)
      ensures env.requests == old(env.requests) + Repeat(url, Attempts(env.script, |old(env.requests)|))
      ensures env.log == old(env.log) + TrialLines(url, Attempts(env.script, |old(env.requests)|))
      ensures env.sleeps == old(env.sleeps) + Pauses(Attempts(env.script, |old(env.requests)|) - (if r.Some? then 1 else 0))
      ensures env.draws == old(env.draws) + 1
    {
      var agent := DefaultHeader();
      ghost var n;
      r, n := Trials(url);
      AttemptsStop(env.script, |old(env.requests)|, n - 1);
    }

    /**
     * The `for` loop of `MySession.get`: the attempts, up to the first that succeeds or the
     * tenth; every attempt before the last failed.
     */
    method Trials(url: string) returns (r: Option<Body>, ghost n: nat)
      modifies env`log, env`requests, env`sleeps
      ensures 1 <= n <= RETRY_LIMIT && AllFail(env.script, |old(env.requests)|, |old(env.requests)| + n - 1)
      ensures r == Response(env.script, |old(env.requests)| + n - 1) && (r.Some? || n == RETRY_LIMIT)
      ensures env.requests == old(env.requests) + Repeat(url, n)
      ensures env.log == old(env.log) + TrialLines(url, n)
      ensures env.sleeps == old(env.sleeps) + Pauses(if r.Some? then n - 1 else n)
    {
      ghost var requests0, log0, sleeps0 := env.requests, env.log, env.sleeps;
      ghost var start := |requests0|;
      var i := 0;
      while i < RETRY_LIMIT
        invariant 0 <= i <= RETRY_LIMIT
        invariant AllFail(env.script, start, start + i)
        invariant |env.requests| == start + i
        invariant env.requests == requests0 + Repeat(url, i)
        invariant env.log == log0 + TrialLines(url, i)
        invariant env.sleeps == sleeps0 + Pauses(i)
      {
        r := Attempt(url, i);
        TrialGrows(log0, sleeps0, requests0, url, i);
        if r.Some? {
          n := i + 1;
          assert env.sleeps == sleeps0 + Pauses(n - 1);
          return;
        }
        AllFailExtend(env.script, start, start + i);
        i := i + 1;
      }
      n := RETRY_LIMIT;
      r := None;
    }
  }
}
