/** The request controller (controllers/cronogramaController.js): parameter
    resolution, the retry loop around one scraping attempt, and the cache
    hit/miss flow of the POST handler.

    The Puppeteer work of one attempt is not modelled step by step: each attempt
    is an abstract outcome drawn from a given sequence, and what the attempt
    opens, closes and sleeps is recorded in a ghost event log. */
module Controller {
  import opened Values
  import opened Helpers
  import opened ResultCache

  // ---------------------------------------------------------------------------
  // Parameter resolution (lines 78-88)

  /** The parsed request body; a field the client did not send is Undefined. */
  datatype Body = Body(programa: JsValue, sede: JsValue, jornada: JsValue, recurso: JsValue)

  const EmptyBody := Body(Undefined, Undefined, Undefined, Undefined)

  /** `isNumStr(v) ? v : fallback`: the result is a digit string exactly when
      the client's value is one or the fallback is, and it departs from the
      fallback only to take the client's own digit string. */
  function OrDefault(v: JsValue, fallback: string): (s: string)
    ensures NumericText(s) <==> IsNumStr(v) || NumericText(fallback)
    ensures IsNumStr(v) ==> s == v.s
    ensures s != fallback ==> v == Str(s) && NumericText(s)
  {
    if IsNumStr(v) then v.s else fallback
  }

  /** `req.body || {}`, then each field checked independently; `jornada`,
      when numeric, takes priority over `recurso`. */
  function ResolveParams(body: Option<Body>, defaults: Params): (p: Params)
    ensures NumericParams(defaults) ==> NumericParams(p)
    ensures body.None? ==> p == defaults
  {
    var b := if body.Some? then body.value else EmptyBody;
    Params(OrDefault(b.programa, defaults.programa),
           OrDefault(b.sede, defaults.sede),
           if IsNumStr(b.jornada) then b.jornada.s else OrDefault(b.recurso, defaults.recurso))
  }

  /** Each field is decided by its own body value only; a non-numeric value
      (a JSON number included) falls back to exactly that field's default. */
  lemma ResolveFieldsIndependent(b: Body, v: JsValue, defaults: Params)
    ensures ResolveParams(Some(b), defaults).programa == (if IsNumStr(b.programa) then b.programa.s else defaults.programa)
    ensures ResolveParams(Some(b), defaults).sede == (if IsNumStr(b.sede) then b.sede.s else defaults.sede)
    ensures ResolveParams(Some(b.(programa := v)), defaults).sede == ResolveParams(Some(b), defaults).sede
    ensures ResolveParams(Some(b.(programa := v)), defaults).recurso == ResolveParams(Some(b), defaults).recurso
    ensures ResolveParams(Some(b.(sede := v)), defaults).programa == ResolveParams(Some(b), defaults).programa
    ensures ResolveParams(Some(b.(sede := v)), defaults).recurso == ResolveParams(Some(b), defaults).recurso
  {
  }

  /** `jornada` wins over `recurso`; `recurso` is consulted only when `jornada`
      is not a digit string, and the default only when neither is. */
  lemma RecursoPriority(b: Body, v: JsValue, defaults: Params)
    ensures IsNumStr(b.jornada) ==> ResolveParams(Some(b), defaults).recurso == b.jornada.s
    ensures IsNumStr(b.jornada) ==> ResolveParams(Some(b.(recurso := v)), defaults) == ResolveParams(Some(b), defaults)
    ensures !IsNumStr(b.jornada) && IsNumStr(b.recurso) ==> ResolveParams(Some(b), defaults).recurso == b.recurso.s
    ensures !IsNumStr(b.jornada) && !IsNumStr(b.recurso) ==> ResolveParams(Some(b), defaults).recurso == defaults.recurso
  {
  }

  /** Resolving is idempotent: a body holding a resolved query resolves to it. */
  lemma ResolveIdempotent(b: Option<Body>, defaults: Params)
    ensures var p := ResolveParams(b, defaults);
            ResolveParams(Some(Body(Str(p.programa), Str(p.sede), Undefined, Str(p.recurso))), defaults) == p
  {
  }

  // ---------------------------------------------------------------------------
  // One scraping attempt, abstracted

  datatype Error = Error(message: string)

  const UnknownError := Error("Fallo desconocido al obtener cronograma")

  /** How one attempt ends. LaunchFails: no browser started. PageFails: the
      browser started but `browser.newPage()` threw. ConfigFails: the page
      opened but setViewport, setUserAgent or setRequestInterception threw.
      ProtocolFails:
      a step after the page was ready threw (navigation or selector timeout,
      missing #search button, no matching response, JSON.parse). Succeeds: the
      parsed payload. */
  datatype Attempt =
    | LaunchFails(err: Error)
    | PageFails(err: Error)
    | ConfigFails(err: Error)
    | ProtocolFails(err: Error)
    | Succeeds(data: Json)

  /** What the retry loop observably does with external resources and time. */
  datatype Event = LaunchBrowser | OpenPage | ClosePage | CloseBrowser | Sleep(ms: int)

  datatype Handles = Handles(browser: bool, page: bool)

  const Closed := Handles(false, false)

  /** Replays one event against the handles currently open; None is a misuse:
      launching while something is open, a page without a browser, closing
      what is not open, closing the browser before its page, or sleeping with
      anything still open. */
  function Apply(h: Handles, e: Event): Option<Handles>
  {
    match e
    case LaunchBrowser => if h == Closed then Some(Handles(true, false)) else None
    case OpenPage => if h == Handles(true, false) then Some(Handles(true, true)) else None
    case ClosePage => if h.page then Some(Handles(h.browser, false)) else None
    case CloseBrowser => if h == Handles(true, false) then Some(Closed) else None
    case Sleep(_) => if h == Closed then Some(h) else None
  }

  function Replay(log: seq<Event>, h: Handles): Option<Handles>
  {
    if log == [] then Some(h)
    else match Apply(h, log[0])
      case None => None
      case Some(h') => Replay(log[1..], h')
  }

  lemma {:induction false} ReplayAppend(a: seq<Event>, b: seq<Event>, h: Handles)
    ensures Replay(a + b, h) == (match Replay(a, h) case None => None case Some(h') => Replay(b, h'))
  {
    if a == [] {
      assert a + b == b;
    } else {
      assert (a + b)[0] == a[0];
      assert (a + b)[1..] == a[1..] + b;
      match Apply(h, a[0])
      case None =>
      case Some(h') => ReplayAppend(a[1..], b, h');
    }
  }

  /** Opens and closes of one attempt, as the code runs once newOptimizedPage
      (utils/browser.js) closes the browser it launched when the page set-up
      throws; see AttemptLogAsWritten for the code as it stands. */
  function AttemptLog(a: Attempt): seq<Event>
  {
    match a
    case LaunchFails(_) => []
    case PageFails(_) => [LaunchBrowser, CloseBrowser]
    case ConfigFails(_) => [LaunchBrowser, OpenPage, ClosePage, CloseBrowser]
    case ProtocolFails(_) => [LaunchBrowser, OpenPage, ClosePage, CloseBrowser]
    case Succeeds(_) => [LaunchBrowser, OpenPage, ClosePage, CloseBrowser]
  }

  /** Every attempt, whatever its outcome, closes exactly what it opened. */
  lemma AttemptLogClean(a: Attempt)
    ensures Replay(AttemptLog(a), Closed) == Some(Closed)
  {
    var open := Handles(true, false);
    assert Replay([CloseBrowser], open) == Some(Closed);
    assert Replay([ClosePage, CloseBrowser], Handles(true, true)) == Some(Closed);
    assert Replay([OpenPage, ClosePage, CloseBrowser], open) == Some(Closed);
  }

  /** A failure inside newOptimizedPage after the browser was launched. */
  predicate SetupFailure(a: Attempt)
  {
    a.PageFails? || a.ConfigFails?
  }

  /** The same attempt as written: a set-up failure leaves the launched
      browser (and the page, if it opened) with no handle in the controller,
      so nothing closes them. */
  function AttemptLogAsWritten(a: Attempt): seq<Event>
  {
    match a
    case PageFails(_) => [LaunchBrowser]
    case ConfigFails(_) => [LaunchBrowser, OpenPage]
    case _ => AttemptLog(a)
  }

  /** The leak: after either set-up failure a browser is still open, and the
      next attempt's launch happens with it open. */
  lemma SetupFailureLeaksBrowser(e: Error)
    ensures Replay(AttemptLogAsWritten(PageFails(e)), Closed) == Some(Handles(true, false))
    ensures Replay(AttemptLogAsWritten(ConfigFails(e)), Closed) == Some(Handles(true, true))
    ensures Replay(AttemptLogAsWritten(PageFails(e)) + AttemptLogAsWritten(PageFails(e)), Closed) == None
  {
    assert Replay([OpenPage], Handles(true, false)) == Some(Handles(true, true));
    ReplayAppend([LaunchBrowser], [LaunchBrowser], Closed);
  }

  // ---------------------------------------------------------------------------
  // The retry specification

  /** Number of attempts up to and including the first success, or all of them. */
  function UntilSuccess(outcomes: seq<Attempt>): (n: nat)
    ensures n <= |outcomes|
    ensures outcomes != [] ==> n >= 1
    ensures forall k :: 0 <= k < n - 1 ==> !outcomes[k].Succeeds?
    ensures n == |outcomes| || outcomes[n - 1].Succeeds?
    ensures 0 < n < |outcomes| ==> outcomes[n - 1].Succeeds?
  {
    if outcomes == [] then 0
    else if outcomes[0].Succeeds? then 1
    else 1 + UntilSuccess(outcomes[1..])
  }

  /** How many attempts `fetchCronograma(params, retries)` makes. */
  function Made(attempts: seq<Attempt>, retries: int): (n: nat)
    requires retries < |attempts|
    ensures retries < 0 ==> n == 0
    ensures retries >= 0 ==> 1 <= n <= retries + 1
    ensures forall k :: 0 <= k < n - 1 ==> !attempts[k].Succeeds?
    ensures n > 0 && !attempts[n - 1].Succeeds? ==> n == retries + 1
  {
    if retries < 0 then 0 else UntilSuccess(attempts[..retries + 1])
  }

  datatype FetchResult = Fetched(data: Json) | Thrown(err: Error)

  /** The result of `fetchCronograma`: the first success, or the last error,
      or the generic error when no attempt ran. */
  function FetchOutcome(attempts: seq<Attempt>, retries: int): FetchResult
    requires retries < |attempts|
  {
    var n := Made(attempts, retries);
    if n == 0 then Thrown(UnknownError)
    else if attempts[n - 1].Succeeds? then Fetched(attempts[n - 1].data)
    else Thrown(attempts[n - 1].err)
  }

  /** The backoff after the k-th failure (counting from 1) is 1000*k ms, and
      there is none after the failure that exhausts the retries. */
  function Backoff(k: nat, a: Attempt, retries: int): seq<Event>
  {
    if !a.Succeeds? && k < retries then [Sleep(1000 * (k + 1))] else []
  }

  /** The events of the first `n` attempts, in order. */
  function Trace(attempts: seq<Attempt>, n: nat, retries: int): seq<Event>
    requires n <= |attempts|
  {
    if n == 0 then []
    else
      var k := n - 1;
      Trace(attempts, k, retries) + AttemptLog(attempts[k]) + Backoff(k, attempts[k], retries)
  }

  /** At every attempt boundary nothing is open: each browser and page was
      closed exactly once, before the next attempt, sleep or return. */
  lemma {:induction false} TraceLeavesNothingOpen(attempts: seq<Attempt>, n: nat, retries: int)
    requires n <= |attempts|
    ensures Replay(Trace(attempts, n, retries), Closed) == Some(Closed)
  {
    if n != 0 {
      var k := n - 1;
      TraceLeavesNothingOpen(attempts, k, retries);
      AttemptLogClean(attempts[k]);
      ReplayAppend(Trace(attempts, k, retries), AttemptLog(attempts[k]), Closed);
      ReplayAppend(Trace(attempts, k, retries) + AttemptLog(attempts[k]), Backoff(k, attempts[k], retries), Closed);
    }
  }

  /** The events of the first `n` attempts with newOptimizedPage as written. */
  function TraceAsWritten(attempts: seq<Attempt>, n: nat, retries: int): seq<Event>
    requires n <= |attempts|
  {
    if n == 0 then []
    else
      var k := n - 1;
      TraceAsWritten(attempts, k, retries) + AttemptLogAsWritten(attempts[k]) + Backoff(k, attempts[k], retries)
  }

  /** A replay that failed, or that left a browser open. */
  predicate Broken(r: Option<Handles>)
  {
    r.None? || r.value.browser
  }

  /** One attempt as written plus its backoff, replayed from a clean state or
      from one with a browser left open: it stays clean only when it starts
      clean and is no set-up failure; otherwise the replay fails or leaves a
      browser open. */
  lemma AsWrittenStep(h: Handles, a: Attempt, b: seq<Event>)
    requires h == Closed || h.browser
    requires |b| <= 1 && (b != [] ==> b[0].Sleep?)
    ensures h == Closed && !SetupFailure(a) ==> Replay(AttemptLogAsWritten(a) + b, h) == Some(Closed)
    ensures h.browser || SetupFailure(a) ==> Broken(Replay(AttemptLogAsWritten(a) + b, h))
  {
    var l := AttemptLogAsWritten(a);
    ReplayAppend(l, b, h);
    if h.browser {
      if l != [] {
        assert Apply(h, l[0]).None?;
      }
    } else if SetupFailure(a) {
      SetupFailureLeaksBrowser(a.err);
    } else {
      AttemptLogClean(a);
    }
  }

  /** The trace as written grows by one attempt and its backoff. */
  lemma TraceAsWrittenSnoc(attempts: seq<Attempt>, k: nat, retries: int)
    requires k < |attempts|
    ensures var r := Replay(TraceAsWritten(attempts, k, retries), Closed);
            var rest := AttemptLogAsWritten(attempts[k]) + Backoff(k, attempts[k], retries);
            Replay(TraceAsWritten(attempts, k + 1, retries), Closed) == if r.None? then None else Replay(rest, r.value)
  {
    var t := TraceAsWritten(attempts, k, retries);
    var l, b := AttemptLogAsWritten(attempts[k]), Backoff(k, attempts[k], retries);
    assert TraceAsWritten(attempts, k + 1, retries) == t + (l + b) by {
      assert t + l + b == t + (l + b);
    }
    ReplayAppend(t, l + b, Closed);
  }

  /** None of the first `n` attempts failed inside newOptimizedPage. */
  predicate NoSetupFailure(attempts: seq<Attempt>, n: nat)
    requires n <= |attempts|
  {
    forall k :: 0 <= k < n ==> !SetupFailure(attempts[k])
  }

  /** With the code as written, the first set-up failure breaks the replay:
      from then on a browser stays open, or the next launch or sleep happens
      with it open. Without one, the trace is clean. */
  lemma {:induction false} TraceAsWrittenState(attempts: seq<Attempt>, n: nat, retries: int)
    requires n <= |attempts|
    ensures NoSetupFailure(attempts, n) ==>
              Replay(TraceAsWritten(attempts, n, retries), Closed) == Some(Closed)
    ensures !NoSetupFailure(attempts, n) ==> Broken(Replay(TraceAsWritten(attempts, n, retries), Closed))
  {
    if n != 0 {
      var k := n - 1;
      TraceAsWrittenState(attempts, k, retries);
      TraceAsWrittenSnoc(attempts, k, retries);
      assert NoSetupFailure(attempts, n) <==> NoSetupFailure(attempts, k) && !SetupFailure(attempts[k]);
      var r := Replay(TraceAsWritten(attempts, k, retries), Closed);
      if r.Some? {
        AsWrittenStep(r.value, attempts[k], Backoff(k, attempts[k], retries));
      }
    }
  }

  /** The loop as written leaves nothing open exactly when none of the
      attempts made failed inside newOptimizedPage. */
  lemma {:induction false} TraceAsWrittenClean(attempts: seq<Attempt>, n: nat, retries: int)
    requires n <= |attempts|
    ensures (Replay(TraceAsWritten(attempts, n, retries), Closed) == Some(Closed)) <==>
              NoSetupFailure(attempts, n)
  {
    TraceAsWrittenState(attempts, n, retries);
  }

  function Sleeps(log: seq<Event>): seq<int>
  {
    if log == [] then []
    else (if log[0].Sleep? then [log[0].ms] else []) + Sleeps(log[1..])
  }

  lemma {:induction false} SleepsAppend(a: seq<Event>, b: seq<Event>)
    ensures Sleeps(a + b) == Sleeps(a) + Sleeps(b)
  {
    if a == [] {
      assert a + b == b;
    } else {
      assert (a + b)[0] == a[0];
      assert (a + b)[1..] == a[1..] + b;
      SleepsAppend(a[1..], b);
    }
  }

  /** 1000, 2000, ..., 1000*n. */
  function LinearBackoff(n: nat): (s: seq<int>)
    ensures |s| == n && forall i :: 0 <= i < n ==> s[i] == 1000 * (i + 1)
  {
    if n == 0 then [] else LinearBackoff(n - 1) + [1000 * n]
  }

  /** When the attempts made so far all failed, the sleeps were 1000, 2000, ...
      ms, one per failure except a failure that ends the retries. */
  lemma {:induction false} TraceSleeps(attempts: seq<Attempt>, n: nat, retries: int)
    requires n <= |attempts| && n <= retries + 1
    requires forall k :: 0 <= k < n ==> !attempts[k].Succeeds?
    ensures Sleeps(Trace(attempts, n, retries)) == LinearBackoff(if n <= retries || n == 0 then n else n - 1)
  {
    if n != 0 {
      var k := n - 1;
      TraceSleeps(attempts, k, retries);
      SleepsAppend(Trace(attempts, k, retries), AttemptLog(attempts[k]));
      SleepsAppend(Trace(attempts, k, retries) + AttemptLog(attempts[k]), Backoff(k, attempts[k], retries));
      AttemptLogSleepsNot(attempts[k]);
    }
  }

  /** An attempt itself never sleeps. */
  lemma AttemptLogSleepsNot(a: Attempt)
    ensures Sleeps(AttemptLog(a)) == []
  {
    assert Sleeps([CloseBrowser]) == [];
    assert Sleeps([ClosePage, CloseBrowser]) == [];
    assert Sleeps([OpenPage, ClosePage, CloseBrowser]) == [];
  }

  /** With every attempt failing, exactly retries + 1 attempts are made and the
      last attempt's error is thrown; retries = 1 (the default) gives two. */
  lemma AllFailuresExhaustRetries(attempts: seq<Attempt>, retries: int)
    requires 0 <= retries < |attempts|
    requires forall k :: 0 <= k <= retries ==> !attempts[k].Succeeds?
    ensures Made(attempts, retries) == retries + 1
    ensures FetchOutcome(attempts, retries) == Thrown(attempts[retries].err)
    ensures retries == 1 ==> Made(attempts, retries) == 2
  {
  }

  /** The loop stops at the first success and returns its payload. */
  lemma StopsAtFirstSuccess(attempts: seq<Attempt>, retries: int, m: nat)
    requires m <= retries < |attempts|
    requires forall k :: 0 <= k < m ==> !attempts[k].Succeeds?
    requires attempts[m].Succeeds?
    ensures Made(attempts, retries) == m + 1
    ensures FetchOutcome(attempts, retries) == Fetched(attempts[m].data)
  {
  }

  // ---------------------------------------------------------------------------
  // fetchCronograma (lines 6-75)

  /** One pass of the loop body up to the catch block: newOptimizedPage()
      (launch a browser, open and configure a page), the portal protocol, and
      the closing of whatever was opened on the success or the failure path. */
  method RunAttempt(outcome: Attempt) returns (failure: Option<Error>, ghost events: seq<Event>)
    ensures failure == if outcome.Succeeds? then None else Some(outcome.err)
    ensures events == AttemptLog(outcome)
  {
    var browser, page := false, false;
    events := [];
    match outcome {
      case LaunchFails(e) =>
        failure := Some(e);
      case PageFails(e) =>
        // the corrected newOptimizedPage closes its browser, then rethrows
        events := [LaunchBrowser, CloseBrowser];
        failure := Some(e);
      case ConfigFails(e) =>
        // the corrected newOptimizedPage closes its page and browser, then rethrows
        events := [LaunchBrowser, OpenPage, ClosePage, CloseBrowser];
        failure := Some(e);
      case ProtocolFails(e) =>
        events := [LaunchBrowser, OpenPage];
        browser, page := true, true;
        failure := Some(e);
      case Succeeds(_) =>
        events := [LaunchBrowser, OpenPage];
        browser, page := true, true;
        failure := None;
    }
    if failure.None? {
      // success path: page.close(), browser.close(), then return data
      events := events + [ClosePage, CloseBrowser];
      return;
    }
    // catch block: close the page and the browser if they were obtained
    if page {
      events := events + [ClosePage];
    }
    if browser {
      events := events + [CloseBrowser];
    }
  }

  /** One more attempt extends the trace by its events and, after a failure
      with retries left, by the backoff sleep. */
  lemma LoopStep(attempts: seq<Attempt>, attempt: nat, retries: int)
    requires attempt < |attempts|
    ensures attempts[attempt].Succeeds? || attempt + 1 > retries ==>
              Trace(attempts, attempt + 1, retries)
                == Trace(attempts, attempt, retries) + AttemptLog(attempts[attempt])
    ensures !attempts[attempt].Succeeds? && attempt + 1 <= retries ==>
              Trace(attempts, attempt + 1, retries)
                == Trace(attempts, attempt, retries) + AttemptLog(attempts[attempt]) + [Sleep(1000 * (attempt + 1))]
  {
    if attempts[attempt].Succeeds? || attempt + 1 > retries {
      assert Backoff(attempt, attempts[attempt], retries) == [];
      assert Trace(attempts, attempt, retries) + AttemptLog(attempts[attempt]) + []
        == Trace(attempts, attempt, retries) + AttemptLog(attempts[attempt]);
    }
  }

  /** Leaving the loop with the first success, attempt number m. */
  lemma SuccessExit(attempts: seq<Attempt>, retries: int, m: nat)
    requires m <= retries < |attempts|
    requires forall k :: 0 <= k < m ==> !attempts[k].Succeeds?
    requires attempts[m].Succeeds?
    ensures Made(attempts, retries) == m + 1
    ensures FetchOutcome(attempts, retries) == Fetched(attempts[m].data)
    ensures Replay(Trace(attempts, m + 1, retries), Closed) == Some(Closed)
  {
    StopsAtFirstSuccess(attempts, retries, m);
    TraceLeavesNothingOpen(attempts, m + 1, retries);
  }

  /** Leaving the loop after `made` failures with no attempts left. */
  lemma ExhaustedExit(attempts: seq<Attempt>, retries: int, made: nat)
    requires retries < |attempts|
    requires if retries < 0 then made == 0 else made == retries + 1
    requires forall k :: 0 <= k < made ==> !attempts[k].Succeeds?
    ensures Made(attempts, retries) == made
    ensures FetchOutcome(attempts, retries) == if made == 0 then Thrown(UnknownError) else Thrown(attempts[made - 1].err)
    ensures Replay(Trace(attempts, made, retries), Closed) == Some(Closed)
  {
    if retries >= 0 {
      AllFailuresExhaustRetries(attempts, retries);
    }
    TraceLeavesNothingOpen(attempts, made, retries);
  }

  /** The `while (attempt <= retries)` loop. Attempt number k (from 0) ends as
      `attempts[k]`. It stops with the payload of the first success, or with
      the last error once `retries + 1` attempts have failed; `made` is the
      number of attempts it ran. */
  method RetryLoop(retries: int, attempts: seq<Attempt>)
    returns (data: Option<Json>, lastErr: Option<Error>, ghost made: nat, ghost log: seq<Event>)
    requires retries < |attempts|
    ensures made <= |attempts|
    ensures data.Some? ==>
              && 1 <= made <= retries + 1 && attempts[made - 1].Succeeds?
              && data.value == attempts[made - 1].data
              && forall k :: 0 <= k < made - 1 ==> !attempts[k].Succeeds?
    ensures data.None? ==>
              && made == (if retries < 0 then 0 else retries + 1)
              && (forall k :: 0 <= k < made ==> !attempts[k].Succeeds?)
              && lastErr == if made == 0 then None else Some(attempts[made - 1].err)
    ensures log == Trace(attempts, made, retries)
  {
    var attempt: nat := 0;
    lastErr := None;
    log := [];
    while attempt <= retries
      invariant attempt <= |attempts| && (retries >= 0 ==> attempt <= retries + 1)
      invariant retries < 0 ==> attempt == 0
      invariant forall k :: 0 <= k < attempt ==> !attempts[k].Succeeds?
      invariant lastErr == if attempt == 0 then None else Some(attempts[attempt - 1].err)
      invariant log == Trace(attempts, attempt, retries)
      decreases retries + 1 - attempt
    {
      var outcome := attempts[attempt];
      var failure, events := RunAttempt(outcome);
      LoopStep(attempts, attempt, retries);
      log := log + events;
      if failure.None? {
        return Some(outcome.data), lastErr, attempt + 1, log;
      }
      lastErr := failure;
      attempt := attempt + 1;
      if attempt > retries {
        break;
      }
      log := log + [Sleep(1000 * attempt)];
    }
    data, made := None, attempt;
  }

  /** `fetchCronograma(params, retries)`: the payload of the first success, or
      the last error (the generic one when no attempt ran). */
  method FetchCronograma(params: Params, retries: int, attempts: seq<Attempt>)
    returns (r: FetchResult, ghost log: seq<Event>)
    requires retries < |attempts|
    ensures r == FetchOutcome(attempts, retries)
    ensures log == Trace(attempts, Made(attempts, retries), retries)
    ensures Replay(log, Closed) == Some(Closed)
  {
    var data, lastErr;
    ghost var made;
    data, lastErr, made, log := RetryLoop(retries, attempts);
    if data.Some? {
      SuccessExit(attempts, retries, made - 1);
      return Fetched(data.value), log;
    }
    ExhaustedExit(attempts, retries, made);
    r := Thrown(if lastErr.Some? then lastErr.value else UnknownError);
  }

  // ---------------------------------------------------------------------------
  // getCronograma (lines 77-106)

  /** The JSON response: status 200 with the payload, or status 500 with the
      error's message. */
  datatype Response =
    | Served(cached: bool, params: Params, data: Json)
    | ServerError(message: string)
  {
    function Status(): int
    {
      if Served? then 200 else 500
    }
  }

  /** `fetchCronograma(params)` is called with its default of one retry. */
  const DefaultRetries := 1

  /** The POST handler. `now` is the clock at the cache read, `later` at the
      cache write; `attempts` are the outcomes of the fetch attempts. */
  method GetCronograma(cache: Cache, body: Option<Body>, defaults: Params, now: int, later: int,
                       attempts: seq<Attempt>)
    returns (resp: Response, key: string, ghost log: seq<Event>)
    requires cache.Valid() && DefaultRetries < |attempts|
    modifies cache`store
    ensures cache.Valid()
    ensures key == CacheKey(ResolveParams(body, defaults))
    // a truthy cached payload is served without fetching
    ensures key in old(cache.store) && !Expired(old(cache.store)[key], now, cache.ttl)
            && Truthy(old(cache.store)[key].data) ==>
              resp == Served(true, ResolveParams(body, defaults), old(cache.store)[key].data)
              && log == [] && cache.store == old(cache.store)
    // otherwise exactly one fetch runs; a success is stored and served, an error becomes a 500
    ensures !(key in old(cache.store) && !Expired(old(cache.store)[key], now, cache.ttl)
              && Truthy(old(cache.store)[key].data)) ==>
              var evicted := if key in old(cache.store) && Expired(old(cache.store)[key], now, cache.ttl)
                             then old(cache.store) - {key} else old(cache.store);
              log == Trace(attempts, Made(attempts, DefaultRetries), DefaultRetries)
              && match FetchOutcome(attempts, DefaultRetries)
                 case Fetched(d) =>
                   resp == Served(false, ResolveParams(body, defaults), d)
                   && cache.store == evicted[key := Entry(later, d)]
                 case Thrown(e) =>
                   resp == ServerError(e.message) && cache.store == evicted
    // the status is 500 exactly when the fetch ran and every attempt made failed
    ensures resp.Status() == 500 <==>
              !(key in old(cache.store) && !Expired(old(cache.store)[key], now, cache.ttl)
                && Truthy(old(cache.store)[key].data))
              && FetchOutcome(attempts, DefaultRetries).Thrown?
  {
    var params := ResolveParams(body, defaults);
    key := params.programa + "-" + params.sede + "-" + params.recurso;
    var cached := cache.GetFromCache(key, now);
    if cached.Some? && Truthy(cached.value) {
      resp, log := Served(true, params, cached.value), [];
      return;
    }
    var result;
    result, log := FetchCronograma(params, DefaultRetries, attempts);
    match result {
      case Fetched(data) =>
        cache.SetCache(key, data, later);
        resp := Served(false, params, data);
      case Thrown(e) =>
        resp := ServerError(e.message);
    }
  }
}
