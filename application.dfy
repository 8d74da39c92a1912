/**
 * The application (src/application.ts): global middleware registration, the
 * recursive onion dispatch, the routing decision, response finalisation
 * (`respond`), request handling and the default error logger.
 */
module Koa {
  import opened Wrappers
  import opened Utils
  import opened Http
  import opened Routing
  import opened RequestContext

  // ---------------------------------------------------------------------------
  // Middleware and the onion dispatch

  /** Where a middleware throws: not at all, before it would call `next`, or after `next` returned. */
  datatype Failure = NoFailure | FailsBeforeNext(thrown: Thrown) | FailsAfterNext(thrown: Thrown)

  /**
   * A middleware: records `before`, calls `next` when `callsNext`, records `after`,
   * and may throw at one of the two points.
   */
  datatype Middleware = Middleware(before: int, callsNext: bool, after: int, failure: Failure)

  /** What a request observably runs: middleware markers, the call of `route`, the handler invoked. */
  datatype Event = Before(index: nat, marker: int) | After(index: nat, marker: int) | Routed | HandlerRan(id: nat)

  /** A run of (part of) the pipeline: its trace, and the rejection it ends with, if any. */
  datatype Run = Run(trace: seq<Event>, failure: Option<Thrown>)

  /** Middleware `m` calls `next` before anything can stop it. */
  predicate CallsNext(m: Middleware) {
    m.callsNext && !m.failure.FailsBeforeNext?
  }

  /**
   * `dispatch(i)`: runs middleware `i` with `next` bound to `dispatch(i + 1)`;
   * past the last middleware it is `route`, whose run is given.
   */
  function Dispatch(mws: seq<Middleware>, i: nat, route: Run): (r: Run)
    ensures i < |mws| ==> r.trace != [] && r.trace[0] == Before(i, mws[i].before)
    ensures i < |mws| && r.failure.None? ==> r.trace[|r.trace| - 1] == After(i, mws[i].after)
    ensures i < |mws| && !CallsNext(mws[i]) ==>
      Routed !in r.trace && r.failure == (if mws[i].failure == NoFailure then None else Some(mws[i].failure.thrown))
    decreases |mws| - i
  {
    if i >= |mws| then route
    else
      var m := mws[i];
      var entered := [Before(i, m.before)];
      if m.failure.FailsBeforeNext? then Run(entered, Some(m.failure.thrown))
      else
        var inner := if m.callsNext then Dispatch(mws, i + 1, route) else Run([], None);
        if inner.failure.Some? then Run(entered + inner.trace, inner.failure)
        else
          var done := entered + inner.trace + [After(i, m.after)];
          if m.failure.FailsAfterNext? then Run(done, Some(m.failure.thrown)) else Run(done, None)
  }

  /** The `before` events of middleware `i..`, in order. */
  function Befores(mws: seq<Middleware>, i: nat): seq<Event>
    decreases |mws| - i
  {
    if i >= |mws| then [] else [Before(i, mws[i].before)] + Befores(mws, i + 1)
  }

  /** The `after` events of middleware `i..`, innermost first. */
  function Afters(mws: seq<Middleware>, i: nat): seq<Event>
    decreases |mws| - i
  {
    if i >= |mws| then [] else Afters(mws, i + 1) + [After(i, mws[i].after)]
  }

  predicate WellBehaved(mws: seq<Middleware>, i: nat) {
    forall k :: i <= k < |mws| ==> mws[k].callsNext && mws[k].failure == NoFailure
  }

  /**
   * Onion order: when every middleware calls `next` and does not throw, the trace
   * is before_i … before_n-1, the route's trace, then after_n-1 … after_i; a
   * rejection of the route skips every `after` and is the pipeline's rejection.
   */
  lemma {:induction false} Onion(mws: seq<Middleware>, i: nat, route: Run)
    requires i <= |mws| && WellBehaved(mws, i)
    ensures Dispatch(mws, i, route) ==
      Run(Befores(mws, i) + route.trace + (if route.failure.None? then Afters(mws, i) else []), route.failure)
    decreases |mws| - i
  {
    if i < |mws| {
      Onion(mws, i + 1, route);
      var tail := if route.failure.None? then Afters(mws, i + 1) else [];
      assert [Before(i, mws[i].before)] + (Befores(mws, i + 1) + route.trace + tail)
          == Befores(mws, i) + route.trace + tail;
      if route.failure.None? {
        assert [Before(i, mws[i].before)] + (Befores(mws, i + 1) + route.trace + Afters(mws, i + 1)) + [After(i, mws[i].after)]
            == Befores(mws, i) + route.trace + Afters(mws, i);
      }
    }
  }

  /** Every middleware from `i` up to (not including) `k` called `next`. */
  predicate Reaches(mws: seq<Middleware>, i: nat, k: nat)
    requires k <= |mws|
  {
    forall j :: i <= j < k ==> CallsNext(mws[j])
  }

  predicate IsMiddlewareEvent(e: Event) {
    e.Before? || e.After?
  }

  /** Middleware `k` is entered exactly when every middleware before it called `next`. */
  lemma {:induction false} Entered(mws: seq<Middleware>, i: nat, route: Run, k: nat)
    requires i <= k < |mws|
    requires forall e :: e in route.trace ==> !IsMiddlewareEvent(e)
    ensures Before(k, mws[k].before) in Dispatch(mws, i, route).trace <==> Reaches(mws, i, k)
    decreases |mws| - i
  {
    var m := mws[i];
    var t := Dispatch(mws, i, route).trace;
    if k > i {
      if CallsNext(m) {
        Entered(mws, i + 1, route, k);
        var inner := Dispatch(mws, i + 1, route).trace;
        assert t == [Before(i, m.before)] + inner || t == [Before(i, m.before)] + inner + [After(i, m.after)];
        assert Reaches(mws, i, k) <==> Reaches(mws, i + 1, k);
      } else {
        assert t == [Before(i, m.before)] || t == [Before(i, m.before)] + [After(i, m.after)];
        assert !Reaches(mws, i, k) by { assert !CallsNext(mws[i]); }
      }
    }
  }

  /**
   * The pipeline adds no events but the middleware markers: the route's events
   * appear exactly when every middleware called `next`.
   */
  lemma {:induction false} RouteEvents(mws: seq<Middleware>, i: nat, route: Run)
    requires i <= |mws|
    ensures var t := Dispatch(mws, i, route).trace;
      && (forall e :: e in t && !IsMiddlewareEvent(e) ==> e in route.trace && Reaches(mws, i, |mws|))
      && (Reaches(mws, i, |mws|) ==> forall e :: e in route.trace ==> e in t)
    decreases |mws| - i
  {
    if i < |mws| {
      var m := mws[i];
      var t := Dispatch(mws, i, route).trace;
      if CallsNext(m) {
        RouteEvents(mws, i + 1, route);
        var inner := Dispatch(mws, i + 1, route).trace;
        assert t == [Before(i, m.before)] + inner || t == [Before(i, m.before)] + inner + [After(i, m.after)];
        assert Reaches(mws, i, |mws|) <==> Reaches(mws, i + 1, |mws|);
      } else {
        assert t == [Before(i, m.before)] || t == [Before(i, m.before)] + [After(i, m.after)];
        assert !Reaches(mws, i, |mws|) by { assert !CallsNext(mws[i]); }
      }
    }
  }

  /** The route runs exactly when every middleware called `next`. */
  lemma RouteRunsIffAllCallNext(mws: seq<Middleware>, route: Run)
    requires Routed in route.trace && forall e :: e in route.trace ==> !IsMiddlewareEvent(e)
    ensures Routed in Dispatch(mws, 0, route).trace <==> Reaches(mws, 0, |mws|)
  {
    RouteEvents(mws, 0, route);
  }

  /** The `before` events of middleware `i..k-1`, in order. */
  function Entries(mws: seq<Middleware>, i: nat, k: nat): (r: seq<Event>)
    requires k <= |mws|
    ensures forall e :: e in r ==> e.Before?
    decreases k - i
  {
    if i >= k then [] else [Before(i, mws[i].before)] + Entries(mws, i + 1, k)
  }

  /**
   * A rejection of `dispatch(k)` reached through middleware `i..k-1` is the
   * rejection of `dispatch(i)`: those middleware record their `before` and
   * nothing else, whatever they would have thrown after `next`.
   */
  lemma {:induction false} FailurePropagates(mws: seq<Middleware>, i: nat, route: Run, k: nat)
    requires i <= k <= |mws| && Reaches(mws, i, k)
    requires Dispatch(mws, k, route).failure.Some?
    ensures Dispatch(mws, i, route).failure == Dispatch(mws, k, route).failure
    ensures Dispatch(mws, i, route).trace == Entries(mws, i, k) + Dispatch(mws, k, route).trace
    decreases k - i
  {
    if i < k {
      assert CallsNext(mws[i]);
      FailurePropagates(mws, i + 1, route, k);
      var t := Dispatch(mws, k, route).trace;
      assert [Before(i, mws[i].before)] + (Entries(mws, i + 1, k) + t) == Entries(mws, i, k) + t;
    }
  }

  /** Every middleware event that `dispatch(k)` records belongs to middleware `k` or later. */
  lemma {:induction false} EventsFrom(mws: seq<Middleware>, k: nat, route: Run)
    requires k <= |mws|
    requires forall e :: e in route.trace ==> !IsMiddlewareEvent(e)
    ensures forall e :: e in Dispatch(mws, k, route).trace && IsMiddlewareEvent(e) ==> e.index >= k
    decreases |mws| - k
  {
    if k < |mws| {
      var m := mws[k];
      var t := Dispatch(mws, k, route).trace;
      if CallsNext(m) {
        EventsFrom(mws, k + 1, route);
        var inner := Dispatch(mws, k + 1, route).trace;
        assert t == [Before(k, m.before)] + inner || t == [Before(k, m.before)] + inner + [After(k, m.after)];
      } else {
        assert t == [Before(k, m.before)] || t == [Before(k, m.before)] + [After(k, m.after)];
      }
    }
  }

  /**
   * The first failure wins: when middleware `k` is reached and throws (after
   * `next` only if everything inside it succeeded), its error is the pipeline's
   * rejection and no enclosing middleware's `after` runs; a throw before `next`
   * also skips its own `after`.
   */
  lemma FirstFailureWins(mws: seq<Middleware>, i: nat, route: Run, k: nat)
    requires i <= k < |mws| && Reaches(mws, i, k)
    requires forall e :: e in route.trace ==> !IsMiddlewareEvent(e)
    requires mws[k].failure != NoFailure
    requires mws[k].failure.FailsAfterNext? && mws[k].callsNext ==> Dispatch(mws, k + 1, route).failure.None?
    ensures var r := Dispatch(mws, i, route);
      && r.failure == Some(mws[k].failure.thrown)
      && (forall j, marker :: i <= j < k ==> After(j, marker) !in r.trace)
      && (mws[k].failure.FailsBeforeNext? ==> forall marker :: After(k, marker) !in r.trace)
  {
    FailurePropagates(mws, i, route, k);
    EventsFrom(mws, k, route);
    var r := Dispatch(mws, i, route);
    forall j, marker | i <= j < k ensures After(j, marker) !in r.trace {
      assert After(j, marker) !in Entries(mws, i, k);
    }
    if mws[k].failure.FailsBeforeNext? {
      assert Dispatch(mws, k, route).trace == [Before(k, mws[k].before)];
    }
  }

  /** The markers a trace records, in order. */
  function Markers(t: seq<Event>): seq<int> {
    if t == [] then []
    else (if IsMiddlewareEvent(t[0]) then [t[0].marker] else []) + Markers(t[1..])
  }

  lemma {:induction false} MarkersAppend(a: seq<Event>, b: seq<Event>)
    ensures Markers(a + b) == Markers(a) + Markers(b)
  {
    if a != [] {
      assert (a + b)[0] == a[0] && (a + b)[1..] == a[1..] + b;
      MarkersAppend(a[1..], b);
    } else {
      assert a + b == b;
    }
  }

  /** Three middleware recording 1, 2, 3 before and 6, 5, 4 after `next`, outermost first. */
  const ThreeLayers: seq<Middleware> :=
    [Middleware(1, true, 6, NoFailure), Middleware(2, true, 5, NoFailure), Middleware(3, true, 4, NoFailure)]

  lemma ThreeLayerMarkers()
    ensures Markers(Befores(ThreeLayers, 0)) == [1, 2, 3] && Markers(Afters(ThreeLayers, 0)) == [4, 5, 6]
  {
    var b := Befores(ThreeLayers, 0);
    var a := Afters(ThreeLayers, 0);
    assert b == [Before(0, 1), Before(1, 2), Before(2, 3)];
    assert a == [After(2, 4), After(1, 5), After(0, 6)];
    assert Markers([Before(2, 3)]) == [3] by { assert [Before(2, 3)][1..] == []; }
    assert Markers([Before(1, 2), Before(2, 3)]) == [2, 3] by { assert [Before(1, 2), Before(2, 3)][1..] == [Before(2, 3)]; }
    assert Markers(b) == [1, 2, 3] by { assert b[1..] == [Before(1, 2), Before(2, 3)]; }
    assert Markers([After(0, 6)]) == [6] by { assert [After(0, 6)][1..] == []; }
    assert Markers([After(1, 5), After(0, 6)]) == [5, 6] by { assert [After(1, 5), After(0, 6)][1..] == [After(0, 6)]; }
    assert Markers(a) == [4, 5, 6] by { assert a[1..] == [After(1, 5), After(0, 6)]; }
  }

  /** The three layers around a route that records nothing give exactly 1 … 6. */
  lemma ThreeLayerExample(route: Run)
    requires route.failure.None? && Markers(route.trace) == []
    ensures Markers(Dispatch(ThreeLayers, 0, route).trace) == [1, 2, 3, 4, 5, 6]
  {
    Onion(ThreeLayers, 0, route);
    var b := Befores(ThreeLayers, 0);
    MarkersAppend(b, route.trace);
    MarkersAppend(b + route.trace, Afters(ThreeLayers, 0));
    ThreeLayerMarkers();
  }

  // ---------------------------------------------------------------------------
  // The routing decision

  /** `ctx.path.slice(1)`. */
  function RequestPath(path: string): string {
    if |path| == 0 then "" else path[1..]
  }

  /**
   * `route(ctx)`: the trie's `match` (given as `matcher`, naming the defined path it
   * resolves to) picks a node; its handler for the request method runs, if any.
   */
  function RouteRun(nodes: map<string, Node>, matcher: string -> Option<string>, verb: string, path: string): (r: Run)
    ensures r.trace != [] && r.trace[0] == Routed
    ensures HandlerCalls(r.trace) <= 1
    ensures r.failure.Some? ==> HandlerCalls(r.trace) == 1
  {
    var found := matcher(RequestPath(path));
    if found.None? || found.value !in nodes || verb !in nodes[found.value].handlers then Run([Routed], None)
    else
      var h := nodes[found.value].handlers[verb];
      var trace := [Routed, HandlerRan(h.id)];
      assert trace[1..][1..] == [];
      Run(trace, h.throws)
  }

  /** The number of handler invocations in a trace. */
  function HandlerCalls(t: seq<Event>): nat {
    if t == [] then 0 else (if t[0].HandlerRan? then 1 else 0) + HandlerCalls(t[1..])
  }

  /** No match, or no handler for the method: nothing runs and no error arises. */
  lemma RouteNotFound(nodes: map<string, Node>, matcher: string -> Option<string>, verb: string, path: string)
    requires var found := matcher(RequestPath(path));
      found.None? || found.value !in nodes || verb !in nodes[found.value].handlers
    ensures RouteRun(nodes, matcher, verb, path) == Run([Routed], None)
    ensures HandlerCalls(RouteRun(nodes, matcher, verb, path).trace) == 0
  {
    assert [Routed][1..] == [];
  }

  /** A matched handler runs exactly once and its synchronous throw becomes the route's rejection. */
  lemma RouteInvokesOnce(nodes: map<string, Node>, matcher: string -> Option<string>, verb: string, path: string)
    requires var found := matcher(RequestPath(path));
      found.Some? && found.value in nodes && verb in nodes[found.value].handlers
    ensures var h := nodes[matcher(RequestPath(path)).value].handlers[verb];
      var r := RouteRun(nodes, matcher, verb, path);
      && HandlerRan(h.id) in r.trace && HandlerCalls(r.trace) == 1 && r.failure == h.throws
  {
    var r := RouteRun(nodes, matcher, verb, path);
    var h := nodes[matcher(RequestPath(path)).value].handlers[verb];
    assert r.trace == [Routed, HandlerRan(h.id)];
    assert HandlerCalls([HandlerRan(h.id)]) == 1 by { assert [HandlerRan(h.id)][1..] == []; }
    assert r.trace[1..] == [HandlerRan(h.id)];
  }

  /** A route bound after the application started serving is found by the next request. */
  lemma RouteSeesLaterBinding(nodes: map<string, Node>, matcher: string -> Option<string>, full: string,
                              verb: string, handler: Handler, path: string)
    requires Bind(nodes, full, verb, handler).Success?
    requires matcher(RequestPath(path)) == Some(full)
    ensures RouteRun(Bind(nodes, full, verb, handler).value, matcher, verb, path)
      == Run([Routed, HandlerRan(handler.id)], handler.throws)
  {
  }

  // ---------------------------------------------------------------------------
  // Response finalisation

  /** The headers `ctx.body = null` removes. */
  const StrippedHeaders: set<string> := {ContentType, ContentLength, TransferEncoding}

  /**
   * `respond(ctx)` as a function of the response state: the decision table,
   * first match wins. At most one write is added, the status is never changed,
   * and a rejection can only be a serialisation error.
   */
  function RespondEffect(s: ResponseState, verb: string, httpVersionMajor: int, env: Platform)
    : (r: Result<ResponseState, Thrown>)
    ensures r.Success? ==>
      && |s.output| <= |r.value.output| <= |s.output| + 1
      && r.value.output[..|s.output|] == s.output
      && r.value.status == s.status && r.value.respond == s.respond
    ensures r.Success? && |r.value.output| == |s.output| ==> r.value == s
    ensures r.Failure? ==> env.stringify(s.body).Failure? && r.error == Raised(env.stringify(s.body).error)
  {
    if s.respond == Bool(false) || !s.writable then Success(s)
    else if s.status in EmptyBodyStatuses then
      Success(End(s.(body := Null, headers := Without(s.headers, StrippedHeaders)), None))
    else if verb == "HEAD" then
      if !s.headersSent && IsJSON(s.body) then
        match env.stringify(s.body)
        case Failure(e) => Failure(Raised(e))
        case Success(json) => Success(End(s.(headers := SetHeader(s.headers, ContentLength, Count(env.byteLength(json)))), None))
      else Success(End(s, None))
    else if s.body == Null || s.body == Undefined then
      var text := StatusBodyText(s, httpVersionMajor, env.statuses);
      var typed := if s.headersSent then s
                   else s.(headers := SetHeader(SetHeader(s.headers, ContentType, Text("text")),
                                                ContentLength, Count(env.byteLength(text))));
      Success(End(typed, Some(TextBody(text))))
    else if s.body.Buffer? then Success(End(s, Some(BytesBody(s.body.bytes))))
    else if s.body.Str? then Success(End(s, Some(TextBody(s.body.s))))
    else if IsStream(s.body) then Success(s.(output := s.output + [Piped(s.body)]))
    else
      match env.stringify(s.body)
      case Failure(e) => Failure(Raised(e))
      case Success(json) =>
        var sized := if s.headersSent then s else s.(headers := SetHeader(s.headers, ContentLength, Count(env.byteLength(json))));
        Success(End(sized, Some(TextBody(json))))
  }

  /**
   * The text sent for an empty body: the bare status code on HTTP/2 and later,
   * which carry no reason phrase (section 8.1.2.4 of RFC 7540), else `ctx.message`
   * or, when that is empty, the code. It is never empty, and the code it falls
   * back to reads back as the status.
   */
  function StatusBodyText(s: ResponseState, httpVersionMajor: int, table: StatusTable): (text: string)
    ensures text != ""
    ensures httpVersionMajor < 2 && StatusMessage(s, table) != "" ==> text == StatusMessage(s, table)
    ensures (httpVersionMajor >= 2 || StatusMessage(s, table) == "") && s.status >= 0 ==>
      AllDigits(text) && DigitsValue(text) == s.status
  {
    DecimalStringRoundTrip(s.status);
    if httpVersionMajor >= 2 then DecimalString(s.status)
    else
      var message := StatusMessage(s, table);
      if message != "" then message else DecimalString(s.status)
  }

  /** Bypassed or no longer writable: nothing is touched. */
  lemma RespondSkips(s: ResponseState, verb: string, v: int, env: Platform)
    requires s.respond == Bool(false) || !s.writable
    ensures RespondEffect(s, verb, v, env) == Success(s)
  {
  }

  /**
   * A no-body status clears the body, strips the content type, length and
   * transfer encoding, keeps every other header, and ends without payload, for
   * HEAD requests too.
   */
  lemma RespondEmptyStatus(s: ResponseState, verb: string, v: int, env: Platform)
    requires s.respond != Bool(false) && s.writable && s.status in EmptyBodyStatuses
    ensures var r := RespondEffect(s, verb, v, env);
      && r.Success? && r.value.body == Null && r.value.output == s.output + [Ended(None)]
      && (forall n :: n in StrippedHeaders ==> Lookup(r.value.headers, n) == None)
      && (forall n :: n !in StrippedHeaders ==> Lookup(r.value.headers, n) == Lookup(s.headers, n))
  {
    var r := RespondEffect(s, verb, v, env);
    forall n ensures n in StrippedHeaders ==> Lookup(r.value.headers, n) == None {
      LookupWithout(s.headers, StrippedHeaders, n);
    }
    forall n ensures n !in StrippedHeaders ==> Lookup(r.value.headers, n) == Lookup(s.headers, n) {
      LookupWithout(s.headers, StrippedHeaders, n);
    }
  }

  /** HEAD ends without payload; the length is the JSON size exactly when headers are unsent and the body is JSON. */
  lemma RespondHead(s: ResponseState, v: int, env: Platform)
    requires s.respond != Bool(false) && s.writable && s.status !in EmptyBodyStatuses
    ensures var r := RespondEffect(s, "HEAD", v, env);
      var sizes := !s.headersSent && IsJSON(s.body);
      && (sizes && env.stringify(s.body).Failure? ==> r == Failure(Raised(env.stringify(s.body).error)))
      && (!(sizes && env.stringify(s.body).Failure?) ==>
            && r.Success? && r.value.output == s.output + [Ended(None)] && r.value.body == s.body
            && (sizes ==>
                  Lookup(r.value.headers, ContentLength) == Some(Count(env.byteLength(env.stringify(s.body).value))))
            && (!sizes ==> r.value.headers == s.headers))
  {
    if !s.headersSent && IsJSON(s.body) && env.stringify(s.body).Success? {
      LookupSetHeader(s.headers, ContentLength, Count(env.byteLength(env.stringify(s.body).value)), ContentLength);
    }
  }

  /**
   * An absent body becomes the status text; type `text` and the length are set
   * only while the headers are unsent.
   */
  lemma RespondEmptyBody(s: ResponseState, verb: string, v: int, env: Platform)
    requires s.respond != Bool(false) && s.writable && s.status !in EmptyBodyStatuses && verb != "HEAD"
    requires s.body == Null || s.body == Undefined
    ensures var r := RespondEffect(s, verb, v, env);
      var message := StatusMessage(s, env.statuses);
      var text := if v >= 2 then DecimalString(s.status) else if message != "" then message else DecimalString(s.status);
      && r.Success? && r.value.output == s.output + [Ended(Some(TextBody(text)))]
      && (!s.headersSent ==>
            Lookup(r.value.headers, ContentType) == Some(Text("text")) &&
            Lookup(r.value.headers, ContentLength) == Some(Count(env.byteLength(text))))
      && (s.headersSent ==> r.value.headers == s.headers)
  {
    var text := StatusBodyText(s, v, env.statuses);
    var h1 := SetHeader(s.headers, ContentType, Text("text"));
    LookupSetHeader(s.headers, ContentType, Text("text"), ContentLength);
    LookupSetHeader(h1, ContentLength, Count(env.byteLength(text)), ContentType);
  }

  /**
   * Without an explicit message, an HTTP/1.x response with no body carries the
   * status table's phrase: an unmatched request answers `Not Found`.
   */
  lemma RespondStatusPhrase(s: ResponseState, verb: string, v: int, env: Platform)
    requires s.respond != Bool(false) && s.writable && s.status !in EmptyBodyStatuses && verb != "HEAD"
    requires s.body == Null || s.body == Undefined
    requires v < 2 && s.message == "" && s.status in env.statuses && env.statuses[s.status] != ""
    ensures RespondEffect(s, verb, v, env).value.output == s.output + [Ended(Some(TextBody(env.statuses[s.status])))]
  {
  }

  /** A buffer or string body is sent verbatim, headers untouched. */
  lemma RespondVerbatim(s: ResponseState, verb: string, v: int, env: Platform)
    requires s.respond != Bool(false) && s.writable && s.status !in EmptyBodyStatuses && verb != "HEAD"
    requires s.body.Buffer? || s.body.Str?
    ensures var r := RespondEffect(s, verb, v, env);
      && r.Success? && r.value.headers == s.headers
      && r.value.output == s.output + [Ended(Some(if s.body.Buffer? then BytesBody(s.body.bytes) else TextBody(s.body.s)))]
  {
  }

  /**
   * A stream body is piped into the response, which stays writable; `respond`
   * called again would pipe it a second time.
   */
  lemma RespondStream(s: ResponseState, verb: string, v: int, env: Platform)
    requires s.respond != Bool(false) && s.writable && s.status !in EmptyBodyStatuses && verb != "HEAD"
    requires IsStream(s.body)
    ensures var r := RespondEffect(s, verb, v, env);
      && r == Success(s.(output := s.output + [Piped(s.body)]))
      && r.value.writable && r.value.headers == s.headers
      && RespondEffect(r.value, verb, v, env) == Success(s.(output := s.output + [Piped(s.body), Piped(s.body)]))
  {
    assert s.output + [Piped(s.body)] + [Piped(s.body)] == s.output + [Piped(s.body), Piped(s.body)];
  }

  /**
   * Any other non-stream body is sent as its JSON text, with the length set only
   * while the headers are unsent; a serialisation error is the rejection.
   */
  lemma RespondJson(s: ResponseState, verb: string, v: int, env: Platform)
    requires s.respond != Bool(false) && s.writable && s.status !in EmptyBodyStatuses && verb != "HEAD"
    requires s.body != Null && s.body != Undefined && !s.body.Buffer? && !s.body.Str? && !IsStream(s.body)
    ensures var r := RespondEffect(s, verb, v, env);
      match env.stringify(s.body)
      case Failure(e) => r == Failure(Raised(e))
      case Success(json) =>
        && r.Success? && r.value.output == s.output + [Ended(Some(TextBody(json)))]
        && (!s.headersSent ==> Lookup(r.value.headers, ContentLength) == Some(Count(env.byteLength(json))))
        && (s.headersSent ==> r.value.headers == s.headers)
  {
    match env.stringify(s.body)
    case Failure(e) =>
    case Success(json) =>
      LookupSetHeader(s.headers, ContentLength, Count(env.byteLength(json)), ContentLength);
  }

  /**
   * Every write `respond` makes ends the response except a pipe; once it has
   * ended the response (or is bypassed), responding again writes nothing more.
   */
  lemma RespondOnce(s: ResponseState, verb: string, v: int, env: Platform)
    requires RespondEffect(s, verb, v, env).Success?
    ensures var s' := RespondEffect(s, verb, v, env).value;
      && (|s'.output| > |s.output| && s'.output[|s.output|].Ended? ==> !s'.writable)
      && (|s'.output| > |s.output| && s'.output[|s.output|].Piped? ==> IsStream(s.body) && s'.writable)
      && (!s'.writable || s'.respond == Bool(false) ==> RespondEffect(s', verb, v, env) == Success(s'))
  {
  }

  /** `respond(ctx)` on the context; on a rejection nothing has been changed. */
  method Respond(ctx: Context, env: Platform) returns (r: Outcome<Thrown>)
    modifies ctx
    ensures var e := RespondEffect(old(ctx.Snapshot()), ctx.requestMethod, ctx.httpVersionMajor, env);
      && (r.Pass? <==> e.Success?)
      && (e.Success? ==> ctx.Snapshot() == e.value)
      && (e.Failure? ==> r.error == e.error && ctx.Snapshot() == old(ctx.Snapshot()))
    ensures ctx.cookieJar == old(ctx.cookieJar)
  {
    // Bypassed, or already finished: nothing to do.
    if ctx.respond == Bool(false) || !ctx.writable {
      return Pass;
    }
    var body := ctx.body;
    var code := ctx.status;

    // A no-body status: drop the body and the headers that describe it.
    if code in EmptyBodyStatuses {
      ctx.body := Null;
      ghost var h := ctx.headers;
      ctx.headers := RemoveHeader(ctx.headers, ContentType);
      ctx.headers := RemoveHeader(ctx.headers, ContentLength);
      WithoutTwice(h, {ContentType}, ContentLength);
      assert {ContentType} + {ContentLength} == {ContentType, ContentLength};
      ctx.headers := RemoveHeader(ctx.headers, TransferEncoding);
      WithoutTwice(h, {ContentType, ContentLength}, TransferEncoding);
      assert {ContentType, ContentLength} + {TransferEncoding} == StrippedHeaders;
      assert ctx.headers == Without(h, StrippedHeaders);
      ctx.output, ctx.headersSent, ctx.writable := ctx.output + [Ended(None)], true, false;
      return Pass;
    }

    if ctx.requestMethod == "HEAD" {
      if !ctx.headersSent && IsJSON(body) {
        var json := env.stringify(body);
        if json.Failure? {
          return Fail(Raised(json.error));
        }
        ctx.headers := SetHeader(ctx.headers, ContentLength, Count(env.byteLength(json.value)));
      }
      ctx.output, ctx.headersSent, ctx.writable := ctx.output + [Ended(None)], true, false;
      return Pass;
    }

    // No body: send the status text.
    if body == Null || body == Undefined {
      var text;
      if ctx.httpVersionMajor >= 2 {
        text := DecimalString(code);
      } else {
        var message := StatusMessage(ctx.Snapshot(), env.statuses);
        text := if message != "" then message else DecimalString(code);
      }
      if !ctx.headersSent {
        ctx.headers := SetHeader(ctx.headers, ContentType, Text("text"));
        ctx.headers := SetHeader(ctx.headers, ContentLength, Count(env.byteLength(text)));
      }
      ctx.output, ctx.headersSent, ctx.writable := ctx.output + [Ended(Some(TextBody(text)))], true, false;
      return Pass;
    }

    // Buffers and strings are written as they are; streams are piped.
    if body.Buffer? {
      ctx.output, ctx.headersSent, ctx.writable := ctx.output + [Ended(Some(BytesBody(body.bytes)))], true, false;
      return Pass;
    }
    if body.Str? {
      ctx.output, ctx.headersSent, ctx.writable := ctx.output + [Ended(Some(TextBody(body.s)))], true, false;
      return Pass;
    }
    if IsStream(body) {
      ctx.output := ctx.output + [Piped(body)];
      return Pass;
    }

    // Anything else is serialised.
    var json := env.stringify(body);
    if json.Failure? {
      return Fail(Raised(json.error));
    }
    if !ctx.headersSent {
      ctx.headers := SetHeader(ctx.headers, ContentLength, Count(env.byteLength(json.value)));
    }
    ctx.output, ctx.headersSent, ctx.writable := ctx.output + [Ended(Some(TextBody(json.value)))], true, false;
    r := Pass;
  }

  // ---------------------------------------------------------------------------
  // Request handling

  /** The response and the emitted errors that `ctx.onerror(t)` leaves. */
  function ErrorOutcome(s: ResponseState, t: Thrown, env: Platform): (ResponseState, seq<Err>)
    requires 500 in env.statuses
  {
    match HandleError(s, t, env)
    case Ignored => (s, [])
    case Delegated(emitted, response, _) => (response, [emitted])
  }

  /** The rejection that reaches `ctx.onerror`, if any: the pipeline's, else the one from `respond`. */
  function Rejection(s: ResponseState, failure: Option<Thrown>, verb: string, v: int, env: Platform): Option<Thrown> {
    if failure.Some? then failure
    else
      match RespondEffect(s, verb, v, env)
      case Success(_) => None
      case Failure(t) => Some(t)
  }

  /**
   * What follows the pipeline: on success `respond`, and any rejection, including
   * one from `respond`, goes to `ctx.onerror`. Without a rejection the response is
   * the one `respond` gives and nothing is emitted. A rejection other than `null`
   * or `undefined` emits exactly its (wrapped) error; while the response is open
   * it is then ended with the resolved status and the error text, and once the
   * response is out it is left alone. At most one write is made.
   */
  function Settle(s: ResponseState, failure: Option<Thrown>, verb: string, v: int, env: Platform)
    : (r: (ResponseState, seq<Err>))
    requires 500 in env.statuses
    ensures var rejected := Rejection(s, failure, verb, v, env);
      rejected.None? ==> RespondEffect(s, verb, v, env).Success? && r == (RespondEffect(s, verb, v, env).value, [])
    ensures var rejected := Rejection(s, failure, verb, v, env);
      rejected == Some(NonError(Null)) || rejected == Some(NonError(Undefined)) ==> r == (s, [])
    ensures var rejected := Rejection(s, failure, verb, v, env);
      rejected.Some? && rejected != Some(NonError(Null)) && rejected != Some(NonError(Undefined)) ==>
        var e := Wrap(rejected.value, env);
        var sent := s.headersSent || !s.writable;
        && r.1 == [if sent then e.(headerSent := true) else e]
        && (sent ==> r.0 == s)
        && (!sent ==>
              && r.0.status == ResolveStatus(e, env.statuses) && !r.0.writable
              && r.0.output == s.output + [Ended(Some(TextBody(ErrorText(e, r.0.status, env.statuses))))])
    ensures |s.output| <= |r.0.output| <= |s.output| + 1 && r.0.output[..|s.output|] == s.output
  {
    match failure
    case Some(t) => ErrorOutcome(s, t, env)
    case None =>
      match RespondEffect(s, verb, v, env)
      case Success(s') => (s', [])
      case Failure(t) => ErrorOutcome(s, t, env)
  }

  /** A rejection with `null` or `undefined` is dropped: nothing is written and nothing is emitted. */
  lemma NullishRejectionLeavesResponseOpen(s: ResponseState, verb: string, v: int, env: Platform)
    requires 500 in env.statuses
    ensures Settle(s, Some(NonError(Null)), verb, v, env) == (s, [])
    ensures Settle(s, Some(NonError(Undefined)), verb, v, env) == (s, [])
  {
  }

  /** The non-function argument of `use` and friends. */
  datatype Arg<T> = Function(f: T) | NotAFunction(v: Value)

  /** Application options: each absent when `None`. */
  datatype AppOptions = AppOptions(
    env: Option<string>, keys: Option<seq<string>>, proxy: Option<bool>, subdomainOffset: Option<int>)

  predicate IsLineTerminator(c: char) {
    c == '\n' || c == '\r' || c == '\U{2028}' || c == '\U{2029}'
  }

  /** `msg.replace(/^/gm, '  ')`: two spaces at the start and after every line terminator. */
  function IndentLines(msg: string): string {
    "  " + IndentAfterBreaks(msg)
  }

  function IndentAfterBreaks(s: string): string {
    if s == [] then []
    else (if IsLineTerminator(s[0]) then [s[0]] + "  " else [s[0]]) + IndentAfterBreaks(s[1..])
  }

  /** Removes the two spaces after each line terminator: the inverse of `IndentAfterBreaks`. */
  function UnindentAfterBreaks(t: string): string {
    if t == [] then []
    else if IsLineTerminator(t[0]) && |t| >= 3 && t[1..3] == "  " then [t[0]] + UnindentAfterBreaks(t[3..])
    else [t[0]] + UnindentAfterBreaks(t[1..])
  }

  /** Indenting adds exactly the two-space prefixes: removing them gives the message back. */
  lemma {:induction false} IndentRoundTrip(msg: string)
    ensures IndentLines(msg)[..2] == "  "
    ensures UnindentAfterBreaks(IndentLines(msg)[2..]) == msg
  {
    IndentAfterBreaksRoundTrip(msg);
    assert IndentLines(msg)[2..] == IndentAfterBreaks(msg);
  }

  lemma {:induction false} IndentAfterBreaksRoundTrip(s: string)
    ensures UnindentAfterBreaks(IndentAfterBreaks(s)) == s
  {
    if s != [] {
      IndentAfterBreaksRoundTrip(s[1..]);
      var t := IndentAfterBreaks(s);
      if IsLineTerminator(s[0]) {
        assert t == [s[0]] + "  " + IndentAfterBreaks(s[1..]);
        assert t[1..3] == "  " && t[3..] == IndentAfterBreaks(s[1..]);
      } else {
        assert t == [s[0]] + IndentAfterBreaks(s[1..]);
        assert t[1..] == IndentAfterBreaks(s[1..]);
      }
      assert [s[0]] + s[1..] == s;
    }
  }

  /**
   * The default error listener: a non-error throws a TypeError; a 404 or exposed
   * error, or a silent application, logs nothing; otherwise the stack (or the
   * error's string form) is logged indented, between two empty lines.
   */
  function ErrorLog(t: Thrown, silent: bool, env: Platform): (r: Result<seq<string>, Err>)
    ensures r.Failure? <==> t.NonError?
    ensures r.Failure? ==> r.error.name == "TypeError"
    ensures t.Raised? && (silent || t.err.expose) ==> r == Success([])
    ensures r.Success? && r.value != [] ==> |r.value| == 3 && r.value[0] == "" && r.value[2] == ""
  {
    match t
    case NonError(v) => Failure(NewError("TypeError", "non-error thrown: " + FormatJson(env, v)))
    case Raised(e) =>
      if LooselyEqualsNumber(e.status, 404) || e.expose then Success([])
      else if silent then Success([])
      else Success(["", IndentLines(if e.stack != "" then e.stack else ErrorString(e)), ""])
  }

  /** Which errors are logged, and what is logged. */
  lemma ErrorLogDecision(e: Err, silent: bool, env: Platform)
    ensures var r := ErrorLog(Raised(e), silent, env);
      && r.Success?
      && (r.value == [] <==> LooselyEqualsNumber(e.status, 404) || e.expose || silent)
      && (r.value != [] ==>
            |r.value| == 3 && r.value[0] == "" && r.value[2] == "" &&
            UnindentAfterBreaks(r.value[1][2..]) == (if e.stack != "" then e.stack else ErrorString(e)))
  {
    IndentRoundTrip(if e.stack != "" then e.stack else ErrorString(e));
  }

  /**
   * The application-level listener sees the error as thrown: an `ENOENT` error
   * without a status is logged although its response is a 404.
   */
  lemma EnoentLoggedThough404(s: ResponseState, e: Err, env: Platform)
    requires 500 in env.statuses && ValidStatus(env.statuses, Num(404))
    requires e.code == "ENOENT" && e.status == Undefined && !e.expose && s.writable && !s.headersSent
    ensures var r := HandleError(s, Raised(e), env);
      && r.Delegated? && r.response.status == 404
      && ErrorLog(Raised(r.emitted), false, env).Success?
      && ErrorLog(Raised(r.emitted), false, env).value != []
  {
  }

  class Application {
    var middleware: seq<Middleware>
    const rootRouter: Router
    const emitter: Emitter
    var proxy: bool
    var subdomainOffset: int
    var env: string
    var keys: Option<seq<string>>
    var silent: bool
    var stderr: seq<string>    // what `console.error` wrote, one entry per call

    /** `new Application(options)`; `nodeEnv` is `process.env.NODE_ENV`, empty when unset. */
    constructor (options: AppOptions, nodeEnv: string)
      ensures proxy == (options.proxy == Some(true))
      ensures subdomainOffset ==
        if options.subdomainOffset.Some? && options.subdomainOffset.value != 0 then options.subdomainOffset.value else 2
      ensures env ==
        if options.env.Some? && options.env.value != "" then options.env.value
        else if nodeEnv != "" then nodeEnv else "development"
      ensures keys == options.keys
      ensures middleware == [] && !silent && stderr == []
      ensures fresh(rootRouter) && fresh(rootRouter.trie) && fresh(emitter)
      ensures rootRouter.paths == [] && rootRouter.trie.nodes == map[] && emitter.errors == []
    {
      proxy := options.proxy == Some(true);
      subdomainOffset := if options.subdomainOffset.Some? && options.subdomainOffset.value != 0
                         then options.subdomainOffset.value else 2;
      env := if options.env.Some? && options.env.value != "" then options.env.value
             else if nodeEnv != "" then nodeEnv else "development";
      keys := options.keys;
      middleware := [];
      silent := false;
      stderr := [];
      var trie := new Trie();
      rootRouter := new Router(trie, []);
      emitter := new Emitter();
    }

    /** `use(fn)`: appends a middleware and returns the application; a non-function is a TypeError. */
    method Use(arg: Arg<Middleware>) returns (r: Result<Application, Err>)
      modifies this`middleware
      ensures arg.Function? ==> middleware == old(middleware) + [arg.f] && r == Success(this)
      ensures arg.NotAFunction? ==>
        middleware == old(middleware) && r == Failure(NewError("TypeError", "middleware must be a function!"))
    {
      if arg.NotAFunction? {
        return Failure(NewError("TypeError", "middleware must be a function!"));
      }
      middleware := middleware + [arg.f];
      r := Success(this);
    }

    /** `createRouter(prefix)`: one leading `/` is stripped here and one more by `subRoute`. */
    method CreateRouter(prefix: string) returns (r: Router)
      modifies rootRouter.trie
      ensures fresh(r) && r.trie == rootRouter.trie && r.paths == rootRouter.paths + [StripSlash(StripSlash(prefix))]
      ensures var full := Join(rootRouter.paths + [StripSlash(StripSlash(prefix))]); var defined := Defined(old(rootRouter.trie.nodes), full);
        rootRouter.trie.nodes == defined[full := defined[full].(router := Some(r))]
    {
      var stripped := StripSlash(prefix);
      r := rootRouter.SubRoute(stripped);
    }

    /**
     * `handleRequest(ctx)`: status 404, then the onion pipeline ending in `route`,
     * then `respond` on success or `ctx.onerror` on any rejection. Returns the trace.
     */
    method HandleRequest(ctx: Context, matcher: string -> Option<string>, env: Platform) returns (trace: seq<Event>)
      requires ctx.app == emitter && 500 in env.statuses
      modifies ctx, emitter
      ensures var run := Dispatch(middleware, 0, RouteRun(rootRouter.trie.nodes, matcher, ctx.requestMethod, ctx.path));
        var settled := Settle(old(ctx.Snapshot()).(status := 404), run.failure, ctx.requestMethod, ctx.httpVersionMajor, env);
        && trace == run.trace
        && ctx.Snapshot() == settled.0
        && emitter.errors == old(emitter.errors) + settled.1
    {
      ctx.status := 404;
      var route := RouteRun(rootRouter.trie.nodes, matcher, ctx.requestMethod, ctx.path);
      var run := Dispatch(middleware, 0, route);
      trace := run.trace;
      if run.failure.Some? {
        var _ := ctx.OnError(run.failure.value, env);
        return;
      }
      var responded := Respond(ctx, env);
      if responded.Fail? {
        var _ := ctx.OnError(responded.error, env);
      }
    }

    /** `onerror(err)`: the default error listener, writing to `stderr`. */
    method OnError(t: Thrown, env: Platform) returns (r: Outcome<Err>)
      modifies this`stderr
      ensures var log := ErrorLog(t, silent, env);
        && (log.Success? ==> r == Pass && stderr == old(stderr) + log.value)
        && (log.Failure? ==> r == Fail(log.error) && stderr == old(stderr))
    {
      if t.NonError? {
        return Fail(NewError("TypeError", "non-error thrown: " + FormatJson(env, t.v)));
      }
      var e := t.err;
      if LooselyEqualsNumber(e.status, 404) || e.expose {
        return Pass;
      }
      if silent {
        return Pass;
      }
      var msg := if e.stack != "" then e.stack else ErrorString(e);
      stderr := stderr + [""];
      stderr := stderr + [IndentLines(msg)];
      stderr := stderr + [""];
      r := Pass;
    }
  }
}
