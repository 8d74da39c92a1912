/**
 * The request context (src/context.ts): the error-to-response mapping of
 * `Context.onerror` and the lazily cached cookie jar. The context holds the
 * response state that the core reads and writes; `app.emit('error', …)` is
 * recorded on the application's event emitter.
 */
module RequestContext {
  import opened Wrappers
  import opened Utils
  import opened Http

  /** One write to the response: `res.end(payload)`, or `stream.pipe(res)`. */
  datatype Payload = TextBody(text: string) | BytesBody(bytes: seq<bv8>)
  datatype Sent = Ended(payload: Option<Payload>) | Piped(stream: Value)

  /** The response side of a context, as one value. */
  datatype ResponseState = ResponseState(
    respond: Value,        // ctx.respond (Undefined unless a middleware set it)
    status: int,           // res.statusCode
    message: string,       // res.statusMessage, empty while unset
    body: Value,           // ctx.body
    headers: Headers,      // the response header list
    headersSent: bool,     // res.headersSent
    writable: bool,        // ctx.writable
    output: seq<Sent>)     // every write to the response, in order

  /** `res.end(payload)`: the headers go out and the response is no longer writable. */
  function End(s: ResponseState, payload: Option<Payload>): (r: ResponseState)
    ensures r.headersSent && !r.writable && r.output == s.output + [Ended(payload)]
  {
    s.(output := s.output + [Ended(payload)], headersSent := true, writable := false)
  }

  /**
   * The `ctx.message` getter: the explicit status message, else the status
   * table's phrase for the status, else empty.
   */
  function StatusMessage(s: ResponseState, table: StatusTable): (m: string)
    ensures s.message != "" ==> m == s.message
    ensures s.message == "" && s.status in table ==> m == table[s.status]
    ensures m == "" ==> s.message == "" && (s.status !in table || table[s.status] == "")
  {
    if s.message != "" then s.message
    else if s.status in table then table[s.status]
    else ""
  }

  /** The outcome of `ctx.onerror(err)`: nothing, or the error emitted, the new response and the error as left. */
  datatype ErrorHandling =
    | Ignored
    | Delegated(emitted: Err, response: ResponseState, err: Err)

  /** A thrown value that is not an `Error` is replaced by one describing it. */
  function Wrap(t: Thrown, env: Platform): Err {
    match t
    case Raised(e) => e
    case NonError(v) => NewError("Error", "non-error thrown: " + FormatJson(env, v))
  }

  predicate ValidStatus(table: StatusTable, status: Value) {
    status.Num? && status.n in table && table[status.n] != ""
  }

  /** `ENOENT` gives 404; a status that is not a number, or not in the table, gives 500. */
  function ResolveStatus(e: Err, table: StatusTable): (r: int)
    ensures r == 500 || (r in table && table[r] != "")
    ensures e.code == "ENOENT" && 404 in table && table[404] != "" ==> r == 404
    ensures e.code != "ENOENT" && r != 500 ==> e.status == Num(r)
  {
    var status := if e.code == "ENOENT" then Num(404) else e.status;
    if ValidStatus(table, status) then status.n else 500
  }

  /** The text written for an error: its message when exposed, else the reason phrase of its status. */
  function ErrorText(e: Err, code: int, table: StatusTable): string
    requires code in table
  {
    if e.expose then e.message else table[code]
  }

  /** `ctx.onerror(err)` as a function of the response state before the call. */
  function HandleError(s: ResponseState, t: Thrown, env: Platform): (r: ErrorHandling)
    requires 500 in env.statuses
    ensures r.Ignored? <==> t == NonError(Null) || t == NonError(Undefined)
  {
    if t == NonError(Null) || t == NonError(Undefined) then Ignored
    else
      var wrapped := Wrap(t, env);
      var alreadySent := s.headersSent || !s.writable;
      var e := if alreadySent then wrapped.(headerSent := true) else wrapped;
      if alreadySent then Delegated(e, s, e)
      else
        var code := ResolveStatus(e, env.statuses);
        var msg := ErrorText(e, code, env.statuses);
        var headers := SetHeader(SetAll([], e.headers), ContentType, Text("text"));
        var response := End(s.(status := code, headers := SetHeader(headers, ContentLength, Count(env.byteLength(msg)))),
                            Some(TextBody(msg)));
        Delegated(e, response, e.(status := Num(code)))
  }

  /** The application's event emitter, as far as `emit('error', err, ctx)` goes. */
  class Emitter {
    var errors: seq<Err>

    constructor ()
      ensures errors == []
    {
      errors := [];
    }

    method Emit(e: Err)
      modifies this
      ensures errors == old(errors) + [e]
    {
      errors := errors + [e];
    }
  }

  /** A cookie jar, built from the application's keys and whether the request is secure. */
  class CookieJar {
    const keys: Option<seq<string>>
    const secure: bool

    constructor (keys: Option<seq<string>>, secure: bool)
      ensures this.keys == keys && this.secure == secure
    {
      this.keys := keys;
      this.secure := secure;
    }
  }

  /** `res.getHeaderNames().forEach(name => res.removeHeader(name))`: removes every header. */
  method RemoveAllHeaders(headers: Headers) returns (h: Headers)
    ensures h == []
  {
    h := headers;
    var names := Names(h);
    ghost var gone: set<string> := {};
    WithoutNothing(headers);
    var i := 0;
    while i < |names|
      invariant 0 <= i <= |names|
      invariant h == Without(headers, gone)
      invariant forall m :: 0 <= m < i ==> names[m] in gone
    {
      WithoutTwice(headers, gone, names[i]);
      h := RemoveHeader(h, names[i]);
      gone := gone + {names[i]};
      i := i + 1;
    }
    WithoutAllNames(headers, gone);
  }

  /** `ctx.set(fields)`: sets each field in order. */
  method SetHeaders(headers: Headers, fields: seq<(string, string)>) returns (h: Headers)
    ensures h == SetAll(headers, fields)
  {
    h := headers;
    var j := 0;
    while j < |fields|
      invariant 0 <= j <= |fields|
      invariant h == SetAll(headers, fields[..j])
    {
      assert fields[..j + 1][..j] == fields[..j];
      h := SetHeader(h, fields[j].0, Text(fields[j].1));
      j := j + 1;
    }
    assert fields[..j] == fields;
  }

  class Context {
    const app: Emitter
    const keys: Option<seq<string>>   // app.keys
    const secure: bool                // request.secure
    const requestMethod: string       // request.method
    const path: string                // request.path
    const httpVersionMajor: int       // req.httpVersionMajor

    var respond: Value
    var status: int
    var message: string
    var body: Value
    var headers: Headers
    var headersSent: bool
    var writable: bool
    var output: seq<Sent>
    var cookieJar: CookieJar?

    /** A fresh context: node's default status 200, no body, no headers, nothing sent. */
    constructor (app: Emitter, keys: Option<seq<string>>, secure: bool, requestMethod: string, path: string,
                 httpVersionMajor: int)
      ensures this.app == app && this.keys == keys && this.secure == secure
      ensures this.requestMethod == requestMethod && this.path == path && this.httpVersionMajor == httpVersionMajor
      ensures Snapshot() == ResponseState(Undefined, 200, "", Undefined, [], false, true, [])
      ensures cookieJar == null
    {
      this.app := app;
      this.keys := keys;
      this.secure := secure;
      this.requestMethod := requestMethod;
      this.path := path;
      this.httpVersionMajor := httpVersionMajor;
      respond, status, message, body := Undefined, 200, "", Undefined;
      headers, headersSent, writable, output := [], false, true, [];
      cookieJar := null;
    }

    function Snapshot(): ResponseState
      reads this
    {
      ResponseState(respond, status, message, body, headers, headersSent, writable, output)
    }

    /** The `cookies` getter: the jar is created on first access and the same one returned afterwards. */
    method Cookies() returns (jar: CookieJar)
      modifies this`cookieJar
      ensures old(cookieJar) != null ==> jar == old(cookieJar)
      ensures old(cookieJar) == null ==> fresh(jar) && jar.keys == keys && jar.secure == secure
      ensures cookieJar == jar
    {
      if cookieJar == null {
        cookieJar := new CookieJar(keys, secure);
      }
      jar := cookieJar;
    }

    /** The `cookies` setter replaces the cached jar. */
    method SetCookies(jar: CookieJar?)
      modifies this`cookieJar
      ensures cookieJar == jar
    {
      cookieJar := jar;
    }

    /**
     * `ctx.onerror(err)`: emits the error to the application, then, unless the
     * response has already gone out, removes every header, applies the error's
     * headers, forces a text type and ends the response with the error text.
     */
    method OnError(t: Thrown, env: Platform) returns (final: Option<Err>)
      requires 500 in env.statuses
      modifies this, app
      ensures var r := HandleError(old(Snapshot()), t, env);
        && (r.Ignored? ==> Snapshot() == old(Snapshot()) && app.errors == old(app.errors) && final == None)
        && (r.Delegated? ==> Snapshot() == r.response && app.errors == old(app.errors) + [r.emitted]
                             && final == Some(r.err))
      ensures cookieJar == old(cookieJar)
    {
      if t == NonError(Null) || t == NonError(Undefined) {
        return None;
      }
      var err := match t
        case Raised(e) => e
        case NonError(v) => NewError("Error", "non-error thrown: " + FormatJson(env, v));
      var headerSent := false;
      if headersSent || !writable {
        headerSent := true;
        err := err.(headerSent := true);
      }
      app.Emit(err);
      if headerSent {
        return Some(err);
      }

      var h := RemoveAllHeaders(headers);
      h := SetHeaders(h, err.headers);

      // The error text is always sent as text.
      h := SetHeader(h, ContentType, Text("text"));

      var code := ResolveStatus(err, env.statuses);
      err := err.(status := Num(code));
      var msg := if err.expose then err.message else env.statuses[code];
      status := code;
      headers := SetHeader(h, ContentLength, Count(env.byteLength(msg)));
      output, headersSent, writable := output + [Ended(Some(TextBody(msg)))], true, false;
      final := Some(err);
    }
  }

  // ---------------------------------------------------------------------------
  // Properties of the error-to-response mapping.

  /** A non-error value is wrapped in an `Error` whose message shows its JSON form. */
  lemma NonErrorWrapped(s: ResponseState, v: Value, env: Platform)
    requires 500 in env.statuses && v != Null && v != Undefined
    ensures var r := HandleError(s, NonError(v), env);
      r.Delegated? && r.emitted.name == "Error" && r.emitted.message == "non-error thrown: " + FormatJson(env, v)
  {
  }

  /** Once the response is out, the error is emitted marked `headerSent` and nothing else changes. */
  lemma AlreadySentOnlyEmits(s: ResponseState, t: Thrown, env: Platform)
    requires 500 in env.statuses && t != NonError(Null) && t != NonError(Undefined)
    requires s.headersSent || !s.writable
    ensures var r := HandleError(s, t, env);
      r.Delegated? && r.response == s && r.emitted.headerSent && r.err == r.emitted
  {
  }

  /**
   * The emitted error, a thrown `Error` or the one wrapping a non-Error, still
   * carries the status it was thrown with; the rewrite comes after.
   */
  lemma EmittedBeforeStatusRewrite(s: ResponseState, t: Thrown, env: Platform)
    requires 500 in env.statuses && t != NonError(Null) && t != NonError(Undefined)
    ensures var r := HandleError(s, t, env);
      r.Delegated? && r.emitted.status == Wrap(t, env).status && r.emitted.message == Wrap(t, env).message
  {
  }

  /** Status resolution: `ENOENT` is 404, an invalid status 500, a valid status is kept. */
  lemma StatusResolution(e: Err, table: StatusTable)
    requires 500 in table
    ensures e.code == "ENOENT" && ValidStatus(table, Num(404)) ==> ResolveStatus(e, table) == 404
    ensures e.code != "ENOENT" && ValidStatus(table, e.status) ==> ResolveStatus(e, table) == e.status.n
    ensures e.code != "ENOENT" && !ValidStatus(table, e.status) ==> ResolveStatus(e, table) == 500
    ensures ResolveStatus(e, table) in table
  {
  }

  /** Looking a name up in pairs with distinct names finds its value. */
  lemma {:induction false} LookupAsText(pairs: seq<(string, string)>, i: nat)
    requires DistinctNames(pairs) && i < |pairs|
    ensures Lookup(AsText(pairs), pairs[i].0) == Some(Text(pairs[i].1))
  {
    if i > 0 {
      LookupAsText(pairs[1..], i - 1);
    }
  }

  /**
   * The response an error produces while the response is still open: the resolved
   * status, the error text as the only payload, exactly the error's headers plus a
   * text content type and the text's byte length, and no longer writable.
   */
  lemma ErrorResponse(s: ResponseState, t: Thrown, env: Platform)
    requires 500 in env.statuses && !s.headersSent && s.writable
    requires t != NonError(Null) && t != NonError(Undefined) && DistinctNames(Wrap(t, env).headers)
    ensures var r := HandleError(s, t, env);
      var e := Wrap(t, env);
      var code := ResolveStatus(e, env.statuses);
      var msg := if e.expose then e.message else env.statuses[code];
      && r.Delegated?
      && r.response.status == code && r.err.status == Num(code)
      && r.response.output == s.output + [Ended(Some(TextBody(msg)))]
      && !r.response.writable
      && Lookup(r.response.headers, ContentType) == Some(Text("text"))
      && Lookup(r.response.headers, ContentLength) == Some(Count(env.byteLength(msg)))
      && (forall i :: 0 <= i < |e.headers| && e.headers[i].0 != ContentType && e.headers[i].0 != ContentLength ==>
            Lookup(r.response.headers, e.headers[i].0) == Some(Text(e.headers[i].1)))
      && (forall n :: n in Names(r.response.headers) ==>
            n == ContentType || n == ContentLength || n in Names(AsText(e.headers)))
  {
    var e := Wrap(t, env);
    var code := ResolveStatus(e, env.statuses);
    var msg := if e.expose then e.message else env.statuses[code];
    SetAllFresh(e.headers);
    var h0 := AsText(e.headers);
    var h1 := SetHeader(h0, ContentType, Text("text"));
    var h2 := SetHeader(h1, ContentLength, Count(env.byteLength(msg)));
    LookupSetHeader(h1, ContentLength, Count(env.byteLength(msg)), ContentType);
    LookupSetHeader(h0, ContentType, Text("text"), ContentLength);
    forall i | 0 <= i < |e.headers| && e.headers[i].0 != ContentType && e.headers[i].0 != ContentLength
      ensures Lookup(h2, e.headers[i].0) == Some(Text(e.headers[i].1))
    {
      LookupAsText(e.headers, i);
      LookupSetHeader(h0, ContentType, Text("text"), e.headers[i].0);
      LookupSetHeader(h1, ContentLength, Count(env.byteLength(msg)), e.headers[i].0);
    }
    forall n | n in Names(h2)
      ensures n == ContentType || n == ContentLength || n in Names(h0)
    {
      LookupSetHeader(h0, ContentType, Text("text"), n);
      LookupSetHeader(h1, ContentLength, Count(env.byteLength(msg)), n);
    }
  }

  /**
   * A thrown non-Error other than `null` or `undefined` is answered like an
   * unexposed error without a status: 500 with the table's phrase.
   */
  lemma NonErrorResponse(s: ResponseState, v: Value, env: Platform)
    requires 500 in env.statuses && !s.headersSent && s.writable && v != Null && v != Undefined
    ensures var r := HandleError(s, NonError(v), env);
      && r.Delegated? && r.response.status == 500 && !r.response.writable
      && r.response.output == s.output + [Ended(Some(TextBody(env.statuses[500])))]
      && r.emitted.status == Undefined && !r.emitted.expose
  {
    assert ResolveStatus(Wrap(NonError(v), env), env.statuses) == 500;
  }
}
