/**
 * What the request-handling core consumes from the platform: error objects,
 * the response header list, the status-code table, JSON serialisation and
 * byte length. The serialiser and the byte length are uninterpreted parameters.
 */
module Http {
  import opened Wrappers
  import opened Utils

  /** The status-code table: code to reason phrase. */
  type StatusTable = map<int, string>

  /** `statuses.empty`: the codes whose responses carry no body (section 3.3.3 of RFC 7230). */
  const EmptyBodyStatuses: set<int> := {204, 205, 304}

  /**
   * An `Error` object with the properties the core reads or writes.
   * An absent string property is the empty string; an absent `status` is `Undefined`;
   * `headers` lists the own properties of `err.headers` in order (empty when absent).
   */
  datatype Err = Err(
    name: string,
    message: string,
    stack: string,
    status: Value,
    code: string,
    expose: bool,
    headers: seq<(string, string)>,
    headerSent: bool)

  /** A thrown value: an `Error` instance, or any other value. */
  datatype Thrown = Raised(err: Err) | NonError(v: Value)

  /** `new Error(message)`: a plain error with no other properties. */
  function NewError(name: string, message: string): Err {
    Err(name, message, "", Undefined, "", false, [], false)
  }

  /** `Error.prototype.toString`. */
  function ErrorString(e: Err): (r: string)
    ensures e.name != "" && e.message != "" ==> r == e.name + ": " + e.message
    ensures e.name == "" ==> r == e.message
    ensures e.message == "" ==> r == e.name
  {
    if e.name == "" then e.message
    else if e.message == "" then e.name
    else e.name + ": " + e.message
  }

  /** The collaborators of the core that the model does not interpret. */
  datatype Platform = Platform(
    statuses: StatusTable,
    stringify: Value -> Result<string, Err>,   // JSON.stringify, which may throw
    byteLength: string -> nat)                  // Buffer.byteLength of a string

  /** `util.format('%j', v)`: the JSON text, or `[Circular]` when serialising throws. */
  function FormatJson(env: Platform, v: Value): string {
    match env.stringify(v)
    case Success(s) => s
    case Failure(_) => "[Circular]"
  }

  // ---------------------------------------------------------------------------
  // The response header list: names in insertion order, one value per name.

  datatype HeaderValue = Text(s: string) | Count(n: nat)

  type Headers = seq<(string, HeaderValue)>

  const ContentType: string := "content-type"
  const ContentLength: string := "content-length"
  const TransferEncoding: string := "transfer-encoding"

  function Names(h: Headers): (r: seq<string>)
    ensures |r| == |h| && forall i :: 0 <= i < |h| ==> r[i] == h[i].0
  {
    if h == [] then [] else [h[0].0] + Names(h[1..])
  }

  /** `res.getHeader(name)`. */
  function Lookup(h: Headers, name: string): (r: Option<HeaderValue>)
    ensures r.None? <==> name !in Names(h)
  {
    if h == [] then None
    else if h[0].0 == name then Some(h[0].1)
    else Lookup(h[1..], name)
  }

  /** `res.setHeader(name, v)`: replaces the value of an existing name, else appends. */
  function SetHeader(h: Headers, name: string, v: HeaderValue): (r: Headers)
  {
    if h == [] then [(name, v)]
    else if h[0].0 == name then [(name, v)] + h[1..]
    else [h[0]] + SetHeader(h[1..], name, v)
  }

  /** The headers whose names are not in `gone`, in their order. */
  function Without(h: Headers, gone: set<string>): (r: Headers)
  {
    if h == [] then []
    else if h[0].0 in gone then Without(h[1..], gone)
    else [h[0]] + Without(h[1..], gone)
  }

  /** `res.removeHeader(name)`. */
  function RemoveHeader(h: Headers, name: string): Headers {
    Without(h, {name})
  }

  /** Setting each pair in order, as `ctx.set(object)` does. */
  function SetAll(h: Headers, pairs: seq<(string, string)>): Headers {
    if pairs == [] then h
    else
      var last := pairs[|pairs| - 1];
      SetHeader(SetAll(h, pairs[..|pairs| - 1]), last.0, Text(last.1))
  }

  function AsText(pairs: seq<(string, string)>): (r: Headers)
    ensures |r| == |pairs|
    ensures forall i :: 0 <= i < |pairs| ==> r[i] == (pairs[i].0, Text(pairs[i].1))
  {
    if pairs == [] then [] else [(pairs[0].0, Text(pairs[0].1))] + AsText(pairs[1..])
  }

  predicate DistinctNames(pairs: seq<(string, string)>) {
    forall i, j :: 0 <= i < j < |pairs| ==> pairs[i].0 != pairs[j].0
  }

  /** Setting a name replaces its value and leaves every other name's value alone. */
  lemma {:induction false} LookupSetHeader(h: Headers, name: string, v: HeaderValue, other: string)
    ensures Lookup(SetHeader(h, name, v), name) == Some(v)
    ensures other != name ==> Lookup(SetHeader(h, name, v), other) == Lookup(h, other)
  {
    if h != [] && h[0].0 != name {
      LookupSetHeader(h[1..], name, v, other);
    }
  }

  /** Setting a name that is not yet present appends it. */
  lemma {:induction false} SetHeaderAppends(h: Headers, name: string, v: HeaderValue)
    requires name !in Names(h)
    ensures SetHeader(h, name, v) == h + [(name, v)]
  {
    if h != [] {
      assert Names(h) == [h[0].0] + Names(h[1..]);
      SetHeaderAppends(h[1..], name, v);
    }
  }

  /** Removing names one after another removes all of them together. */
  lemma {:induction false} WithoutTwice(h: Headers, gone: set<string>, name: string)
    ensures Without(Without(h, gone), {name}) == Without(h, gone + {name})
  {
    if h != [] {
      WithoutTwice(h[1..], gone, name);
    }
  }

  /** After removing names, those names are absent and every other name reads as before. */
  lemma {:induction false} LookupWithout(h: Headers, gone: set<string>, name: string)
    ensures name in gone ==> Lookup(Without(h, gone), name) == None
    ensures name !in gone ==> Lookup(Without(h, gone), name) == Lookup(h, name)
  {
    if h != [] {
      LookupWithout(h[1..], gone, name);
    }
  }

  lemma {:induction false} WithoutNothing(h: Headers)
    ensures Without(h, {}) == h
  {
    if h != [] {
      WithoutNothing(h[1..]);
    }
  }

  /** Removing every listed name empties the list. */
  lemma {:induction false} WithoutAllNames(h: Headers, gone: set<string>)
    requires forall i :: 0 <= i < |h| ==> h[i].0 in gone
    ensures Without(h, gone) == []
  {
    if h != [] {
      WithoutAllNames(h[1..], gone);
    }
  }

  /** The last of a list of distinctly named pairs is not among the names before it. */
  lemma LastNameFresh(pairs: seq<(string, string)>)
    requires pairs != [] && DistinctNames(pairs)
    ensures pairs[|pairs| - 1].0 !in Names(AsText(pairs[..|pairs| - 1]))
  {
    var n := |pairs| - 1;
    var names := Names(AsText(pairs[..n]));
    forall i | 0 <= i < n ensures names[i] != pairs[n].0 {
      assert names[i] == pairs[i].0;
    }
  }

  lemma {:induction false} AsTextSnoc(pairs: seq<(string, string)>)
    requires pairs != []
    ensures var n := |pairs| - 1;
      AsText(pairs[..n]) + [(pairs[n].0, Text(pairs[n].1))] == AsText(pairs)
  {
    var n := |pairs| - 1;
    var front := AsText(pairs[..n]);
    var whole := front + [(pairs[n].0, Text(pairs[n].1))];
    forall i | 0 <= i < |pairs| ensures whole[i] == AsText(pairs)[i] {
      if i < n {
        assert whole[i] == front[i];
      }
    }
  }

  /** Applying pairs with distinct names to an empty list gives exactly those pairs, in order. */
  lemma {:induction false} SetAllFresh(pairs: seq<(string, string)>)
    requires DistinctNames(pairs)
    ensures SetAll([], pairs) == AsText(pairs)
  {
    if pairs != [] {
      var n := |pairs| - 1;
      SetAllFresh(pairs[..n]);
      LastNameFresh(pairs);
      SetHeaderAppends(AsText(pairs[..n]), pairs[n].0, Text(pairs[n].1));
      AsTextSnoc(pairs);
    }
  }
}
