/**
 * The body-parsing middleware (src/middlewares/body-parser.ts): option set-up,
 * the choice of parser by content type, and the assignment of the parsed body.
 * The parsers themselves (co-body), the content-type matcher's normalisation
 * and the user's callbacks are outside the model: parsing and `detectJSON` are
 * parameters.
 */
module BodyParsing {
  import opened Wrappers
  import opened Utils
  import opened Http

  /** What `extendTypes.json` (or `.form`, `.text`) holds: nothing, one type, or a list. */
  datatype ExtendValue = NotGiven | One(item: string) | Many(items: seq<string>)

  /** The value of an option property; `Unset` is `undefined`. */
  datatype OptValue =
    | Unset
    | Flag(b: bool)
    | Callback(id: nat)
    | Types(xs: seq<string>)
    | ExtendMap(m: map<string, ExtendValue>)
    | Other(v: Value)

  predicate OptTruthy(v: OptValue) {
    match v
    case Unset => false
    case Flag(b) => b
    case Other(x) => Truthy(x)
    case _ => true
  }

  /** `opts[key]`: `undefined` when the property is absent. */
  function Get(fields: map<string, OptValue>, key: string): OptValue {
    if key in fields then fields[key] else Unset
  }

  /** The options object the caller passes; set-up writes to it. */
  class Options {
    var fields: map<string, OptValue>

    constructor (fields: map<string, OptValue>)
      ensures this.fields == fields
    {
      this.fields := fields;
    }
  }

  /** `s.includes(sub)` for strings: `sub` occurs somewhere in `s`. */
  predicate Contains(s: string, sub: string) {
    |sub| <= |s| && (s[..|sub|] == sub || Contains(s[1..], sub))
  }

  /**
   * `checkEnable(types, type)`, i.e. `types.includes(type)`: membership for a
   * list, substring search for a string, a TypeError for anything else.
   */
  function CheckEnable(types: OptValue, kind: string): (r: Result<bool, Err>)
    ensures types.Types? ==> r == Success(kind in types.xs)
    ensures r.Failure? <==> !types.Types? && !(types.Other? && types.v.Str?)
  {
    if types.Types? then Success(kind in types.xs)
    else if types.Other? && types.v.Str? then Success(Contains(types.v.s, kind))
    else Failure(NewError("TypeError", "types.includes is not a function"))
  }

  const DefaultEnableTypes: seq<string> := ["json", "form"]
  const DefaultJsonTypes: seq<string> :=
    ["application/json", "application/json-patch+json", "application/vnd.api+json", "application/csp-report"]
  const DefaultFormTypes: seq<string> := ["application/x-www-form-urlencoded"]
  const DefaultTextTypes: seq<string> := ["text/plain"]

  /** The options after set-up: the callbacks cleared and the raw body forced on. */
  function Cleared(fields: map<string, OptValue>): map<string, OptValue> {
    fields["detectJSON" := Unset]["onerror" := Unset]["returnRawBody" := Flag(true)]
  }

  /** `formatOptions(opts, type)` as a value: every property copied, `limit` from `<type>Limit`. */
  function Formatted(fields: map<string, OptValue>, kind: string): map<string, OptValue> {
    fields["limit" := Get(fields, kind + "Limit")]
  }

  /**
   * `formatOptions(opts, type)`: a copy of every property of `opts`, with
   * `limit` taken from the `<type>Limit` property (undefined when absent).
   */
  method FormatOptions(opts: Options, kind: string) returns (res: map<string, OptValue>)
    ensures res.Keys == opts.fields.Keys + {"limit"}
    ensures forall k :: k in opts.fields && k != "limit" ==> res[k] == opts.fields[k]
    ensures res["limit"] == Get(opts.fields, kind + "Limit")
    ensures res == Formatted(opts.fields, kind)
  {
    res := map[];
    var todo := opts.fields.Keys;
    while todo != {}
      invariant todo <= opts.fields.Keys
      invariant res.Keys == opts.fields.Keys - todo
      invariant forall k :: k in res ==> res[k] == opts.fields[k]
      decreases |todo|
    {
      var key :| key in todo;
      res := res[key := opts.fields[key]];
      todo := todo - {key};
    }
    res := res["limit" := Get(opts.fields, kind + "Limit")];
  }

  /** The types `extendType` adds: none for a falsy value, one for a string, each of a list. */
  function Extensions(extend: ExtendValue): seq<string> {
    match extend
    case NotGiven => []
    case One(s) => if s == "" then [] else [s]
    case Many(xs) => xs
  }

  /** `extendTypes[key]` for the `extendTypes` option: nothing unless it is an object with that key. */
  function ExtensionFor(extendTypes: OptValue, key: string): ExtendValue {
    if extendTypes.ExtendMap? && key in extendTypes.m then extendTypes.m[key] else NotGiven
  }

  /** A list of media types the closure owns and `extendType` pushes onto. */
  class TypeList {
    var types: seq<string>

    constructor (types: seq<string>)
      ensures this.types == types
    {
      this.types := types;
    }
  }

  /** `extendType(original, extend)`: pushes the extension types onto the list in place, keeping its order. */
  method ExtendType(original: TypeList, extend: ExtendValue)
    modifies original
    ensures original.types == old(original.types) + Extensions(extend)
  {
    if extend.NotGiven? || extend == One("") {
      return;
    }
    var items := if extend.One? then [extend.item] else extend.items;
    var i := 0;
    while i < |items|
      invariant 0 <= i <= |items|
      invariant original.types == old(original.types) + items[..i]
    {
      original.types := original.types + [items[i]];
      i := i + 1;
    }
  }

  /** A default list with `extendType` applied to it. */
  method TypesWith(defaults: seq<string>, extend: ExtendValue) returns (types: seq<string>)
    ensures types == defaults + Extensions(extend)
  {
    var list := new TypeList(defaults);
    ExtendType(list, extend);
    types := list.types;
  }

  /** The configured middleware: everything its closure captures. */
  datatype Parser = Parser(
    detectJSON: OptValue,
    onerror: OptValue,
    enableJson: bool,
    enableForm: bool,
    enableText: bool,
    jsonTypes: seq<string>,
    formTypes: seq<string>,
    textTypes: seq<string>,
    jsonOpts: map<string, OptValue>,
    formOpts: map<string, OptValue>,
    textOpts: map<string, OptValue>)

  /** `enableTypes || ['json', 'form']`. */
  function EnableTypes(fields: map<string, OptValue>): OptValue {
    var v := Get(fields, "enableTypes");
    if OptTruthy(v) then v else Types(DefaultEnableTypes)
  }

  /** `BodyParser(opts)` as a value: the captured configuration, or the set-up error. */
  function Configured(fields: map<string, OptValue>): (r: Result<Parser, Err>)
    ensures r.Failure? <==> CheckEnable(EnableTypes(fields), "form").Failure?
    ensures r.Success? ==>
      DefaultJsonTypes <= r.value.jsonTypes && DefaultFormTypes <= r.value.formTypes && DefaultTextTypes <= r.value.textTypes
    ensures r.Success? && EnableTypes(fields).Types? ==>
      && (r.value.enableJson <==> "json" in EnableTypes(fields).xs)
      && (r.value.enableForm <==> "form" in EnableTypes(fields).xs)
      && (r.value.enableText <==> "text" in EnableTypes(fields).xs)
  {
    var types := EnableTypes(fields);
    var form :- CheckEnable(types, "form");
    // the three checks succeed or fail together
    var json := CheckEnable(types, "json").value;
    var text := CheckEnable(types, "text").value;
    var opts := Cleared(fields);
    var ext := Get(opts, "extendTypes");
    Success(Parser(
      Get(fields, "detectJSON"), Get(fields, "onerror"), json, form, text,
      DefaultJsonTypes + Extensions(ExtensionFor(ext, "json")),
      DefaultFormTypes + Extensions(ExtensionFor(ext, "form")),
      DefaultTextTypes + Extensions(ExtensionFor(ext, "text")),
      Formatted(opts, "json"), Formatted(opts, "form"), Formatted(opts, "text")))
  }

  /**
   * `BodyParser(opts)`: reads the callbacks, checks the enabled types, then
   * clears the callbacks on the caller's object and forces `returnRawBody`.
   * When the check throws, the object is untouched.
   */
  method BodyParser(opts: Options?) returns (r: Result<Parser, Err>)
    modifies opts
    ensures r == Configured(if opts == null then map[] else old(opts.fields))
    ensures opts != null && r.Success? ==> opts.fields == Cleared(old(opts.fields))
    ensures opts != null && r.Failure? ==> opts.fields == old(opts.fields)
  {
    var o: Options;
    if opts == null {
      o := new Options(map[]);
    } else {
      o := opts;
    }
    var detectJSON := Get(o.fields, "detectJSON");
    var onerror := Get(o.fields, "onerror");
    var types := EnableTypes(o.fields);
    var enableForm :- CheckEnable(types, "form");
    var enableJson := CheckEnable(types, "json").value;
    var enableText := CheckEnable(types, "text").value;

    o.fields := o.fields["detectJSON" := Unset];
    o.fields := o.fields["onerror" := Unset];
    // The parsers are always asked for the raw text as well.
    o.fields := o.fields["returnRawBody" := Flag(true)];

    var jsonOpts := FormatOptions(o, "json");
    var formOpts := FormatOptions(o, "form");
    var textOpts := FormatOptions(o, "text");

    var ext := Get(o.fields, "extendTypes");
    var jsonTypes := TypesWith(DefaultJsonTypes, ExtensionFor(ext, "json"));
    var formTypes := TypesWith(DefaultFormTypes, ExtensionFor(ext, "form"));
    var textTypes := TypesWith(DefaultTextTypes, ExtensionFor(ext, "text"));
    r := Success(Parser(detectJSON, onerror, enableJson, enableForm, enableText,
                        jsonTypes, formTypes, textTypes, jsonOpts, formOpts, textOpts));
  }

  /** Every parser is handed the raw-body flag, no callbacks, and its own limit. */
  lemma ConfiguredOptions(fields: map<string, OptValue>)
    requires Configured(fields).Success?
    ensures var p := Configured(fields).value;
      && (forall o :: o in [p.jsonOpts, p.formOpts, p.textOpts] ==>
            Get(o, "returnRawBody") == Flag(true) && Get(o, "detectJSON") == Unset && Get(o, "onerror") == Unset)
      && p.jsonOpts["limit"] == Get(fields, "jsonLimit")
      && p.formOpts["limit"] == Get(fields, "formLimit")
      && p.textOpts["limit"] == Get(fields, "textLimit")
      && p.detectJSON == Get(fields, "detectJSON") && p.onerror == Get(fields, "onerror")
  {
    var p := Configured(fields).value;
    assert "json" + "Limit" == "jsonLimit";
    assert "form" + "Limit" == "formLimit";
    assert "text" + "Limit" == "textLimit";
  }

  /** Without `enableTypes`, JSON and form bodies are parsed and text bodies are not. */
  lemma DefaultEnabled(fields: map<string, OptValue>)
    requires !OptTruthy(Get(fields, "enableTypes"))
    ensures var r := Configured(fields);
      r.Success? && r.value.enableJson && r.value.enableForm && !r.value.enableText
  {
    assert "text" !in DefaultEnableTypes;
  }

  /** The recognised types are the defaults followed by the configured extensions. */
  lemma ConfiguredTypes(fields: map<string, OptValue>, t: string)
    requires Configured(fields).Success?
    requires t in Extensions(ExtensionFor(Get(fields, "extendTypes"), "json"))
    ensures var p := Configured(fields).value;
      DefaultJsonTypes <= p.jsonTypes && t in p.jsonTypes
  {
    assert Get(Cleared(fields), "extendTypes") == Get(fields, "extendTypes");
  }

  // ---------------------------------------------------------------------------
  // The middleware

  /** The request as the middleware sees it. */
  datatype Request = Request(body: Value, rawBody: Value, mediaType: Option<string>, disableBodyParser: Value)

  /** `ctx.request.is(types)`: the request's media type is one of `types`. */
  predicate Is(req: Request, types: seq<string>) {
    req.mediaType.Some? && req.mediaType.value in types
  }

  datatype Kind = ParseJson | ParseForm | ParseText

  /** co-body's result with `returnRawBody`. */
  datatype Parsed = Parsed(parsed: Value, raw: string)

  /** The collaborators: the user's `detectJSON` callbacks and co-body. */
  datatype Services = Services(
    detect: (nat, Request) -> bool,
    parse: (Kind, map<string, OptValue>, Request) -> Result<Parsed, Thrown>)

  /** A `detectJSON` callback is configured and says yes for this request. */
  predicate Detected(p: Parser, req: Request, sv: Services) {
    p.detectJSON.Callback? && sv.detect(p.detectJSON.id, req)
  }

  /** JSON applies: it is enabled, and the request is detected as JSON or has a JSON type. */
  predicate JsonApplies(p: Parser, req: Request, sv: Services) {
    p.enableJson && (Detected(p, req, sv) || Is(req, p.jsonTypes))
  }

  /**
   * The parser `parseBody` picks: JSON when enabled and detected or matched,
   * then form, then text; `None` when nothing applies. A `detectJSON` that is
   * truthy but not a function throws.
   */
  function ChooseParser(p: Parser, req: Request, sv: Services): (r: Result<Option<Kind>, Thrown>)
    ensures r.Failure? <==> p.enableJson && OptTruthy(p.detectJSON) && !p.detectJSON.Callback?
    ensures r == Success(Some(ParseJson)) ==> JsonApplies(p, req, sv)
    ensures r == Success(Some(ParseForm)) ==>
      p.enableForm && Is(req, p.formTypes) && !JsonApplies(p, req, sv)
    ensures r == Success(Some(ParseText)) ==>
      p.enableText && Is(req, p.textTypes) && !JsonApplies(p, req, sv) && !(p.enableForm && Is(req, p.formTypes))
    ensures r == Success(None) ==>
      !JsonApplies(p, req, sv) && !(p.enableForm && Is(req, p.formTypes)) && !(p.enableText && Is(req, p.textTypes))
  {
    var detected :=
      if !p.enableJson || !OptTruthy(p.detectJSON) then Success(false)
      else if p.detectJSON.Callback? then Success(sv.detect(p.detectJSON.id, req))
      else Failure(Raised(NewError("TypeError", "detectJSON is not a function")));
    match detected
    case Failure(e) => Failure(e)
    case Success(d) =>
      if p.enableJson && (d || Is(req, p.jsonTypes)) then Success(Some(ParseJson))
      else if p.enableForm && Is(req, p.formTypes) then Success(Some(ParseForm))
      else if p.enableText && Is(req, p.textTypes) then Success(Some(ParseText))
      else Success(None)
  }

  /** The options each parser receives. */
  function OptionsFor(p: Parser, k: Kind): map<string, OptValue> {
    match k
    case ParseJson => p.jsonOpts
    case ParseForm => p.formOpts
    case ParseText => p.textOpts
  }

  /** `parseBody(ctx)`: the chosen parser's result; `None` stands for the `{}` returned when none applies. */
  function ParseBody(p: Parser, req: Request, sv: Services): (r: Result<Option<Parsed>, Thrown>)
    ensures r == Success(None) <==> ChooseParser(p, req, sv) == Success(None)
    ensures r.Success? && r.value.Some? ==>
      var k := ChooseParser(p, req, sv);
      k.Success? && k.value.Some? && sv.parse(k.value.value, OptionsFor(p, k.value.value), req) == Success(r.value.value)
    ensures r.Failure? ==>
      var k := ChooseParser(p, req, sv);
      k.Failure? || (k.value.Some? && sv.parse(k.value.value, OptionsFor(p, k.value.value), req) == Failure(r.error))
  {
    var k :- ChooseParser(p, req, sv);
    if k.None? then Success(None)
    else
      var parsed :- sv.parse(k.value, OptionsFor(p, k.value), req);
      Success(Some(parsed))
  }

  /** What one run of the middleware did. */
  datatype Step = Step(request: Request, onerrorCalls: seq<(nat, Thrown)>, nextCalled: bool, failure: Option<Thrown>)

  /**
   * One run of the middleware: skip when a body is present or parsing is
   * disabled; otherwise assign the parsed body (or `{}`) and the raw body if it
   * is still undefined; a parse error goes to `onerror` when configured, else
   * is rethrown. `next` runs unless something was thrown.
   */
  function Handle(p: Parser, req: Request, sv: Services): (r: Step)
    ensures r.nextCalled <==> r.failure.None?
    ensures |r.onerrorCalls| <= 1
    ensures r.onerrorCalls != [] ==> p.onerror.Callback? && r.onerrorCalls[0].0 == p.onerror.id
    ensures r.failure.Some? || r.onerrorCalls != [] ==> ParseBody(p, req, sv).Failure?
    ensures r.request.mediaType == req.mediaType && r.request.disableBodyParser == req.disableBodyParser
    ensures req.rawBody != Undefined ==> r.request.rawBody == req.rawBody
  {
    if req.body != Undefined || Truthy(req.disableBodyParser) then Step(req, [], true, None)
    else
      match ParseBody(p, req, sv)
      case Success(res) =>
        var body := if res.Some? then res.value.parsed else EmptyRecord;
        var raw := if req.rawBody != Undefined then req.rawBody
                   else if res.Some? then Str(res.value.raw) else Undefined;
        Step(req.(body := body, rawBody := raw), [], true, None)
      case Failure(err) =>
        if !OptTruthy(p.onerror) then Step(req, [], false, Some(err))
        else if p.onerror.Callback? then Step(req, [(p.onerror.id, err)], true, None)
        else Step(req, [], false, Some(Raised(NewError("TypeError", "onerror is not a function"))))
  }

  /** An already parsed body, or a request that disables parsing, passes through untouched. */
  lemma SkipsParsedOrDisabled(p: Parser, req: Request, sv: Services)
    requires req.body != Undefined || Truthy(req.disableBodyParser)
    ensures Handle(p, req, sv) == Step(req, [], true, None)
  {
  }

  /** JSON wins over form and text when its types match, whatever else also matches. */
  lemma JsonTakesPrecedence(p: Parser, req: Request, sv: Services)
    requires p.enableJson && Is(req, p.jsonTypes)
    requires !OptTruthy(p.detectJSON) || p.detectJSON.Callback?
    ensures ChooseParser(p, req, sv) == Success(Some(ParseJson))
  {
  }

  /** A `detectJSON` callback that says yes forces the JSON parser, whatever the content type. */
  lemma DetectForcesJson(p: Parser, req: Request, sv: Services)
    requires p.enableJson && p.detectJSON.Callback? && sv.detect(p.detectJSON.id, req)
    ensures ChooseParser(p, req, sv) == Success(Some(ParseJson))
  {
  }

  /** When JSON does not apply, an enabled, matching form type selects the form parser. */
  lemma FormChosen(p: Parser, req: Request, sv: Services)
    requires !(p.enableJson && OptTruthy(p.detectJSON) && !p.detectJSON.Callback?)
    requires !JsonApplies(p, req, sv) && p.enableForm && Is(req, p.formTypes)
    ensures ChooseParser(p, req, sv) == Success(Some(ParseForm))
  {
  }

  /** When neither JSON nor form applies, an enabled, matching text type selects the text parser. */
  lemma TextChosen(p: Parser, req: Request, sv: Services)
    requires !(p.enableJson && OptTruthy(p.detectJSON) && !p.detectJSON.Callback?)
    requires !JsonApplies(p, req, sv) && !(p.enableForm && Is(req, p.formTypes))
    requires p.enableText && Is(req, p.textTypes)
    ensures ChooseParser(p, req, sv) == Success(Some(ParseText))
  {
  }

  /** With the default enabled types a text body is never parsed. */
  lemma DefaultsNeverParseText(fields: map<string, OptValue>, req: Request, sv: Services)
    requires !OptTruthy(Get(fields, "enableTypes"))
    ensures Configured(fields).Success?
    ensures ChooseParser(Configured(fields).value, req, sv) != Success(Some(ParseText))
  {
    DefaultEnabled(fields);
  }

  /** A type added through `extendTypes.json` is parsed as JSON. */
  lemma ExtendedJsonTypeParsed(fields: map<string, OptValue>, req: Request, sv: Services, t: string)
    requires !OptTruthy(Get(fields, "enableTypes")) && !OptTruthy(Get(fields, "detectJSON"))
    requires t in Extensions(ExtensionFor(Get(fields, "extendTypes"), "json"))
    requires req.mediaType == Some(t)
    ensures Configured(fields).Success?
    ensures ChooseParser(Configured(fields).value, req, sv) == Success(Some(ParseJson))
  {
    DefaultEnabled(fields);
    ConfiguredTypes(fields, t);
  }

  /**
   * A successful run assigns the parsed body, or `{}` when no parser applied;
   * a raw body that was already set is kept; `next` runs.
   */
  lemma ParsedAssignment(p: Parser, req: Request, sv: Services)
    requires req.body == Undefined && !Truthy(req.disableBodyParser)
    requires ParseBody(p, req, sv).Success?
    ensures var res := ParseBody(p, req, sv).value;
      var s := Handle(p, req, sv);
      && s.nextCalled && s.failure.None? && s.onerrorCalls == []
      && s.request.body == (if res.Some? then res.value.parsed else EmptyRecord)
      && (req.rawBody != Undefined ==> s.request.rawBody == req.rawBody)
      && (req.rawBody == Undefined && res.Some? ==> s.request.rawBody == Str(res.value.raw))
      && s.request.mediaType == req.mediaType
  {
  }

  /**
   * A parse error goes to an `onerror` callback exactly once, leaves the body
   * unset and `next` still runs; without `onerror` it is rethrown and `next`
   * does not run.
   */
  lemma ParseErrorRouting(p: Parser, req: Request, sv: Services)
    requires req.body == Undefined && !Truthy(req.disableBodyParser)
    requires ParseBody(p, req, sv).Failure?
    ensures var err := ParseBody(p, req, sv).error;
      var s := Handle(p, req, sv);
      && s.request == req
      && (p.onerror.Callback? ==> s.onerrorCalls == [(p.onerror.id, err)] && s.nextCalled && s.failure.None?)
      && (!OptTruthy(p.onerror) ==> s.failure == Some(err) && !s.nextCalled && s.onerrorCalls == [])
  {
  }

  /** `ctx.request`, whose body fields the middleware assigns. */
  class IncomingRequest {
    var body: Value
    var rawBody: Value
    const mediaType: Option<string>
    const disableBodyParser: Value

    constructor (body: Value, rawBody: Value, mediaType: Option<string>, disableBodyParser: Value)
      ensures Snapshot() == Request(body, rawBody, mediaType, disableBodyParser)
    {
      this.body := body;
      this.rawBody := rawBody;
      this.mediaType := mediaType;
      this.disableBodyParser := disableBodyParser;
    }

    function Snapshot(): Request
      reads this
    {
      Request(body, rawBody, mediaType, disableBodyParser)
    }
  }

  /** The middleware `bodyParser(ctx, next)`; the returned step records the callback calls, `next` and the rejection. */
  method Run(p: Parser, req: IncomingRequest, sv: Services) returns (step: Step)
    modifies req
    ensures step == Handle(p, old(req.Snapshot()), sv)
    ensures req.Snapshot() == step.request
  {
    if req.body != Undefined || Truthy(req.disableBodyParser) {
      return Step(req.Snapshot(), [], true, None);
    }
    var res := ParseBody(p, req.Snapshot(), sv);
    if res.Failure? {
      var err := res.error;
      if !OptTruthy(p.onerror) {
        return Step(req.Snapshot(), [], false, Some(err));
      }
      if !p.onerror.Callback? {
        return Step(req.Snapshot(), [], false, Some(Raised(NewError("TypeError", "onerror is not a function"))));
      }
      return Step(req.Snapshot(), [(p.onerror.id, err)], true, None);
    }
    var parsed := res.value;
    req.body := if parsed.Some? then parsed.value.parsed else EmptyRecord;
    if req.rawBody == Undefined {
      req.rawBody := if parsed.Some? then Str(parsed.value.raw) else Undefined;
    }
    step := Step(req.Snapshot(), [], true, None);
  }
}
