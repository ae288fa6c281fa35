/** The buffered responses: `Response` (JSON), `HTMLResponse` and
    `PlainTextResponse`. Construction, and the derived `body`, `headers`,
    `bytes_headers` and `__str__`. */
module Envelope {
  import opened Wire
  import opened Dicts
  import opened Text
  import opened Normalize

  /** Which of the three buffered response classes. */
  datatype Flavor = Json | Html | PlainText

  /** The class attribute `content_type`. */
  function ContentType(f: Flavor): string {
    match f
    case Json => "application/json"
    case Html => "text/html; charset=utf-8"
    case PlainText => "text/plain; charset=utf-8"
  }

  /** A constructed response: the user's headers as given, the prepared data
      and the checked status code. */
  datatype Response = Response(flavor: Flavor, userHeaders: seq<(string, Value)>, data: Value, statusCode: StatusCode)

  /** `Response(data, headers, status_code)`: the headers are stored first,
      then the data is prepared, then the status code is checked, so bad data
      is reported even when the status code is bad too. */
  function NewResponse(flavor: Flavor, data: Value, headers: Option<seq<(string, Value)>>, statusCode: Value, rt: Runtime)
    : (r: Result<Response>)
    ensures r.Ok? <==> Supported(data) && (statusCode.Int? || statusCode.Bool?)
    ensures !Supported(data) ==> r == Err(TypeError(InvalidTypeMessage(FirstUnsupported(data).value)))
    ensures Supported(data) && !(statusCode.Int? || statusCode.Bool?) ==> r == Err(TypeError(StatusCodeMessage(statusCode, rt)))
    ensures r.Ok? ==> r.value.flavor == flavor && r.value.statusCode == statusCode
    ensures r.Ok? ==> r.value.userHeaders == (if headers.Some? then headers.value else [])
    ensures r.Ok? ==> r.value.data == PrepareData(data, rt).value
  {
    var userHeaders := if headers.Some? then headers.value else [];
    var prepared :- PrepareData(data, rt);
    var status :- CheckStatusCode(statusCode, rt);
    Ok(Response(flavor, userHeaders, prepared, status))
  }

  /** `Response()` with its defaults: no data, no headers, status 200, and an
      empty body. */
  lemma DefaultResponse(rt: Runtime)
    ensures NewResponse(Json, Null, None, Int(HTTP_200_OK), rt) == Ok(Response(Json, [], Null, Int(HTTP_200_OK)))
    ensures Body(Response(Json, [], Null, Int(HTTP_200_OK)), rt) == Ok([])
  {
  }

  /** The `body` property. JSON: bytes as they are, nothing for None, the JSON
      encoding otherwise. HTML and plain text: bytes as they are, the encoding
      of text, and AttributeError (no `encode`) for anything else. */
  function Body(r: Response, rt: Runtime): Result<ByteString> {
    match r.flavor
    case Json =>
      if r.data.Bytes? then Ok(r.data.bytes)
      else if r.data.Null? then Ok([])
      else (
        match rt.jsonDumps(r.data)
        case Some(b) => Ok(b)
        case None => Err(JsonEncodeError))
    case _ =>
      if r.data.Bytes? then Ok(r.data.bytes)
      else if r.data.Str? then Ok(rt.encode(r.data.s))
      else Err(AttributeError(TypeName(r.data), "encode"))
  }

  /** The JSON body never uses the text encoder, and the HTML and plain-text
      bodies never use the JSON encoder. */
  lemma BodyUsesOneEncoder(r: Response, rt1: Runtime, rt2: Runtime)
    ensures r.flavor == Json && (forall v :: rt1.jsonDumps(v) == rt2.jsonDumps(v)) ==> Body(r, rt1) == Body(r, rt2)
    ensures r.flavor != Json && (forall s :: rt1.encode(s) == rt2.encode(s)) ==> Body(r, rt1) == Body(r, rt2)
  {
  }

  /** Bytes pass through every buffered body unchanged; text through the
      HTML and plain-text bodies becomes its encoding. */
  lemma BodyOfBytesAndText(r: Response, rt: Runtime)
    ensures r.data.Bytes? ==> Body(r, rt) == Ok(r.data.bytes)
    ensures r.flavor != Json && r.data.Str? ==> Body(r, rt) == Ok(rt.encode(r.data.s))
    ensures r.flavor == Json && r.data.Null? ==> Body(r, rt) == Ok([])
    ensures r.flavor != Json ==> (Body(r, rt).Ok? <==> r.data.Bytes? || r.data.Str?)
  {
  }

  /** The headers the class computes before the user's are merged in. */
  function DefaultHeaders(f: Flavor, bodyLength: nat): seq<(string, Value)> {
    [("Content-Type", Str(ContentType(f))),
     ("Content-Length", Int(bodyLength)),
     ("Access-Control-Allow-Origin", Str("*"))]
  }

  /** The `headers` property: the defaults, overridden by the user's. */
  function Headers(r: Response, rt: Runtime): Result<seq<(string, Value)>> {
    var body :- Body(r, rt);
    Ok(Union(DefaultHeaders(r.flavor, |body|), r.userHeaders))
  }

  /** The default for `k` unless the user set `k`. */
  function Expected(user: seq<(string, Value)>, k: string, default: Value): Option<Value> {
    if HasKey(user, k) then Lookup(user, k) else Some(default)
  }

  /** The header set: user keys win and keep their values; otherwise
      Content-Type is the class's content type, Content-Length the body's
      length and Access-Control-Allow-Origin `*`; no other key appears; the
      three defaults come first, then the user's other keys in the user's order;
      no key is repeated. It fails exactly when the
      body does. */
  lemma HeadersContract(r: Response, rt: Runtime)
    requires UniqueKeys(r.userHeaders)
    ensures Headers(r, rt).Ok? <==> Body(r, rt).Ok?
    ensures Headers(r, rt).Ok? ==>
      var hs := Headers(r, rt).value;
      var body := Body(r, rt).value;
      && UniqueKeys(hs)
      && Keys(hs) == Keys(DefaultHeaders(r.flavor, |body|)) + NewKeys(Keys(r.userHeaders), Keys(DefaultHeaders(r.flavor, |body|)))
      && Lookup(hs, "Content-Type") == Expected(r.userHeaders, "Content-Type", Str(ContentType(r.flavor)))
      && Lookup(hs, "Content-Length") == Expected(r.userHeaders, "Content-Length", Int(|body|))
      && Lookup(hs, "Access-Control-Allow-Origin") == Expected(r.userHeaders, "Access-Control-Allow-Origin", Str("*"))
      && (forall k :: HasKey(r.userHeaders, k) ==> Lookup(hs, k) == Lookup(r.userHeaders, k))
      && (forall k :: HasKey(hs, k) ==> HasKey(r.userHeaders, k) || k in Keys(DefaultHeaders(r.flavor, |body|)))
  {
    if Body(r, rt).Ok? {
      var body := Body(r, rt).value;
      var d := DefaultHeaders(r.flavor, |body|);
      var hs := Union(d, r.userHeaders);
      UniqueUnion(d, r.userHeaders);
      KeysUnion(d, r.userHeaders);
      LookupUnion(d, r.userHeaders, "Content-Type");
      LookupUnion(d, r.userHeaders, "Content-Length");
      LookupUnion(d, r.userHeaders, "Access-Control-Allow-Origin");
      assert d[0].0 != "Access-Control-Allow-Origin" && d[1].0 != "Access-Control-Allow-Origin" by {
        assert |d[0].0| != |"Access-Control-Allow-Origin"| && |d[1].0| != |"Access-Control-Allow-Origin"|;
      }
      assert d[1..][1..] == [("Access-Control-Allow-Origin", Str("*"))];
      assert Lookup(d[1..][1..], "Access-Control-Allow-Origin") == Some(Str("*"));
      assert Lookup(d[1..], "Access-Control-Allow-Origin") == Some(Str("*"));
      forall k | HasKey(r.userHeaders, k) ensures Lookup(hs, k) == Lookup(r.userHeaders, k) {
        LookupUnion(d, r.userHeaders, k);
      }
      forall k | HasKey(hs, k) ensures HasKey(r.userHeaders, k) || k in Keys(d) {
        LookupUnion(d, r.userHeaders, k);
        HasKeyIsInKeys(d, k);
      }
    }
  }

  /** The `bytes_headers` property: one `[k.encode(), str(v).encode()]` pair
      per header, in order. */
  function BytesHeaders(hs: seq<(string, Value)>, rt: Runtime): seq<(ByteString, ByteString)> {
    if hs == [] then [] else [(rt.encode(hs[0].0), rt.encode(PyStr(hs[0].1, rt)))] + BytesHeaders(hs[1..], rt)
  }

  lemma {:induction false} BytesHeadersPointwise(hs: seq<(string, Value)>, rt: Runtime)
    ensures |BytesHeaders(hs, rt)| == |hs|
    ensures forall i :: 0 <= i < |hs| ==>
      BytesHeaders(hs, rt)[i] == (rt.encode(hs[i].0), rt.encode(PyStr(hs[i].1, rt)))
  {
    if hs != [] {
      BytesHeadersPointwise(hs[1..], rt);
      assert forall i :: 1 <= i < |hs| ==> hs[i] == hs[1..][i - 1];
    }
  }

  /** The data part of `__str__`: at most 30 characters, the first 27 and
      `...` when the text is longer than 30. */
  function Abbreviated(s: string): (t: string)
    ensures |t| == if |s| <= 30 then |s| else 30
    ensures |s| <= 30 ==> t == s
    ensures |s| > 30 ==> t[..27] == s[..27] && t[27..] == "..."
  {
    if |s| > 30 then s[..27] + "..." else s
  }

  const DescribePrefix: string := "Response(status_code="

  /** `__str__` (and `__repr__`); every class prints as `Response(...)`. */
  function Describe(statusCode: StatusCode, data: Value, rt: Runtime): string {
    DescribePrefix + PyStr(statusCode, rt) + ", data=" + Abbreviated(PyStr(data, rt)) + ")"
  }

  /** The text starts with `Response(status_code=` and the status code, which
      reads back as the same integer; it ends with `)`; the data part holds at
      most 30 characters, so the whole text is bounded whatever the data; data
      text of 30 characters or fewer appears whole. */
  lemma DescribeContract(statusCode: StatusCode, data: Value, rt: Runtime)
    ensures var t := Describe(statusCode, data, rt);
      var status := PyStr(statusCode, rt);
      var head := DescribePrefix + status + ", data=";
      && |head| < |t| && t[..|head|] == head && t[|t| - 1] == ')'
      && |t| <= |head| + 31
      && (|PyStr(data, rt)| <= 30 ==> t[|head|..|t| - 1] == PyStr(data, rt))
      && (statusCode.Int? ==> ParseInt(t[|DescribePrefix|..|DescribePrefix| + |status|]) == Some(statusCode.i))
  {
    var t := Describe(statusCode, data, rt);
    var status := PyStr(statusCode, rt);
    var head := DescribePrefix + status + ", data=";
    var shown := Abbreviated(PyStr(data, rt));
    assert t == head + shown + ")";
    assert t[|DescribePrefix|..|DescribePrefix| + |status|] == status;
    assert t[|head|..|t| - 1] == shown;
    if statusCode.Int? {
      IntStrRoundTrip(statusCode.i);
    }
  }

  function ResponseStr(r: Response, rt: Runtime): string {
    Describe(r.statusCode, r.data, rt)
  }
}
