/**
 * The current client of package alipay (alipay/alipay.go): the options a
 * client is built with, the signed request it builds for an API method, and
 * the check it runs on every response before the payload is handed on.
 */
module Alipay {
  import opened Wrappers
  import opened Foreign
  import opened UrlValues
  import opened Canonical
  import opened GoStrings

  const DefaultBaseAddress := "https://openapi.alipay.com/gateway.do"
  const DefaultUserAgent := "go-alipay"
  const FormContentType := "application/x-www-form-urlencoded"
  /** The status code of a call the gateway accepted. */
  const SuccessCode := "10000"

  // ---------------------------------------------------------------------
  // Options and their setters
  // ---------------------------------------------------------------------

  /** The common request parameters a client carries. */
  datatype Options = Options(appID: string, format: string, charset: string, signType: string, version: string, bizContent: string)

  /** What NewClient starts from before the setters run. */
  const Defaults := Options("", "JSON", "utf-8", "RSA2", "1.0", "")

  /** An Option: each setter overwrites one field of Options. */
  datatype OptionSetter = AppID(appID: string) | Format(format: string) | Charset(charset: string) | SignType(signType: string)

  /** The fields a setter can write. */
  datatype Field = AppIDField | FormatField | CharsetField | SignTypeField

  function Target(s: OptionSetter): Field {
    match s
    case AppID(_) => AppIDField
    case Format(_) => FormatField
    case Charset(_) => CharsetField
    case SignType(_) => SignTypeField
  }

  function SetterValue(s: OptionSetter): string {
    match s
    case AppID(x) => x
    case Format(x) => x
    case Charset(x) => x
    case SignType(x) => x
  }

  function FieldOf(o: Options, f: Field): string {
    match f
    case AppIDField => o.appID
    case FormatField => o.format
    case CharsetField => o.charset
    case SignTypeField => o.signType
  }

  /** The position of the last setter that writes field `f`, if any does. */
  function LastSetter(setters: seq<OptionSetter>, f: Field): (r: Option<nat>)
    ensures r.Some? ==> r.value < |setters| && Target(setters[r.value]) == f
    ensures r.Some? ==> forall j :: r.value < j < |setters| ==> Target(setters[j]) != f
    ensures r.None? ==> forall j :: 0 <= j < |setters| ==> Target(setters[j]) != f
    decreases |setters|
  {
    if setters == [] then None
    else if Target(setters[|setters| - 1]) == f then Some(|setters| - 1)
    else LastSetter(setters[..|setters| - 1], f)
  }

  /** The value a field ends with: the last setter's for it, else the default. */
  function Configured(setters: seq<OptionSetter>, f: Field): string {
    match LastSetter(setters, f)
    case Some(i) => SetterValue(setters[i])
    case None => FieldOf(Defaults, f)
  }

  /** setter(options) */
  function Apply(o: Options, s: OptionSetter): (r: Options)
    ensures FieldOf(r, Target(s)) == SetterValue(s)
    ensures forall f :: f != Target(s) ==> FieldOf(r, f) == FieldOf(o, f)
    ensures r.version == o.version && r.bizContent == o.bizContent
  {
    match s
    case AppID(x) => o.(appID := x)
    case Format(x) => o.(format := x)
    case Charset(x) => o.(charset := x)
    case SignType(x) => o.(signType := x)
  }

  /** The options NewClient builds: the defaults, then every setter in turn. */
  method ConfigureOptions(setters: seq<OptionSetter>) returns (o: Options)
    ensures forall f :: FieldOf(o, f) == Configured(setters, f)
    ensures o.version == "1.0" && o.bizContent == ""
  {
    o := Defaults;
    for i := 0 to |setters|
      invariant forall f :: FieldOf(o, f) == Configured(setters[..i], f)
      invariant o.version == "1.0" && o.bizContent == ""
    {
      assert setters[..i + 1][..i] == setters[..i];
      o := Apply(o, setters[i]);
    }
    assert setters[..|setters|] == setters;
  }

  /** A ValueOptions setter: it sets one optional request parameter, `key`, to `value`. */
  datatype ValueOption = ValueOption(key: string, value: string)

  /** NotifyURL */
  function NotifyURL(notifyURL: string): (s: ValueOption)
    ensures s.key == "notify_url" && s.value == notifyURL
  {
    ValueOption("notify_url", notifyURL)
  }

  /** AuthToken */
  function AuthToken(authToken: string): (s: ValueOption)
    ensures s.key == "auth_token" && s.value == authToken
  {
    ValueOption("auth_token", authToken)
  }

  /** AppAuthToken */
  function AppAuthToken(appAuthToken: string): (s: ValueOption)
    ensures s.key == "app_auth_token" && s.value == appAuthToken
  {
    ValueOption("app_auth_token", appAuthToken)
  }

  /** The parameters after every value setter has run on `v`, in order. */
  function ApplyValueOptions(v: Values, setters: seq<ValueOption>): Values
    decreases |setters|
  {
    if setters == [] then v
    else
      var s := setters[|setters| - 1];
      Set(ApplyValueOptions(v, setters[..|setters| - 1]), s.key, s.value)
  }

  /** The position of the last value setter that writes `key`, if any does. */
  function LastValueOption(setters: seq<ValueOption>, key: string): (r: Option<nat>)
    ensures r.Some? ==> r.value < |setters| && setters[r.value].key == key
    ensures r.Some? ==> forall j :: r.value < j < |setters| ==> setters[j].key != key
    ensures r.None? ==> forall j :: 0 <= j < |setters| ==> setters[j].key != key
    decreases |setters|
  {
    if setters == [] then None
    else if setters[|setters| - 1].key == key then Some(|setters| - 1)
    else LastValueOption(setters[..|setters| - 1], key)
  }

  /** A parameter written by value setters holds the last one's value; any other is left as it was. */
  lemma {:induction false} ValueOptionsEffect(v: Values, setters: seq<ValueOption>, key: string)
    ensures var r := ApplyValueOptions(v, setters);
      match LastValueOption(setters, key)
      case Some(i) => key in r && r[key] == [setters[i].value]
      case None => (key in r <==> key in v) && (key in v ==> r[key] == v[key])
    decreases |setters|
  {
    if setters != [] {
      ValueOptionsEffect(v, setters[..|setters| - 1], key);
    }
  }

  // ---------------------------------------------------------------------
  // Request parameters
  // ---------------------------------------------------------------------

  /** The seven parameters every request carries. */
  const FixedKeys: set<string> := {"app_id", "method", "format", "charset", "sign_type", "timestamp", "version"}

  /** The value of a fixed parameter. */
  function FixedValue(o: Options, apiMethod: string, timestamp: string, key: string): string {
    if key == "app_id" then o.appID
    else if key == "method" then apiMethod
    else if key == "format" then o.format
    else if key == "charset" then o.charset
    else if key == "sign_type" then o.signType
    else if key == "timestamp" then timestamp
    else o.version
  }

  /** The seven Set calls that start every request. */
  function Fixed(o: Options, apiMethod: string, timestamp: string): (r: Values)
    ensures r.Keys == FixedKeys
    ensures forall k :: k in r ==> r[k] == [FixedValue(o, apiMethod, timestamp, k)]
  {
    var v := Set(map[], "app_id", o.appID);
    var v := Set(v, "method", apiMethod);
    var v := Set(v, "format", o.format);
    var v := Set(v, "charset", o.charset);
    var v := Set(v, "sign_type", o.signType);
    var v := Set(v, "timestamp", timestamp);
    Set(v, "version", o.version)
  }

  /** `v` after `for key, val := range params { v.Set(key, val) }`. */
  function Overlay(v: Values, params: map<string, string>): (r: Values)
    ensures r.Keys == v.Keys + params.Keys
    ensures forall k :: k in params ==> r[k] == [params[k]]
    ensures forall k :: k in v && k !in params ==> r[k] == v[k]
  {
    map k | k in v.Keys + params.Keys :: if k in params then [params[k]] else v[k]
  }

  /** A map that agrees with Overlay(v0, params) key by key is that map. */
  lemma OverlayPointwise(v: Values, v0: Values, params: map<string, string>)
    requires forall k :: k in v <==> k in v0 || k in params
    requires forall k :: k in v ==> v[k] == if k in params then [params[k]] else v0[k]
    ensures v == Overlay(v0, params)
  {
  }

  /** The Set loop over a MultiRender's Params, in whatever order the map yields its keys. */
  method SetAll(v0: Values, params: map<string, string>) returns (v: Values)
    ensures v == Overlay(v0, params)
  {
    v := v0;
    var rest := params.Keys;
    while rest != {}
      invariant rest <= params.Keys
      invariant forall k :: k in v <==> k in v0 || (k in params && k !in rest)
      invariant forall k :: k in v ==> v[k] == if k in params && k !in rest then [params[k]] else v0[k]
      decreases |rest|
    {
      var key :| key in rest;
      v := Set(v, key, params[key]);
      rest := rest - {key};
    }
    OverlayPointwise(v, v0, params);
  }

  /** The form fields of a multipart body: each parameter with its first value. */
  function FirstValues(v: Values): (r: map<string, string>)
    ensures r.Keys == v.Keys
    ensures forall k :: k in v ==> r[k] == Get(v, k)
  {
    map k | k in v :: Get(v, k)
  }

  /** The WriteField loop of the multipart branch. */
  method WriteFields(v: Values) returns (fields: map<string, string>)
    ensures fields == FirstValues(v)
  {
    fields := map[];
    var rest := v.Keys;
    while rest != {}
      invariant rest <= v.Keys
      invariant fields.Keys == v.Keys - rest
      invariant forall k :: k in fields ==> fields[k] == Get(v, k)
      decreases |rest|
    {
      var k :| k in rest;
      fields := fields[k := Get(v, k)];
      rest := rest - {k};
    }
  }

  /** One more pair reaches Sign's writer: skipped when its value is empty, else written after `&`. */
  lemma WriteStep(done: seq<Pair>, p: Pair)
    ensures var before := Join(NonEmpty(done));
      Join(NonEmpty(done + [p]))
        == if p.value == "" then before else before + (if |before| > 0 then "&" else "") + Render(p)
  {
    NonEmptyAppend(done, [p]);
    assert [p][..0] == [];
    if p.value != "" {
      assert NonEmpty([p]) == [p];
      JoinSnoc(NonEmpty(done), p);
    } else {
      assert NonEmpty([p]) == [];
      assert NonEmpty(done) + [] == NonEmpty(done);
    }
  }

  /** One more value of key `k` reaches Sign's writer. */
  lemma WriteKeyStep(prefix: seq<Pair>, k: string, vs: seq<string>, j: nat)
    requires j < |vs|
    ensures var before := Join(NonEmpty(prefix + KeyEntries(k, vs[..j])));
      Join(NonEmpty(prefix + KeyEntries(k, vs[..j + 1])))
        == if vs[j] == "" then before else before + (if |before| > 0 then "&" else "") + Render(Pair(k, vs[j]))
  {
    KeyEntriesSnoc(k, vs, j);
    assert prefix + KeyEntries(k, vs[..j + 1]) == (prefix + KeyEntries(k, vs[..j])) + [Pair(k, vs[j])];
    WriteStep(prefix + KeyEntries(k, vs[..j]), Pair(k, vs[j]));
  }

  /** Sign's inner loop: the non-empty values of key `k`, each written `k=v` after `&` unless the buffer is empty. */
  method WriteValues(buf0: string, k: string, vs: seq<string>, ghost done: seq<Pair>) returns (buf: string)
    requires buf0 == Join(NonEmpty(done))
    ensures buf == Join(NonEmpty(done + KeyEntries(k, vs)))
  {
    buf := buf0;
    NoEntriesYet(done, k, vs);
    var j := 0;
    while j < |vs|
      invariant 0 <= j <= |vs|
      invariant buf == Join(NonEmpty(done + KeyEntries(k, vs[..j])))
    {
      WriteKeyStep(done, k, vs, j);
      var v := vs[j];
      j := j + 1;
      if v == "" {
        continue;
      }
      if |buf| > 0 {
        buf := buf + "&";
      }
      buf := buf + Render(Pair(k, v));
    }
    assert vs[..j] == vs;
  }

  /** Sign's outer loop: every key in ascending order, its values written by WriteValues. */
  method WriteCanonical(values: Values) returns (buf: string)
    ensures buf == CanonicalString(values)
  {
    var keys := SortedKeyList(values);
    buf := "";
    ghost var done: seq<Pair> := [];
    var i := 0;
    while i < |keys|
      invariant 0 <= i <= |keys|
      invariant done == Entries(values, keys[..i])
      invariant buf == Join(NonEmpty(done))
    {
      var k := keys[i];
      assert k in Elements(keys);
      buf := WriteValues(buf, k, values[k], done);
      EntriesSnoc(values, keys, i);
      done := done + KeyEntries(k, values[k]);
      i := i + 1;
    }
    assert keys[..i] == keys;
  }

  // ---------------------------------------------------------------------
  // Requests and responses
  // ---------------------------------------------------------------------

  /** The base URL: everything before the query, and the query's parameters. */
  datatype URL = URL(address: string, query: Values)

  /** The bizContent argument of NewRequest: none, a value sent as JSON, or a MultiRender's params and files. */
  datatype BizContent = NoBizContent | Plain(value: GoValue) | MultiRender(params: map<string, string>, files: map<string, File>)

  datatype Body = FormBody(encoded: string) | MultipartBody(fields: map<string, string>, files: map<string, File>)

  datatype Request = Request(httpMethod: string, address: string, rawQuery: string, contentType: string, userAgent: Option<string>, body: Body)

  function MultipartType(boundary: string): string {
    "multipart/form-data; boundary=" + boundary
  }

  /** Why VerifySign fails: the signature is not base64, there is no public key (a nil-pointer panic), or RSA rejects it. */
  datatype VerifyError = BadEncoding | NilPublicKey | Rejected

  /** What CheckResponse returns instead of nil; NilErrorResponse stands for the nil-pointer panic of reading a status decoded from null. */
  datatype CheckError =
    | EnvelopeError(cause: string)
    | SignDecodeError(cause: string)
    | SignatureError(reason: VerifyError)
    | StatusDecodeError(cause: string)
    | ApiError(status: Status)
    | NilErrorResponse

  /** The member CheckResponse takes as the payload: one whose name contains "response", else none. */
  ghost predicate Picks(obj: map<string, Bytes>, payload: Bytes) {
    (exists k :: k in obj && Contains(k, "response") && obj[k] == payload)
    || ((forall k :: k in obj ==> !Contains(k, "response")) && payload == "")
  }

  class Client {
    const o: Options
    const privateKey: Option<PrivateKey>
    const publicKey: Option<PublicKey>
    const crypto: Primitives
    var baseURL: URL
    var userAgent: string

    /** NewClient; the HTTP client it keeps is not part of this model. */
    constructor (privateKey: Option<PrivateKey>, publicKey: Option<PublicKey>, crypto: Primitives, setters: seq<OptionSetter>)
      ensures forall f :: FieldOf(o, f) == Configured(setters, f)
      ensures o.version == "1.0" && o.bizContent == ""
      ensures this.privateKey == privateKey && this.publicKey == publicKey && this.crypto == crypto
      ensures baseURL == URL(DefaultBaseAddress, map[]) && userAgent == DefaultUserAgent
    {
      var options := ConfigureOptions(setters);
      o := options;
      this.privateKey := privateKey;
      this.publicKey := publicKey;
      this.crypto := crypto;
      baseURL := URL(DefaultBaseAddress, map[]);
      userAgent := DefaultUserAgent;
    }

    /**
     * What Sign returns: "" without a private key; otherwise the base64 RSA
     * signature of the canonical string under the hash the sign type selects.
     */
    ghost function Signature(values: Values): Result<string, string> {
      match privateKey
      case None => Success("")
      case Some(key) => SignBase64(crypto, key, HashFor(o.signType), CanonicalString(values))
    }

    method Sign(values: Values) returns (r: Result<string, string>)
      ensures r == Signature(values)
      ensures privateKey.None? ==> r == Success("")
    {
      if privateKey.None? {
        return Success("");
      }
      var buf := WriteCanonical(values);
      var signType := SHA256;
      if o.signType == "RSA" {
        signType := SHA1;
      }
      var signature := crypto.signPKCS1v15(privateKey.value, signType, crypto.digest(signType, buf));
      if signature.Failure? {
        return Failure(signature.error);
      }
      return Success(crypto.base64Encode(signature.value));
    }

    /** Empty values take no part in the signature: a key whose every value is "" signs as if it were absent. */
    lemma SignatureIgnoresEmptyValues(values: Values, k: string, vs: seq<string>)
      requires forall i :: 0 <= i < |vs| ==> vs[i] == ""
      ensures Signature(values[k := vs]) == Signature(values - {k})
    {
      EmptyValuesDropped(values, k, vs);
    }

    function VerifySign(content: Bytes, sign: string): (r: Outcome<VerifyError>)
      ensures !crypto.base64Decode(sign).ok ==> r == Fail(BadEncoding)
      ensures r.Pass? <==>
        && crypto.base64Decode(sign).ok
        && publicKey.Some?
        && crypto.verifyPKCS1v15(publicKey.value, HashFor(o.signType),
             crypto.digest(HashFor(o.signType), content), crypto.base64Decode(sign).bytes)
      ensures crypto.base64Decode(sign).ok && publicKey.None? ==> r == Fail(NilPublicKey)
      ensures r.Fail? && r.error.Rejected? ==> publicKey.Some?
    {
      var signData := crypto.base64Decode(sign);
      if !signData.ok then Fail(BadEncoding)
      else
        var signType := if o.signType == "RSA" then SHA1 else SHA256;
        if publicKey.None? then Fail(NilPublicKey)
        else if crypto.verifyPKCS1v15(publicKey.value, signType, crypto.digest(signType, content), signData.bytes) then Pass
        else Fail(Rejected)
    }

    /** Sign and VerifySign select the same hash: what one signs over some content, the other accepts for that content. */
    lemma SignThenVerify(values: Values, sign: string)
      requires privateKey.Some? && publicKey.Some? && KeyPair(crypto, privateKey.value, publicKey.value)
      requires Base64RoundTrips(crypto)
      requires Signature(values) == Success(sign)
      ensures VerifySign(CanonicalString(values), sign) == Pass
    {
      var h := HashFor(o.signType);
      var d := crypto.digest(h, CanonicalString(values));
      var signature := crypto.signPKCS1v15(privateKey.value, h, d).value;
      assert crypto.base64Decode(sign) == Decoded(signature, true);
    }

    /** The parameters signed: the fixed seven, the value setters, then the biz content's own. */
    ghost function SigningInput(apiMethod: string, timestamp: string, setters: seq<ValueOption>, biz: BizContent): Result<Values, string> {
      var common := ApplyValueOptions(Fixed(o, apiMethod, timestamp), setters);
      match biz
      case NoBizContent => Success(common)
      case Plain(x) =>
        (match crypto.jsonEncode(x)
         case Success(js) => Success(Set(common, "biz_content", js + "\n"))
         case Failure(e) => Failure(e))
      case MultiRender(params, _) => Success(Overlay(common, params))
    }

    /** Which value each parameter is signed with: a MultiRender's own params win, then biz_content, then the value setters, then the fixed seven. */
    lemma InputPrecedence(apiMethod: string, timestamp: string, setters: seq<ValueOption>, biz: BizContent, input: Values, key: string)
      requires SigningInput(apiMethod, timestamp, setters, biz) == Success(input)
      ensures biz.MultiRender? && key in biz.params ==> key in input && input[key] == [biz.params[key]]
      ensures biz.Plain? && key == "biz_content" ==> key in input && input[key] == [crypto.jsonEncode(biz.value).value + "\n"]
      ensures !(biz.MultiRender? && key in biz.params) && !(biz.Plain? && key == "biz_content") ==>
        match LastValueOption(setters, key)
        case Some(i) => key in input && input[key] == [setters[i].value]
        case None =>
          (key in input <==> key in FixedKeys) && (key in FixedKeys ==> input[key] == [FixedValue(o, apiMethod, timestamp, key)])
    {
      var common := ApplyValueOptions(Fixed(o, apiMethod, timestamp), setters);
      ValueOptionsEffect(Fixed(o, apiMethod, timestamp), setters, key);
      match biz
      case NoBizContent =>
        assert input == common;
      case Plain(x) =>
        assert input == Set(common, "biz_content", crypto.jsonEncode(x).value + "\n");
      case MultiRender(params, _) =>
        assert input == Overlay(common, params);
    }

    /** The request NewRequest returns, or the error it stops with. */
    ghost function ExpectedRequest(apiMethod: string, timestamp: string, setters: seq<ValueOption>, biz: BizContent, boundary: string): Result<Request, string>
      reads this
    {
      match SigningInput(apiMethod, timestamp, setters, biz)
      case Failure(e) => Failure(e)
      case Success(input) =>
        match Signature(input)
        case Failure(e) => Failure(e)
        case Success(sign) =>
          var sent := Set(input, "sign", sign);
          Success(Request(
            "POST",
            baseURL.address,
            Encoded(Set(baseURL.query, "charset", o.charset), crypto.queryEscape),
            if biz.MultiRender? then MultipartType(boundary) else FormContentType,
            if userAgent != "" then Some(userAgent) else None,
            if biz.MultiRender? then MultipartBody(FirstValues(sent), biz.files) else FormBody(Encoded(sent, crypto.queryEscape))))
    }

    /**
     * NewRequest. The time of day and the multipart boundary, which the
     * source reads from the clock and from crypto/rand, are parameters.
     */
    method NewRequest(apiMethod: string, biz: BizContent, setters: seq<ValueOption>, timestamp: string, boundary: string)
      returns (r: Result<Request, string>)
      ensures r == ExpectedRequest(apiMethod, timestamp, setters, biz, boundary)
    {
      var v: Values := map[];
      v := Set(v, "app_id", o.appID);
      v := Set(v, "method", apiMethod);
      v := Set(v, "format", o.format);
      v := Set(v, "charset", o.charset);
      v := Set(v, "sign_type", o.signType);
      v := Set(v, "timestamp", timestamp);
      v := Set(v, "version", o.version);
      ghost var fixed := v;
      for i := 0 to |setters|
        invariant v == ApplyValueOptions(fixed, setters[..i])
      {
        assert setters[..i + 1][..i] == setters[..i];
        v := Set(v, setters[i].key, setters[i].value);
      }
      assert setters[..|setters|] == setters;
      var contentType := FormContentType;
      var body: Body;
      match biz {
        case MultiRender(params, files) =>
          v := SetAll(v, params);
          var sign := Sign(v);
          if sign.Failure? {
            return Failure(sign.error);
          }
          v := Set(v, "sign", sign.value);
          var fields := WriteFields(v);
          body := MultipartBody(fields, files);
          contentType := MultipartType(boundary);
        case Plain(x) =>
          var js := crypto.jsonEncode(x);
          if js.Failure? {
            return Failure(js.error);
          }
          v := Set(v, "biz_content", js.value + "\n");
          var sign := Sign(v);
          if sign.Failure? {
            return Failure(sign.error);
          }
          v := Set(v, "sign", sign.value);
          var encoded := Encode(v, crypto.queryEscape);
          body := FormBody(encoded);
        case NoBizContent =>
          var sign := Sign(v);
          if sign.Failure? {
            return Failure(sign.error);
          }
          v := Set(v, "sign", sign.value);
          var encoded := Encode(v, crypto.queryEscape);
          body := FormBody(encoded);
      }
      var query := Set(baseURL.query, "charset", o.charset);
      var rawQuery := Encode(query, crypto.queryEscape);
      var agent: Option<string> := None;
      if userAgent != "" {
        agent := Some(userAgent);
      }
      return Success(Request("POST", baseURL.address, rawQuery, contentType, agent, body));
    }

    /**
     * The status check that ends CheckResponse: decode the payload into the
     * error response pointer, then compare its code. A payload that is JSON
     * null sets the pointer to nil, and reading its code panics.
     */
    function StatusGate(payload: Bytes): Outcome<CheckError> {
      var decoded := crypto.unmarshalStatus(payload);
      if decoded.error.Some? then Fail(StatusDecodeError(decoded.error.value))
      else if decoded.isNull then Fail(NilErrorResponse)
      else if decoded.status.code == SuccessCode then Pass
      else Fail(ApiError(decoded.status))
    }

    /**
     * The status check as intended: a null payload is read as the error
     * response it was decoded into, whose fields all stay "", so it never panics.
     */
    function CorrectedStatusGate(payload: Bytes): (r: Outcome<CheckError>)
      ensures r != Fail(NilErrorResponse)
      ensures r.Pass? <==>
        crypto.unmarshalStatus(payload).error.None? && !crypto.unmarshalStatus(payload).isNull
        && crypto.unmarshalStatus(payload).status.code == SuccessCode
      ensures crypto.unmarshalStatus(payload).error.None? && crypto.unmarshalStatus(payload).isNull ==>
        r == Fail(ApiError(Status("", "", "", "")))
    {
      var decoded := crypto.unmarshalStatus(payload);
      if decoded.error.Some? then Fail(StatusDecodeError(decoded.error.value))
      else if decoded.isNull then Fail(ApiError(Status("", "", "", "")))
      else if decoded.status.code == SuccessCode then Pass
      else Fail(ApiError(decoded.status))
    }

    /**
     * An envelope without a signature whose response member is JSON null
     * makes CheckResponse panic; the corrected status check refuses it with
     * an empty error response instead.
     */
    lemma NullPayloadPanics(obj: map<string, Bytes>, payload: Bytes)
      requires "sign" !in obj
      requires crypto.unmarshalStatus(payload).error.None? && crypto.unmarshalStatus(payload).isNull
      ensures Gate(obj, payload) == Fail(NilErrorResponse)
      ensures CorrectedStatusGate(payload) == Fail(ApiError(Status("", "", "", "")))
    {
    }

    /** CheckResponse's verdict once the envelope is decoded and the payload picked. */
    function Gate(obj: map<string, Bytes>, payload: Bytes): Outcome<CheckError> {
      var sign := if "sign" in obj then obj["sign"] else "";
      if |sign| > 0 then
        match crypto.unmarshalString(sign)
        case Failure(e) => Fail(SignDecodeError(e))
        case Success(signStr) =>
          match VerifySign(payload, signStr)
          case Fail(e) => Fail(SignatureError(e))
          case Pass => StatusGate(payload)
      else StatusGate(payload)
    }

    /** A signed envelope whose signature fails to decode or to verify is refused before its status is read. */
    lemma VerificationComesFirst(obj: map<string, Bytes>, payload: Bytes)
      requires "sign" in obj && |obj["sign"]| > 0
      requires crypto.unmarshalString(obj["sign"]).Failure?
        || VerifySign(payload, crypto.unmarshalString(obj["sign"]).value).Fail?
      ensures Gate(obj, payload).Fail?
      ensures Gate(obj, payload).error.SignDecodeError? || Gate(obj, payload).error.SignatureError?
    {
    }

    /**
     * The payload is accepted exactly when the signature is absent or
     * verifies over the payload, and the payload decodes, is not null, and
     * has code 10000.
     */
    lemma AcceptedIff(obj: map<string, Bytes>, payload: Bytes)
      ensures Gate(obj, payload).Pass? <==>
        ((("sign" !in obj || obj["sign"] == "")
          || (crypto.unmarshalString(obj["sign"]).Success?
              && VerifySign(payload, crypto.unmarshalString(obj["sign"]).value).Pass?))
         && crypto.unmarshalStatus(payload).error.None?
         && !crypto.unmarshalStatus(payload).isNull
         && crypto.unmarshalStatus(payload).status.code == SuccessCode)
    {
    }

    /** An API error carries the status fields decoded from the payload, and its code is not 10000. */
    lemma ApiErrorCarriesStatus(obj: map<string, Bytes>, payload: Bytes, status: Status)
      requires Gate(obj, payload) == Fail(ApiError(status))
      ensures crypto.unmarshalStatus(payload) == StatusDecoding(status, None, false)
      ensures status.code != SuccessCode
    {
    }

    /**
     * CheckResponse. The payload it picks is returned as a ghost result, since
     * the source picks whichever matching member the map yields first.
     */
    method CheckResponse(r: Response) returns (err: Outcome<CheckError>, ghost payload: Bytes)
      modifies r
      ensures old(r.body).Unreadable? ==> err == Fail(ApiError(Status("", "", "", ""))) && r.body == old(r.body)
      ensures old(r.body).Readable? && crypto.unmarshalObject(old(r.body).data).Failure? ==>
        err == Fail(EnvelopeError(crypto.unmarshalObject(old(r.body).data).error))
      ensures old(r.body).Readable? && crypto.unmarshalObject(old(r.body).data).Success? ==>
        Picks(crypto.unmarshalObject(old(r.body).data).value, payload)
        && err == Gate(crypto.unmarshalObject(old(r.body).data).value, payload)
      ensures old(r.body).Readable? ==> r.body == if err.Pass? then Readable(payload) else Readable("")
    {
      payload := "";
      if r.body.Unreadable? {
        return Fail(ApiError(Status("", "", "", ""))), payload;
      }
      var data := r.body.data;
      r.body := Readable("");
      var decoded := crypto.unmarshalObject(data);
      if decoded.Failure? {
        return Fail(EnvelopeError(decoded.error)), payload;
      }
      var obj := decoded.value;
      var resp: Bytes := "";
      var rest := obj.Keys;
      ghost var found := false;
      ghost var chosen := "";
      while rest != {}
        invariant rest <= obj.Keys
        invariant forall k :: k in obj.Keys - rest ==> !Contains(k, "response")
        invariant !found && resp == ""
        decreases |rest|
      {
        var k :| k in rest;
        if Contains(k, "response") {
          resp := obj[k];
          found := true;
          chosen := k;
          break;
        }
        rest := rest - {k};
      }
      if found {
        assert chosen in obj && Contains(chosen, "response") && obj[chosen] == resp;
      }
      payload := resp;
      var sign := if "sign" in obj then obj["sign"] else "";
      if |sign| > 0 {
        var signStr := crypto.unmarshalString(sign);
        if signStr.Failure? {
          return Fail(SignDecodeError(signStr.error)), payload;
        }
        var verified := VerifySign(resp, signStr.value);
        if verified.Fail? {
          return Fail(SignatureError(verified.error)), payload;
        }
      }
      var status := crypto.unmarshalStatus(resp);
      if status.error.Some? {
        return Fail(StatusDecodeError(status.error.value)), payload;
      }
      if status.isNull {
        return Fail(NilErrorResponse), payload;
      }
      if status.status.code == SuccessCode {
        r.body := Readable(resp);
        return Pass, payload;
      }
      return Fail(ApiError(status.status)), payload;
    }
  }
}
