/**
 * The first revision of the client (alipay.go at the repository root): the
 * options it is built with, the signed request it builds for an HTTP verb and
 * an API method, its signing and verifying, and the check it runs on a
 * response. Keys travel as base64 strings in the options and are parsed on
 * every call.
 */
module LegacyAlipay {
  import opened Wrappers
  import opened Foreign
  import opened UrlValues
  import opened Canonical
  import opened GoStrings
  import opened LegacyEnvelope

  const DefaultBaseAddress := "https://openapi.alipay.com/gateway.do"
  const DefaultUserAgent := "go-alipay"
  const FormContentType := "application/x-www-form-urlencoded"
  /** The status code of a call the gateway accepted. */
  const SuccessCode := "10000"

  // ---------------------------------------------------------------------
  // Options and their setters
  // ---------------------------------------------------------------------

  /** The options a client carries; Version, NotifyURL and AppAuthToken have no setter. */
  datatype Options = Options(
    appID: string, privateKey: string, publicKey: string, format: string, charset: string,
    signType: string, version: string, notifyURL: string, appAuthToken: string)

  /** What NewClient starts from before the setters run. */
  const Defaults := Options("", "", "", "JSON", "utf8", "RSA2", "", "", "")

  /** The fields a setter can write. */
  datatype Field = AppIDField | PrivateKeyField | PublicKeyField | FormatField | CharsetField | SignTypeField

  /** An Option: AppID, PrivateKey, PublicKey, Format, Charset or SignType, with the value it writes. */
  datatype OptionSetter = OptionSetter(field: Field, value: string)

  function FieldOf(o: Options, f: Field): string {
    match f
    case AppIDField => o.appID
    case PrivateKeyField => o.privateKey
    case PublicKeyField => o.publicKey
    case FormatField => o.format
    case CharsetField => o.charset
    case SignTypeField => o.signType
  }

  /** setter(options) */
  function Apply(o: Options, s: OptionSetter): (r: Options)
    ensures FieldOf(r, s.field) == s.value
    ensures forall f :: f != s.field ==> FieldOf(r, f) == FieldOf(o, f)
    ensures r.version == o.version && r.notifyURL == o.notifyURL && r.appAuthToken == o.appAuthToken
  {
    match s.field
    case AppIDField => o.(appID := s.value)
    case PrivateKeyField => o.(privateKey := s.value)
    case PublicKeyField => o.(publicKey := s.value)
    case FormatField => o.(format := s.value)
    case CharsetField => o.(charset := s.value)
    case SignTypeField => o.(signType := s.value)
  }

  /** The position of the last setter that writes field `f`, if any does. */
  function LastSetter(setters: seq<OptionSetter>, f: Field): (r: Option<nat>)
    ensures r.Some? ==> r.value < |setters| && setters[r.value].field == f
    ensures r.Some? ==> forall j :: r.value < j < |setters| ==> setters[j].field != f
    ensures r.None? ==> forall j :: 0 <= j < |setters| ==> setters[j].field != f
    decreases |setters|
  {
    if setters == [] then None
    else if setters[|setters| - 1].field == f then Some(|setters| - 1)
    else LastSetter(setters[..|setters| - 1], f)
  }

  /** The value a field ends with: the last setter's for it, else the default. */
  function Configured(setters: seq<OptionSetter>, f: Field): string {
    match LastSetter(setters, f)
    case Some(i) => setters[i].value
    case None => FieldOf(Defaults, f)
  }

  /** The options NewClient builds: the defaults, then every setter in turn. */
  method ConfigureOptions(setters: seq<OptionSetter>) returns (o: Options)
    ensures forall f :: FieldOf(o, f) == Configured(setters, f)
    ensures o.version == "" && o.notifyURL == "" && o.appAuthToken == ""
  {
    o := Defaults;
    for i := 0 to |setters|
      invariant forall f :: FieldOf(o, f) == Configured(setters[..i], f)
      invariant o.version == "" && o.notifyURL == "" && o.appAuthToken == ""
    {
      assert setters[..i + 1][..i] == setters[..i];
      o := Apply(o, setters[i]);
    }
    assert setters[..|setters|] == setters;
  }

  // ---------------------------------------------------------------------
  // Requests and responses
  // ---------------------------------------------------------------------

  /** The base URL: the address and the query string it already carries. */
  datatype URL = URL(address: string, rawQuery: string)

  /** The content NewRequest is given: nil, or a value to encode as JSON. */
  datatype Content = NilContent | Content(value: GoValue)

  /**
   * The *http.Request NewRequest builds: its verb, URL, the form it attaches,
   * its Content-Type and User-Agent headers, and its body, which is nil.
   */
  datatype Request = Request(
    httpMethod: string, address: string, rawQuery: string, form: Option<Values>,
    contentType: Option<string>, userAgent: Option<string>, body: Bytes)

  /** A byte of an HTTP token (section 5.6.2 of RFC 9110). */
  predicate IsTokenChar(c: char) {
    ('a' <= c <= 'z') || ('A' <= c <= 'Z') || ('0' <= c <= '9') || c in "!#$%&'*+-.^_`|~"
  }

  /** A verb http.NewRequest accepts: the empty one, which stands for GET, or a token. */
  predicate ValidMethod(m: string) {
    m == "" || forall i :: 0 <= i < |m| ==> IsTokenChar(m[i])
  }

  /** Why VerifySign fails: the signature is not base64, the key does not parse, the key is not RSA (a failed type assertion, which panics), or RSA rejects it. */
  datatype VerifyError = BadEncoding | KeyError(cause: string) | NotRsaKey | Rejected

  /** What CheckResponse returns instead of nil, or the panic it raises; Malformed only in the corrected verdict. */
  datatype CheckError = Panicked(panic: Panic) | InvalidSignature | ApiError(status: Status) | Malformed(cause: string)

  /**
   * Values.Encode escapes what it writes, so for a single parameter whose
   * name escapes to itself and whose value does not, the encoded form and the
   * canonical string differ.
   */
  lemma EncodedFormIsNotCanonical(escape: string -> string, k: string, value: string)
    requires escape(k) == k && value != "" && escape(value) != value
    ensures Encoded(map[k := [value]], escape) == k + "=" + escape(value)
    ensures CanonicalString(map[k := [value]]) == k + "=" + value
    ensures Encoded(map[k := [value]], escape) != CanonicalString(map[k := [value]])
  {
    var v := map[k := [value]];
    var keys := [k];
    assert Elements(keys) == v.Keys;
    StrictlySortedUnique(keys, SortedKeys(v.Keys));
    assert keys[..0] == [];
    assert Entries(v, keys) == [Pair(k, value)];
    assert NonEmpty([Pair(k, value)]) == [Pair(k, value)] by {
      assert [Pair(k, value)][..0] == [];
    }
    var written := k + "=" + escape(value);
    assert written[|k| + 1..] == escape(value);
    assert (k + "=" + value)[|k| + 1..] == value;
  }

  class Client {
    const o: Options
    const crypto: Primitives
    var baseURL: URL
    var userAgent: string

    /** NewClient; the HTTP client it keeps is not part of this model. */
    constructor (crypto: Primitives, setters: seq<OptionSetter>)
      ensures forall f :: FieldOf(o, f) == Configured(setters, f)
      ensures o.version == "" && o.notifyURL == "" && o.appAuthToken == ""
      ensures this.crypto == crypto
      ensures baseURL == URL(DefaultBaseAddress, "") && userAgent == DefaultUserAgent
    {
      var options := ConfigureOptions(setters);
      o := options;
      this.crypto := crypto;
      baseURL := URL(DefaultBaseAddress, "");
      userAgent := DefaultUserAgent;
    }

    /** The private key Sign uses: the option decoded from base64, then parsed as PKCS #1. */
    function PrivateKeyOf(): (r: Result<PrivateKey, string>)
      ensures !crypto.base64Decode(o.privateKey).ok ==> r.Failure?
      ensures crypto.base64Decode(o.privateKey).ok ==> r == crypto.parsePKCS1PrivateKey(crypto.base64Decode(o.privateKey).bytes)
    {
      var encodedKey := crypto.base64Decode(o.privateKey);
      if !encodedKey.ok then Failure("illegal base64 data")
      else crypto.parsePKCS1PrivateKey(encodedKey.bytes)
    }

    /** The public key VerifySign uses: the option decoded from base64, a decoding error ignored, then parsed as PKIX. */
    function PublicKeyOf(): (r: Result<PublicKey, string>)
      ensures r == crypto.parsePKIXPublicKey(crypto.base64Decode(o.publicKey).bytes)
    {
      crypto.parsePKIXPublicKey(crypto.base64Decode(o.publicKey).bytes)
    }

    /** Sign: the base64 RSA signature of `content` under the hash the sign type selects. */
    function Sign(content: Bytes): (r: Result<string, string>)
      ensures PrivateKeyOf().Failure? ==> r == Failure(PrivateKeyOf().error)
      ensures PrivateKeyOf().Success? ==> r == SignBase64(crypto, PrivateKeyOf().value, HashFor(o.signType), content)
    {
      var signType := if o.signType == "RSA" then SHA1 else SHA256;
      match PrivateKeyOf()
      case Failure(e) => Failure(e)
      case Success(key) => SignBase64(crypto, key, signType, content)
    }

    function VerifySign(content: Bytes, sign: string): (r: Outcome<VerifyError>)
      ensures !crypto.base64Decode(sign).ok ==> r == Fail(BadEncoding)
      ensures RejectsQuotes(crypto) && '"' in sign ==> r == Fail(BadEncoding)
      ensures r.Pass? <==>
        && crypto.base64Decode(sign).ok
        && PublicKeyOf().Success? && PublicKeyOf().value.isRsa
        && crypto.verifyPKCS1v15(PublicKeyOf().value, HashFor(o.signType),
             crypto.digest(HashFor(o.signType), content), crypto.base64Decode(sign).bytes)
      ensures crypto.base64Decode(sign).ok && PublicKeyOf().Failure? ==> r == Fail(KeyError(PublicKeyOf().error))
      ensures crypto.base64Decode(sign).ok && PublicKeyOf().Success? && !PublicKeyOf().value.isRsa ==> r == Fail(NotRsaKey)
      ensures r.Fail? && r.error.Rejected? ==> PublicKeyOf().Success? && PublicKeyOf().value.isRsa
    {
      var signData := crypto.base64Decode(sign);
      if !signData.ok then Fail(BadEncoding)
      else
        match PublicKeyOf()
        case Failure(e) => Fail(KeyError(e))
        case Success(pub) =>
          var signType := if o.signType == "RSA" then SHA1 else SHA256;
          if !pub.isRsa then Fail(NotRsaKey)
          else if crypto.verifyPKCS1v15(pub, signType, crypto.digest(signType, content), signData.bytes) then Pass
          else Fail(Rejected)
    }

    /** With a matching RSA key pair, what Sign signs over some content, VerifySign accepts for that content. */
    lemma SignThenVerify(content: Bytes, sign: string)
      requires PrivateKeyOf().Success? && PublicKeyOf().Success? && PublicKeyOf().value.isRsa
      requires KeyPair(crypto, PrivateKeyOf().value, PublicKeyOf().value) && Base64RoundTrips(crypto)
      requires Sign(content) == Success(sign)
      ensures VerifySign(content, sign) == Pass
    {
      var h := HashFor(o.signType);
      var d := crypto.digest(h, content);
      var signature := crypto.signPKCS1v15(PrivateKeyOf().value, h, d).value;
      assert crypto.base64Decode(sign) == Decoded(signature, true);
    }

    /** The eight parameters every request signs. */
    ghost function CommonParams(apiMethod: string, timestamp: string, bizContent: string): Values {
      Set(Set(Set(Set(Set(Set(Set(Set(map[],
        "app_id", o.appID), "method", apiMethod), "format", o.format), "charset", o.charset),
        "sign_type", o.signType), "timestamp", timestamp), "version", "1.0"), "biz_content", bizContent)
    }

    /** The parameters NewRequest signs: the eight common ones, then app_auth_token and notify_url when set. */
    ghost function Params(apiMethod: string, timestamp: string, bizContent: string): Values {
      var v := CommonParams(apiMethod, timestamp, bizContent);
      var v := if o.appAuthToken != "" then Set(v, "app_auth_token", o.appAuthToken) else v;
      if o.notifyURL != "" then Set(v, "notify_url", o.notifyURL) else v
    }

    /** What each of the eight common parameters holds, and that only they are there. */
    lemma CommonParamsContent(apiMethod: string, timestamp: string, bizContent: string)
      ensures var v := CommonParams(apiMethod, timestamp, bizContent);
        && v["app_id"] == [o.appID] && v["method"] == [apiMethod] && v["format"] == [o.format]
        && v["charset"] == [o.charset] && v["sign_type"] == [o.signType] && v["timestamp"] == [timestamp]
        && v["version"] == ["1.0"] && v["biz_content"] == [bizContent]
        && |v| == 8
    {
    }

    /** The common parameters are sent as built; app_auth_token and notify_url are sent exactly when their options are non-empty. */
    lemma ParamsContent(apiMethod: string, timestamp: string, bizContent: string, key: string)
      requires key != "app_auth_token" && key != "notify_url"
      ensures var v := Params(apiMethod, timestamp, bizContent);
        && ("app_auth_token" in v <==> o.appAuthToken != "")
        && ("notify_url" in v <==> o.notifyURL != "")
        && (o.appAuthToken != "" ==> v["app_auth_token"] == [o.appAuthToken])
        && (o.notifyURL != "" ==> v["notify_url"] == [o.notifyURL])
        && (key in v <==> key in CommonParams(apiMethod, timestamp, bizContent))
        && (key in v ==> v[key] == CommonParams(apiMethod, timestamp, bizContent)[key])
    {
      CommonParamsContent(apiMethod, timestamp, bizContent);
    }

    /** The request NewRequest returns, or the error it stops with. */
    ghost function ExpectedRequest(httpMethod: string, apiMethod: string, content: Content, timestamp: string): Result<Request, string>
      reads this
    {
      match content
      case NilContent => Failure("content is required")
      case Content(x) =>
        match crypto.jsonEncode(x)
        case Failure(e) => Failure(e)
        case Success(js) =>
          var v := Params(apiMethod, timestamp, js + "\n");
          match Sign(Encoded(v, crypto.queryEscape))
          case Failure(e) => Failure(e)
          case Success(sign) =>
            var sent := Set(v, "sign", sign);
            var agent := if userAgent != "" then Some(userAgent) else None;
            if !ValidMethod(httpMethod) then Failure("net/http: invalid method")
            else if httpMethod == "POST" then
              Success(Request("POST", baseURL.address, baseURL.rawQuery, Some(sent), Some(FormContentType), agent, ""))
            else if httpMethod == "GET" then
              Success(Request("GET", baseURL.address, Encoded(sent, crypto.queryEscape), None, None, agent, ""))
            else Failure("unsupported method")
    }

    /**
     * NewRequest. The time of day, which the source reads from the clock, is a
     * parameter. The signature covers the URL-encoded parameters; a POST
     * carries them only as its form, never in its (nil) body.
     */
    method NewRequest(httpMethod: string, apiMethod: string, content: Content, timestamp: string)
      returns (r: Result<Request, string>)
      ensures r == ExpectedRequest(httpMethod, apiMethod, content, timestamp)
      ensures r.Success? ==> (httpMethod == "POST" || httpMethod == "GET") && r.value.body == ""
      ensures r.Success? && httpMethod == "POST" ==> r.value.form.Some? && r.value.rawQuery == baseURL.rawQuery
    {
      if content.NilContent? {
        return Failure("content is required");
      }
      var js := crypto.jsonEncode(content.value);
      if js.Failure? {
        return Failure(js.error);
      }
      var v: Values := map[];
      v := Set(v, "app_id", o.appID);
      v := Set(v, "method", apiMethod);
      v := Set(v, "format", o.format);
      v := Set(v, "charset", o.charset);
      v := Set(v, "sign_type", o.signType);
      v := Set(v, "timestamp", timestamp);
      v := Set(v, "version", "1.0");
      v := Set(v, "biz_content", js.value + "\n");
      if o.appAuthToken != "" {
        v := Set(v, "app_auth_token", o.appAuthToken);
      }
      if o.notifyURL != "" {
        v := Set(v, "notify_url", o.notifyURL);
      }
      var encoded := Encode(v, crypto.queryEscape);
      var sign := Sign(encoded);
      if sign.Failure? {
        return Failure(sign.error);
      }
      v := Set(v, "sign", sign.value);
      if !ValidMethod(httpMethod) {
        return Failure("net/http: invalid method");
      }
      var agent: Option<string> := None;
      if userAgent != "" {
        agent := Some(userAgent);
      }
      if httpMethod == "POST" {
        return Success(Request("POST", baseURL.address, baseURL.rawQuery, Some(v), Some(FormContentType), agent, ""));
      } else if httpMethod == "GET" {
        var query := Encode(v, crypto.queryEscape);
        return Success(Request("GET", baseURL.address, query, None, None, agent, ""));
      }
      return Failure("unsupported method");
    }

    /**
     * CheckResponse's verdict on a body it could read: slice the envelope,
     * decode the status from the payload (a decoding error is ignored),
     * verify the signature, then compare the code.
     */
    function Verdict(data: Bytes, apiMethod: string): (r: Outcome<CheckError>)
      ensures ExtractAsWritten(data, apiMethod).Failure? ==> r == Fail(Panicked(ExtractAsWritten(data, apiMethod).error))
      ensures ExtractAsWritten(data, apiMethod).Success? ==>
        var parts := ExtractAsWritten(data, apiMethod).value;
        && (VerifySign(parts.resp, parts.sign) == Fail(NotRsaKey) ==> r == Fail(Panicked(NotRsaPublicKey)))
        && (VerifySign(parts.resp, parts.sign).Fail? && VerifySign(parts.resp, parts.sign).error != NotRsaKey ==>
              r == Fail(InvalidSignature))
        && (VerifySign(parts.resp, parts.sign).Pass? && crypto.unmarshalStatus(parts.resp).status.code != SuccessCode ==>
              r == Fail(ApiError(crypto.unmarshalStatus(parts.resp).status)))
      ensures r.Pass? <==>
        && ExtractAsWritten(data, apiMethod).Success?
        && VerifySign(ExtractAsWritten(data, apiMethod).value.resp, ExtractAsWritten(data, apiMethod).value.sign).Pass?
        && crypto.unmarshalStatus(ExtractAsWritten(data, apiMethod).value.resp).status.code == SuccessCode
    {
      match ExtractAsWritten(data, apiMethod)
      case Failure(p) => Fail(Panicked(p))
      case Success(parts) =>
        var status := crypto.unmarshalStatus(parts.resp).status;
        if VerifySign(parts.resp, parts.sign) == Fail(NotRsaKey) then Fail(Panicked(NotRsaPublicKey))
        else if VerifySign(parts.resp, parts.sign).Fail? then Fail(InvalidSignature)
        else if status.code == SuccessCode then Pass
        else Fail(ApiError(status))
    }

    /**
     * Every envelope the gateway signs is refused: the text taken as the
     * signature still holds its quotes, which base64 does not decode.
     */
    lemma SignedResponsesRejected(apiMethod: string, payload: string, sig: string)
      requires RejectsQuotes(crypto)
      requires '"' !in apiMethod
      requires !Contains(ResponseNode(apiMethod), "sign") && !Contains(payload, "sign")
      ensures Verdict(Signed(ResponseNode(apiMethod), payload, sig), apiMethod) == Fail(InvalidSignature)
    {
      SignatureKeepsQuotes(apiMethod, payload, sig);
      assert ("\"" + sig + "\"}")[0] == '"';
    }

    /** A response to an API method whose name holds "sign" panics. */
    lemma SignMethodResponsePanics(apiMethod: string, rest: string)
      requires '"' !in apiMethod && Contains(apiMethod, "sign")
      ensures Verdict("{" + Key(ResponseNode(apiMethod)) + rest, apiMethod).Fail?
      ensures Verdict("{" + Key(ResponseNode(apiMethod)) + rest, apiMethod).error.Panicked?
    {
      SignInMethodPanics(apiMethod, rest);
    }

    /** An unsigned response panics. */
    lemma UnsignedResponsePanics(apiMethod: string, payload: string)
      requires '"' !in apiMethod
      requires !Contains(ResponseNode(apiMethod), "sign") && !Contains(payload, "sign")
      ensures Verdict(Unsigned(ResponseNode(apiMethod), payload), apiMethod).Fail?
      ensures Verdict(Unsigned(ResponseNode(apiMethod), payload), apiMethod).error.Panicked?
    {
      UnsignedPanics(apiMethod, payload);
    }

    /**
     * CheckResponse's verdict with the corrected extraction: an envelope it
     * cannot take apart is refused, a signature is checked only when the
     * envelope carries one, then the code is compared.
     */
    function CorrectedVerdict(data: Bytes, apiMethod: string): (r: Outcome<CheckError>)
      ensures ExtractCorrected(data, apiMethod).Failure? ==> r == Fail(Malformed(ExtractCorrected(data, apiMethod).error))
      ensures ExtractCorrected(data, apiMethod).Success? && ExtractCorrected(data, apiMethod).value.sign.Some? ==>
        var e := ExtractCorrected(data, apiMethod).value;
        && (VerifySign(e.payload, e.sign.value) == Fail(NotRsaKey) ==> r == Fail(Panicked(NotRsaPublicKey)))
        && (VerifySign(e.payload, e.sign.value).Fail? && VerifySign(e.payload, e.sign.value).error != NotRsaKey ==>
              r == Fail(InvalidSignature))
      ensures r.Pass? <==>
        && ExtractCorrected(data, apiMethod).Success?
        && (var e := ExtractCorrected(data, apiMethod).value;
            && (e.sign.None? || VerifySign(e.payload, e.sign.value).Pass?)
            && crypto.unmarshalStatus(e.payload).status.code == SuccessCode)
    {
      match ExtractCorrected(data, apiMethod)
      case Failure(cause) => Fail(Malformed(cause))
      case Success(e) =>
        var status := crypto.unmarshalStatus(e.payload).status;
        if e.sign.Some? && VerifySign(e.payload, e.sign.value) == Fail(NotRsaKey) then Fail(Panicked(NotRsaPublicKey))
        else if e.sign.Some? && VerifySign(e.payload, e.sign.value).Fail? then Fail(InvalidSignature)
        else if status.code == SuccessCode then Pass
        else Fail(ApiError(status))
    }

    /**
     * With a matching RSA key pair, an envelope signed over a payload whose
     * code is 10000 passes the corrected verdict; SignedResponsesRejected
     * shows the slicing as written refusing the same envelope.
     */
    lemma CorrectedAcceptsSigned(apiMethod: string, payload: string, sig: string)
      requires '"' !in apiMethod && '{' !in apiMethod
      requires |payload| > 0 && payload[0] == '{' && !Contains(payload, SignKey)
      requires PrivateKeyOf().Success? && PublicKeyOf().Success? && PublicKeyOf().value.isRsa
      requires KeyPair(crypto, PrivateKeyOf().value, PublicKeyOf().value) && Base64RoundTrips(crypto)
      requires Sign(payload) == Success(sig)
      requires crypto.unmarshalStatus(payload).status.code == SuccessCode
      ensures CorrectedVerdict(Signed(ResponseNode(apiMethod), payload, sig), apiMethod) == Pass
    {
      CorrectedSigned(apiMethod, payload, sig);
      SignThenVerify(payload, sig);
    }

    /** The corrected verdict reads an envelope without a signature by its status alone. */
    lemma CorrectedUnsignedVerdict(apiMethod: string, payload: string)
      requires '"' !in apiMethod && '{' !in apiMethod
      requires |payload| > 0 && payload[0] == '{' && !Contains(payload, SignKey)
      ensures CorrectedVerdict(Unsigned(ResponseNode(apiMethod), payload), apiMethod)
           == if crypto.unmarshalStatus(payload).status.code == SuccessCode then Pass
              else Fail(ApiError(crypto.unmarshalStatus(payload).status))
    {
      CorrectedUnsigned(apiMethod, payload);
    }

    /**
     * CheckResponse. An unreadable body yields the error response with every
     * status field empty; a readable one is drained and, on success, replaced
     * by the payload.
     */
    method CheckResponse(r: Response, apiMethod: string) returns (err: Outcome<CheckError>)
      modifies r
      ensures old(r.body).Unreadable? ==> err == Fail(ApiError(Status("", "", "", ""))) && r.body == old(r.body)
      ensures old(r.body).Readable? ==> err == Verdict(old(r.body).data, apiMethod)
      ensures old(r.body).Readable? ==>
        r.body == if err.Pass? then Readable(ExtractAsWritten(old(r.body).data, apiMethod).value.resp) else Readable("")
    {
      if r.body.Unreadable? {
        return Fail(ApiError(Status("", "", "", "")));
      }
      var data := r.body.data;
      r.body := Readable("");
      var parts := ExtractAsWritten(data, apiMethod);
      if parts.Failure? {
        return Fail(Panicked(parts.error));
      }
      var resp, sign := parts.value.resp, parts.value.sign;
      var status := crypto.unmarshalStatus(resp).status;
      var verified := VerifySign(resp, sign);
      if verified == Fail(NotRsaKey) {
        return Fail(Panicked(NotRsaPublicKey));
      }
      if verified.Fail? {
        return Fail(InvalidSignature);
      }
      if status.code == SuccessCode {
        r.body := Readable(resp);
        return Pass;
      }
      return Fail(ApiError(status));
    }
  }
}
