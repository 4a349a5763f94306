/**
 * The envelope slicing of the first revision's CheckResponse: where it looks
 * for the response member and for the signature, and the bounds it slices
 * with. The gateway answers with one JSON object holding the response member
 * (named after the API method) and, when signed, a "sign" member. Beside the
 * slicing as written stands a corrected extraction, proved to take both parts
 * back out of the envelopes the gateway sends.
 */
module LegacyEnvelope {
  import opened Wrappers
  import opened GoStrings

  /** The member the gateway answers under: every '.' of the API method becomes '_', then "_response". */
  function ResponseNode(apiMethod: string): (node: string)
    ensures |node| == |apiMethod| + 9 && node[|apiMethod|..] == "_response"
    ensures forall i :: 0 <= i < |apiMethod| ==>
      if apiMethod[i] == '.' then node[i] == '_' else node[i] == apiMethod[i]
  {
    Underscored(apiMethod) + "_response"
  }

  /** Every '.' of `s` replaced by '_'. */
  function Underscored(s: string): (r: string)
    ensures |r| == |s|
    ensures forall i :: 0 <= i < |s| ==> if s[i] == '.' then r[i] == '_' else r[i] == s[i]
  {
    if s == [] then [] else [if s[0] == '.' then '_' else s[0]] + Underscored(s[1..])
  }

  /** The member name keeps clear of any byte that neither the method nor "_response" holds. */
  lemma NodeAvoids(apiMethod: string, c: char)
    requires c !in apiMethod && c !in "_response"
    ensures c !in ResponseNode(apiMethod)
  {
    var node := ResponseNode(apiMethod);
    forall i | 0 <= i < |node|
      ensures node[i] != c
    {
      if i >= |apiMethod| {
        assert node[i] == node[|apiMethod|..][i - |apiMethod|];
      }
    }
  }

  /** A Go run-time panic: slice bounds out of range, or a single-valued type assertion `x.(*rsa.PublicKey)` on a key of another type. */
  datatype Panic = SliceOutOfRange(lo: int, hi: int, length: int) | NotRsaPublicKey

  /** Go's s[lo:hi]: the bytes between the two offsets, or a panic unless 0 <= lo <= hi <= len(s). */
  function Slice(s: string, lo: int, hi: int): (r: Result<string, Panic>)
    ensures r.Success? <==> 0 <= lo <= hi <= |s|
    ensures r.Success? ==> |r.value| == hi - lo && r.value == s[lo..hi]
  {
    if 0 <= lo <= hi <= |s| then Success(s[lo..hi]) else Failure(SliceOutOfRange(lo, hi, |s|))
  }

  /** What the slicing hands on: the text taken as the payload and the text taken as the signature. */
  datatype Parts = Parts(resp: string, sign: string)

  /**
   * The slicing as written: find the member name and the first "sign", then
   * cut two bytes past the name and six bytes past "sign", in whichever order
   * the two were found.
   */
  function ExtractAsWritten(data: string, apiMethod: string): Result<Parts, Panic> {
    var node := ResponseNode(apiMethod);
    var respIdx := Index(data, node);
    var signIdx := Index(data, "sign");
    if signIdx > respIdx then
      match Slice(data, respIdx + |node| + 2, signIdx - 2)
      case Failure(p) => Failure(p)
      case Success(resp) =>
        match Slice(data, signIdx + 6, |data|)
        case Failure(p) => Failure(p)
        case Success(sign) => Success(Parts(resp, sign))
    else
      match Slice(data, respIdx + |node| + 2, |data|)
      case Failure(p) => Failure(p)
      case Success(resp) =>
        match Slice(data, signIdx + 6, respIdx - 2)
        case Failure(p) => Failure(p)
        case Success(sign) => Success(Parts(resp, sign))
  }

  /** A member name in the envelope, quoted and followed by its colon. */
  function Key(node: string): (k: string)
    ensures |k| == |node| + 3 && k[0] == '"' && k[|k| - 1] == ':'
  {
    "\"" + node + "\":"
  }

  /** The opening of the signature member, up to its opening quote. */
  const SignKey: string := "\"sign\":\""

  /** The envelope the gateway sends: {"<node>":<payload>,"sign":"<sig>"}. */
  function Signed(node: string, payload: string, sig: string): string {
    "{" + Key(node) + payload + "," + SignKey + sig + "\"}"
  }

  /** An envelope without a signature: {"<node>":<payload>}. */
  function Unsigned(node: string, payload: string): string {
    "{" + Key(node) + payload + "}"
  }

  /** The opening of an envelope holds no "sign" when the member name holds none. */
  lemma OpeningFree(node: string, payload: string, pat: string)
    requires pat == "sign" && '"' !in node
    requires !Contains(node, pat) && !Contains(payload, pat)
    ensures !Contains("{" + Key(node) + payload, pat)
  {
    var a0 := "{\"";
    var a1 := a0 + node;
    var a2 := a1 + "\":";
    assert a2 == "{" + Key(node);
    ContainsNeither(a0, node, pat);
    ContainsNeither(a1, "\":", pat);
    assert a2[|a2| - 1] == ':';
    ContainsNeither(a2, payload, pat);
  }

  /** The member name sits right after the opening brace and quote. */
  lemma NodeFirst(apiMethod: string, rest: string)
    requires '"' !in apiMethod
    ensures Index("{" + Key(ResponseNode(apiMethod)) + rest, ResponseNode(apiMethod)) == 2
  {
    var node := ResponseNode(apiMethod);
    NodeAvoids(apiMethod, '"');
    var x := node + "\":" + rest;
    assert "{" + Key(node) + rest == "{\"" + x;
    assert x[..|node|] == node;
    IndexAfter("{\"", x, node);
  }

  /** In the envelope the gateway sends, the member name is found right after the opening brace and quote. */
  lemma SignedNodeIndex(apiMethod: string, payload: string, sig: string)
    requires '"' !in apiMethod
    ensures Index(Signed(ResponseNode(apiMethod), payload, sig), ResponseNode(apiMethod)) == 2
  {
    var node := ResponseNode(apiMethod);
    var rest := payload + "," + SignKey + sig + "\"}";
    assert "{" + Key(node) + rest == Signed(node, payload, sig);
    NodeFirst(apiMethod, rest);
  }

  /** In the envelope the gateway sends, the first "sign" is the signature member's name. */
  lemma SignedSignIndex(apiMethod: string, payload: string, sig: string)
    requires '"' !in apiMethod
    requires !Contains(ResponseNode(apiMethod), "sign") && !Contains(payload, "sign")
    ensures Index(Signed(ResponseNode(apiMethod), payload, sig), "sign") == |ResponseNode(apiMethod)| + |payload| + 6
  {
    var node := ResponseNode(apiMethod);
    var a3 := "{" + Key(node) + payload;
    var p := a3 + ",\"";
    var x := "sign\":\"" + sig + "\"}";
    SignedAtSign(node, payload, sig);
    assert !Contains(p, "sign") by {
      NodeAvoids(apiMethod, '"');
      OpeningFree(node, payload, "sign");
      ContainsNeither(a3, ",\"", "sign");
    }
    assert x[..4] == "sign";
    IndexAfter(p, x, "sign");
  }

  /** The envelope the gateway sends, split just before the name of the signature member. */
  lemma SignedAtSign(node: string, payload: string, sig: string)
    ensures Signed(node, payload, sig) == ("{" + Key(node) + payload + ",\"") + ("sign\":\"" + sig + "\"}")
  {
  }

  /** The envelope the gateway sends, cut where the slicing as written cuts it. */
  lemma SignedSlices(node: string, payload: string, sig: string)
    ensures |Signed(node, payload, sig)| == |node| + |payload| + |sig| + 15
    ensures Signed(node, payload, sig)[|node| + 4..|node| + 4 + |payload|] == payload
    ensures Signed(node, payload, sig)[|node| + |payload| + 12..] == "\"" + sig + "\"}"
    ensures Signed(node, payload, sig)[|node| + |payload| + 13..|node| + |payload| + 13 + |sig|] == sig
  {
    var a2 := "{" + Key(node);
    var data := Signed(node, payload, sig);
    assert data == a2 + payload + (",\"sign\":" + "\"" + sig + "\"}");
  }

  /**
   * On the envelope the gateway sends, the text taken as the signature keeps
   * the signature's opening quote and the closing `"}` of the envelope.
   */
  lemma SignatureKeepsQuotes(apiMethod: string, payload: string, sig: string)
    requires '"' !in apiMethod
    requires !Contains(ResponseNode(apiMethod), "sign") && !Contains(payload, "sign")
    ensures ExtractAsWritten(Signed(ResponseNode(apiMethod), payload, sig), apiMethod)
         == Success(Parts(payload, "\"" + sig + "\"}"))
  {
    var node := ResponseNode(apiMethod);
    SignedNodeIndex(apiMethod, payload, sig);
    SignedSignIndex(apiMethod, payload, sig);
    SignedSlices(node, payload, sig);
    AsWrittenAfter(Signed(node, payload, sig), apiMethod, payload, "\"" + sig + "\"}", 2, |node| + |payload| + 6);
  }

  /** The slicing as written, once the member name is known to come before the first "sign". */
  lemma AsWrittenAfter(data: string, apiMethod: string, resp: string, sign: string, respIdx: int, signIdx: int)
    requires Index(data, ResponseNode(apiMethod)) == respIdx
    requires Index(data, "sign") == signIdx && signIdx > respIdx
    requires 0 <= respIdx + |ResponseNode(apiMethod)| + 2 <= signIdx - 2 && signIdx + 6 <= |data|
    requires data[respIdx + |ResponseNode(apiMethod)| + 2..signIdx - 2] == resp
    requires data[signIdx + 6..] == sign
    ensures ExtractAsWritten(data, apiMethod) == Success(Parts(resp, sign))
  {
    assert data[signIdx + 6..|data|] == data[signIdx + 6..];
  }

  /** An API method whose name holds "sign" makes the slicing panic, whatever follows the member name. */
  lemma SignInMethodPanics(apiMethod: string, rest: string)
    requires '"' !in apiMethod && Contains(apiMethod, "sign")
    ensures ExtractAsWritten("{" + Key(ResponseNode(apiMethod)) + rest, apiMethod).Failure?
  {
    var node := ResponseNode(apiMethod);
    var o := Index(apiMethod, "sign");
    var s := FirstSignInNode(apiMethod, rest, o);
    NodeFirst(apiMethod, rest);
  }

  /** Replacing '.' by '_' leaves an occurrence of "sign" in place. */
  lemma NodeKeepsSign(apiMethod: string, o: int)
    requires OccursAt(apiMethod, "sign", o)
    ensures OccursAt(ResponseNode(apiMethod), "sign", o)
  {
    var node := ResponseNode(apiMethod);
    forall k | o <= k < o + 4
      ensures node[k] == apiMethod[k]
    {
      assert apiMethod[k] == apiMethod[o..o + 4][k - o];
    }
    assert node[o..o + 4] == apiMethod[o..o + 4];
  }

  /** The opening of an envelope: a brace, a quote, then the member name. */
  lemma OpeningBytes(node: string, rest: string)
    ensures ("{" + Key(node) + rest)[0] == '{' && ("{" + Key(node) + rest)[1] == '"'
    ensures ("{" + Key(node) + rest)[2..2 + |node|] == node
  {
    assert "{" + Key(node) + rest == "{\"" + node + ("\":" + rest);
  }

  /** When the method name holds "sign" at `o`, the first "sign" of the envelope lies in the member name, no later than `o`. */
  lemma FirstSignInNode(apiMethod: string, rest: string, o: int) returns (s: int)
    requires '"' !in apiMethod && o == Index(apiMethod, "sign") && o >= 0
    ensures s == Index("{" + Key(ResponseNode(apiMethod)) + rest, "sign")
    ensures 2 <= s <= 2 + o && o + 4 <= |apiMethod|
  {
    var node := ResponseNode(apiMethod);
    var data := "{" + Key(node) + rest;
    NodeKeepsSign(apiMethod, o);
    OpeningBytes(node, rest);
    assert data[2 + o..6 + o] == data[2..2 + |node|][o..o + 4];
    assert OccursAt(data, "sign", 2 + o);
    s := Index(data, "sign");
    assert data[s] == data[s..s + 4][0] == 's';
  }

  /** An envelope without a signature makes the slicing panic. */
  lemma UnsignedPanics(apiMethod: string, payload: string)
    requires '"' !in apiMethod
    requires !Contains(ResponseNode(apiMethod), "sign") && !Contains(payload, "sign")
    ensures ExtractAsWritten(Unsigned(ResponseNode(apiMethod), payload), apiMethod).Failure?
  {
    UnsignedIndexes(apiMethod, payload);
  }

  /** In an envelope without a signature there is no "sign" at all. */
  lemma UnsignedIndexes(apiMethod: string, payload: string)
    requires '"' !in apiMethod
    requires !Contains(ResponseNode(apiMethod), "sign") && !Contains(payload, "sign")
    ensures Index(Unsigned(ResponseNode(apiMethod), payload), ResponseNode(apiMethod)) == 2
    ensures Index(Unsigned(ResponseNode(apiMethod), payload), "sign") == -1
  {
    var node := ResponseNode(apiMethod);
    NodeAvoids(apiMethod, '"');
    OpeningFree(node, payload, "sign");
    ContainsNeither("{" + Key(node) + payload, "}", "sign");
    NodeFirst(apiMethod, payload + "}");
    assert "{" + Key(node) + (payload + "}") == Unsigned(node, payload);
  }

  /** The payload and, when present, the signature of an envelope. */
  datatype Envelope = Envelope(payload: string, sign: Option<string>)

  /**
   * The corrected extraction: search for the quoted member names, so that
   * neither the method name nor the payload is mistaken for the signature,
   * take the signature between its quotes, and accept an envelope without one.
   */
  function ExtractCorrected(data: string, apiMethod: string): (r: Result<Envelope, string>)
    ensures r.Success? ==> |r.value.payload| + |Key(ResponseNode(apiMethod))| + 1 <= |data|
  {
    var key := Key(ResponseNode(apiMethod));
    var respIdx := Index(data, key);
    var signIdx := Index(data, SignKey);
    if respIdx < 0 then Failure("response member missing")
    else if signIdx < 0 then
      if respIdx + |key| <= |data| - 1 then Success(Envelope(data[respIdx + |key|..|data| - 1], None))
      else Failure("envelope truncated")
    else if signIdx > respIdx then
      if respIdx + |key| <= signIdx - 1 && signIdx + |SignKey| <= |data| - 2 then
        Success(Envelope(data[respIdx + |key|..signIdx - 1], Some(data[signIdx + |SignKey|..|data| - 2])))
      else Failure("envelope truncated")
    else if signIdx + |SignKey| <= respIdx - 2 && respIdx + |key| <= |data| - 1 then
      Success(Envelope(data[respIdx + |key|..|data| - 1], Some(data[signIdx + |SignKey|..respIdx - 2])))
    else Failure("envelope truncated")
  }

  /** A quoted member name free of quotes cannot hold the signature key, which has three. */
  lemma KeyFree(node: string)
    requires '"' !in node
    ensures !Contains("{" + Key(node), SignKey)
  {
    var s := "{" + Key(node);
    forall j | 0 <= j && j + |SignKey| <= |s|
      ensures !OccursAt(s, SignKey, j)
    {
      assert s[j + 5] == node[j + 3];
      assert s[j..j + |SignKey|][5] == s[j + 5];
    }
  }

  /** The quoted member name is found right after the opening brace. */
  lemma KeyFirst(apiMethod: string, rest: string)
    requires '{' !in apiMethod
    ensures Index("{" + Key(ResponseNode(apiMethod)) + rest, Key(ResponseNode(apiMethod))) == 1
  {
    var key := Key(ResponseNode(apiMethod));
    NodeAvoids(apiMethod, '{');
    assert '{' !in key;
    var x := key + rest;
    assert "{" + key + rest == "{" + x;
    assert x[..|key|] == key;
    IndexAfter("{", x, key);
  }

  /** In the envelope the gateway sends, the first signature key is the signature member's. */
  lemma SignedKeyIndex(apiMethod: string, payload: string, sig: string)
    requires '"' !in apiMethod
    requires |payload| > 0 && payload[0] == '{' && !Contains(payload, SignKey)
    ensures Index(Signed(ResponseNode(apiMethod), payload, sig), SignKey) == |ResponseNode(apiMethod)| + |payload| + 5
  {
    var node := ResponseNode(apiMethod);
    NodeAvoids(apiMethod, '"');
    var a2 := "{" + Key(node);
    var p := a2 + payload + ",";
    var x := SignKey + sig + "\"}";
    assert Signed(node, payload, sig) == p + x;
    assert !Contains(a2 + payload, SignKey) by {
      KeyFree(node);
      ContainsNeither(a2, payload, SignKey);
    }
    ContainsNeither(a2 + payload, ",", SignKey);
    assert x[..|SignKey|] == SignKey;
    IndexAfter(p, x, SignKey);
  }

  /** In the envelope the gateway sends, the quoted member name is found right after the opening brace. */
  lemma SignedKeyFirst(apiMethod: string, payload: string, sig: string)
    requires '{' !in apiMethod
    ensures Index(Signed(ResponseNode(apiMethod), payload, sig), Key(ResponseNode(apiMethod))) == 1
  {
    var node := ResponseNode(apiMethod);
    var rest := payload + "," + SignKey + sig + "\"}";
    assert "{" + Key(node) + rest == Signed(node, payload, sig);
    KeyFirst(apiMethod, rest);
  }

  /** The corrected extraction takes payload and signature back out of the envelope the gateway sends. */
  lemma CorrectedSigned(apiMethod: string, payload: string, sig: string)
    requires '"' !in apiMethod && '{' !in apiMethod
    requires |payload| > 0 && payload[0] == '{' && !Contains(payload, SignKey)
    ensures ExtractCorrected(Signed(ResponseNode(apiMethod), payload, sig), apiMethod)
         == Success(Envelope(payload, Some(sig)))
  {
    var node := ResponseNode(apiMethod);
    var data := Signed(node, payload, sig);
    SignedKeyFirst(apiMethod, payload, sig);
    SignedKeyIndex(apiMethod, payload, sig);
    SignedSlices(node, payload, sig);
    CorrectedAfter(data, apiMethod, payload, sig, 1, |node| + |payload| + 5);
  }

  /** The corrected extraction, once the member name is known to come before the signature. */
  lemma CorrectedAfter(data: string, apiMethod: string, payload: string, sig: string, respIdx: int, signIdx: int)
    requires Index(data, Key(ResponseNode(apiMethod))) == respIdx >= 0
    requires Index(data, SignKey) == signIdx && signIdx > respIdx
    requires respIdx + |Key(ResponseNode(apiMethod))| <= signIdx - 1 && signIdx + |SignKey| <= |data| - 2
    requires data[respIdx + |Key(ResponseNode(apiMethod))|..signIdx - 1] == payload
    requires data[signIdx + |SignKey|..|data| - 2] == sig
    ensures ExtractCorrected(data, apiMethod) == Success(Envelope(payload, Some(sig)))
  {
    var key := Key(ResponseNode(apiMethod));
    assert ExtractCorrected(data, apiMethod)
        == Success(Envelope(data[respIdx + |key|..signIdx - 1], Some(data[signIdx + |SignKey|..|data| - 2])));
  }

  /** The corrected extraction takes the payload out of an envelope without a signature. */
  lemma CorrectedUnsigned(apiMethod: string, payload: string)
    requires '"' !in apiMethod && '{' !in apiMethod
    requires |payload| > 0 && payload[0] == '{' && !Contains(payload, SignKey)
    ensures ExtractCorrected(Unsigned(ResponseNode(apiMethod), payload), apiMethod)
         == Success(Envelope(payload, None))
  {
    var node := ResponseNode(apiMethod);
    NodeAvoids(apiMethod, '"');
    var data := Unsigned(node, payload);
    var a2 := "{" + Key(node);
    KeyFirst(apiMethod, payload + "}");
    assert a2 + (payload + "}") == data;
    KeyFree(node);
    ContainsNeither(a2, payload, SignKey);
    ContainsNeither(a2 + payload, "}", SignKey);
    assert data[1 + |Key(node)|..|data| - 1] == payload;
  }
}
