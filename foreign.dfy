/**
 * What the client calls but does not implement: RSA PKCS#1 v1.5, SHA-1 and
 * SHA-256, base64, x509 key parsing, encoding/json and url.QueryEscape. Each
 * is a field of `Primitives`, a value the client is built with, so the model
 * says which primitive is applied to what and in which order without saying
 * anything about what the primitive computes.
 */
module Foreign {
  import opened Wrappers

  /** Raw bytes; Go's []byte and string hold the same byte sequence. */
  type Bytes = string

  /** crypto.SHA1 or crypto.SHA256 */
  datatype Hash = SHA1 | SHA256

  /** An *rsa.PrivateKey, known only by identity. */
  datatype PrivateKey = PrivateKey(id: nat)

  /** A parsed public key; x509.ParsePKIXPublicKey can also yield a non-RSA key. */
  datatype PublicKey = PublicKey(id: nat, isRsa: bool)

  /** A Go value handed to encoding/json, known only by identity. */
  datatype GoValue = GoValue(id: nat)

  /** The fields json.Unmarshal fills in ErrorResponse: code, msg, sub_code, sub_msg. */
  datatype Status = Status(code: string, msg: string, subCode: string, subMsg: string)

  /**
   * json.Unmarshal of a payload into an ErrorResponse: the fields it set, its
   * error if any, and whether the payload was the JSON literal null, which
   * leaves a struct untouched but sets a pointer to nil.
   */
  datatype StatusDecoding = StatusDecoding(status: Status, error: Option<string>, isNull: bool)

  /** base64.StdEncoding.DecodeString: the bytes decoded and whether decoding succeeded. */
  datatype Decoded = Decoded(bytes: Bytes, ok: bool)

  /** An *os.File sent as one part of a multipart body: its base name and its contents. */
  datatype File = File(name: string, content: Bytes)

  datatype Primitives = Primitives(
    /** crypto.Hash.New(h), Write(content), Sum(nil) */
    digest: (Hash, Bytes) -> Bytes,
    /** rsa.SignPKCS1v15(rand.Reader, key, h, digest) */
    signPKCS1v15: (PrivateKey, Hash, Bytes) -> Result<Bytes, string>,
    /** rsa.VerifyPKCS1v15(key, h, digest, signature) == nil */
    verifyPKCS1v15: (PublicKey, Hash, Bytes, Bytes) -> bool,
    /** base64.StdEncoding.EncodeToString */
    base64Encode: Bytes -> string,
    /** base64.StdEncoding.DecodeString */
    base64Decode: string -> Decoded,
    /** x509.ParsePKCS1PrivateKey */
    parsePKCS1PrivateKey: Bytes -> Result<PrivateKey, string>,
    /** x509.ParsePKIXPublicKey */
    parsePKIXPublicKey: Bytes -> Result<PublicKey, string>,
    /** A json.Encoder with SetEscapeHTML(false): the JSON text, without the newline Encode appends */
    jsonEncode: GoValue -> Result<string, string>,
    /** json.Marshal, which escapes '<', '>' and '&' as \u003c, \u003e and \u0026 */
    jsonMarshal: GoValue -> Result<string, string>,
    /** json.Unmarshal into map[string]json.RawMessage */
    unmarshalObject: Bytes -> Result<map<string, Bytes>, string>,
    /** json.Unmarshal into a string */
    unmarshalString: Bytes -> Result<string, string>,
    /** json.Unmarshal into an ErrorResponse whose fields are all "" */
    unmarshalStatus: Bytes -> StatusDecoding,
    /** url.QueryEscape */
    queryEscape: string -> string
  )

  /**
   * The hash both revisions sign and verify with: SHA1 for the sign type
   * "RSA" and SHA256 for every other value ("RSA2", "", anything).
   */
  function HashFor(signType: string): (h: Hash)
    ensures h == SHA1 <==> signType == "RSA"
    ensures h == SHA256 <==> signType != "RSA"
  {
    if signType == "RSA" then SHA1 else SHA256
  }

  /**
   * rsa.SignPKCS1v15 over the digest of `content` under hash `h`, then the
   * signature in standard base64; a signing error is passed on unchanged.
   */
  function SignBase64(p: Primitives, key: PrivateKey, h: Hash, content: Bytes): (r: Result<string, string>)
    ensures p.signPKCS1v15(key, h, p.digest(h, content)).Failure? <==> r.Failure?
  {
    match p.signPKCS1v15(key, h, p.digest(h, content))
    case Success(signature) => Success(p.base64Encode(signature))
    case Failure(e) => Failure(e)
  }

  /** A key pair: every signature the private key makes, the public key accepts. */
  ghost predicate KeyPair(p: Primitives, priv: PrivateKey, pub: PublicKey) {
    forall h, d, signature :: p.signPKCS1v15(priv, h, d) == Success(signature) ==> p.verifyPKCS1v15(pub, h, d, signature)
  }

  /** Standard base64 decodes what it encodes. */
  ghost predicate Base64RoundTrips(p: Primitives) {
    forall b :: p.base64Decode(p.base64Encode(b)) == Decoded(b, true)
  }

  /** An *http.Response body: the bytes ReadAll yields, or the error it fails with. */
  datatype Stream = Readable(data: Bytes) | Unreadable(cause: string)

  /** The part of an *http.Response the client reads and replaces: its body. */
  class Response {
    var body: Stream

    constructor (body: Stream)
      ensures this.body == body
    {
      this.body := body;
    }
  }

  /** The characters of base64.StdEncoding, padding included. */
  predicate IsBase64Char(c: char) {
    ('A' <= c <= 'Z') || ('a' <= c <= 'z') || ('0' <= c <= '9') || c == '+' || c == '/' || c == '='
  }

  /**
   * What base64.StdEncoding.DecodeString is known to do: a string holding a
   * double quote, which is outside its alphabet, fails to decode.
   */
  ghost predicate RejectsQuotes(p: Primitives) {
    forall s: string :: '"' in s ==> !p.base64Decode(s).ok
  }
}
