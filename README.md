# Alipay client: request signing and response checking

A Dafny model of the core of a Go client for the Alipay open API gateway,
in both of its revisions.

**The current client (`alipay/alipay.go`, module `Alipay`)**

- Options and setters: a client is built from options (app id, format,
  charset, sign type, version) that option setters overwrite.
- Request: for an API method, the client builds a POST request whose
  parameters are:
  - the seven fixed ones;
  - those the value setters add;
  - the business content, either as a JSON `biz_content` parameter or as a
    `MultiRender`'s own parameters and files.
- Signing: the parameters are signed with RSA over a canonical string. It
  lists every key in ascending byte order and every non-empty value as
  `k=v`, joined with `&`.
- Responses:
  - the client picks the member of the JSON envelope whose name contains
    "response";
  - when a `sign` member is present, it checks the signature over that
    payload;
  - it accepts the payload only when its status code is `10000`.

**The first revision (`alipay.go` at the repository root, modules
`LegacyAlipay` and `LegacyEnvelope`)**

- It keeps its keys as base64 strings.
- It signs the URL-encoded form of the parameters.
- It finds the payload and the signature by slicing the body at fixed
  offsets from the first "sign" and from the member name.

**The mini-program version audit payload (`alipay/mini_version.go`, module
`MiniVersion`)**

- It renders its text fields into a parameter map (`Params`).
- It renders its file fields into a file map (`MultipartParams`).

**Supporting modules**

- `UrlValues` models Go's `url.Values`:
  - `Set` and `Get`;
  - the byte-wise order of `sort.Strings`;
  - `Values.Encode`.
- `Canonical` holds the canonical string that the signer writes.
- `GoStrings` holds `strings.Index` and `strings.Contains`.
- `Foreign` holds the primitives the client calls but does not define:
  - hashing, RSA signing and verification;
  - base64, JSON encoding and decoding;
  - query escaping.

  They are function-typed fields of one `Primitives` value, and the
  properties the proofs rely on (a key pair verifies what its private half
  signed; base64 decodes what it encoded) are stated as predicates over it.
- `Wrappers` holds `Option`, `Result` and `Outcome`.

**Modelling conventions**

- Go strings and byte slices are both `seq<char>`, one `char` per byte.
- The time stamp and the multipart boundary, which the source reads from the
  clock and from `crypto/rand`, are parameters.
- Go's map iteration order is a nondeterministic choice (`:|`).
- Go run-time panics (slice bounds, a nil key) are error values.

## Model

| member | source | states |
|---|---|---|
| Alipay.Apply | alipay/alipay.go:45-95 | an option setter writes its own field and leaves every other field of Options as it was |
| Alipay.LastSetter | alipay/alipay.go:139-141 | finds the last setter that writes a field; no later setter writes it, and none at all does when it returns None |
| Alipay.ConfigureOptions | alipay/alipay.go:133-141 | each option ends as the last setter's value for it, else the default (JSON, utf-8, RSA2); the version is "1.0", which none of the library's setters can change |
| Alipay.Client.constructor | alipay/alipay.go:129-156 | NewClient keeps the given keys, configures the options as ConfigureOptions states, and uses the default gateway address and user agent |
| Alipay.NotifyURL | alipay/alipay.go:55-60 | the setter sets notify_url to its argument |
| Alipay.AuthToken | alipay/alipay.go:62-67 | the setter sets auth_token to its argument |
| Alipay.AppAuthToken | alipay/alipay.go:69-74 | the setter sets app_auth_token to its argument |
| Alipay.LastValueOption | alipay/alipay.go:180-182 | finds the last value setter that writes a key; no later one writes it |
| Alipay.ValueOptionsEffect | alipay/alipay.go:180-182 | after the value setters run, a key some setter writes holds the last such setter's value alone; every other key is left as it was |
| Alipay.Fixed | alipay/alipay.go:172-179 | the seven fixed parameters are present, and no others, each with exactly one value taken from the options, the method or the time stamp |
| Alipay.Overlay | alipay/alipay.go:199-202 | a MultiRender's params replace the parameters of the same name; the rest are kept; the key set is the union |
| Alipay.SetAll | alipay/alipay.go:199-202 | setting a MultiRender's params one by one, in any map order, yields Overlay |
| Alipay.FirstValues | alipay/alipay.go:211-213 | each multipart form field holds the first value of the parameter of the same name, with the same key set |
| Alipay.WriteFields | alipay/alipay.go:211-213 | the WriteField loop, in any map order, writes FirstValues |
| Alipay.WriteValues | alipay/alipay.go:274-285 | the inner loop appends the non-empty values of one key, each as k=v after '&' unless the buffer is empty |
| Alipay.WriteCanonical | alipay/alipay.go:267-287 | the buffer Sign writes is the canonical string of the parameters |
| Alipay.Client.Sign | alipay/alipay.go:263-305 | without a private key the signature is ""; otherwise it is the base64 RSA signature of the canonical string, under SHA-1 for sign type "RSA" and SHA-256 for any other |
| Alipay.Client.SignatureIgnoresEmptyValues | alipay/alipay.go:275-278 | a key whose values are all empty signs as if it were absent |
| Alipay.Client.VerifySign | alipay/alipay.go:425-438 | a signature that is not base64 is refused; it is accepted exactly when it decodes, the public key is set, and RSA verification under the sign type's hash holds; a nil public key gives NilPublicKey, and Rejected only happens with a key |
| Alipay.Client.SignThenVerify | alipay/alipay.go:425-438 | with a matching key pair, VerifySign accepts over the canonical string what Sign produced for it, because both choose the same hash |
| Alipay.Client.InputPrecedence | alipay/alipay.go:172-233 | which value each signed parameter has: a MultiRender's own params, then biz_content, then the last value setter, then the fixed seven |
| Alipay.Client.NewRequest | alipay/alipay.go:163-260 | the request is a POST to the base address; it carries the charset query, the content type of its branch and the user agent when set; its body holds the signed parameters plus sign, URL-encoded or as multipart fields with the files; a JSON or signing error is returned instead |
| Alipay.Client.VerificationComesFirst | alipay/alipay.go:400-409 | a signed envelope whose signature does not decode or verify is refused with a signature error before the status is read |
| Alipay.Client.AcceptedIff | alipay/alipay.go:400-421 | the payload is accepted exactly when (a) the sign is absent or empty, or it decodes and verifies over the payload, and (b) the payload decodes, is not JSON null, and has code 10000 |
| Alipay.Client.NullPayloadPanics | alipay/alipay.go:410-416 | an unsigned envelope whose response member is JSON null decodes the error response pointer to nil, and reading its code panics; the corrected status check refuses it with an empty error response |
| Alipay.Client.CorrectedStatusGate | alipay/alipay.go:410-421 | the intended status check never panics; it accepts exactly a payload that decodes, is not null and has code 10000, and reads null as the empty error response |
| Alipay.Client.ApiErrorCarriesStatus | alipay/alipay.go:410-421 | an API error carries the status decoded from the payload, and its code is not 10000 |
| Alipay.Client.CheckResponse | alipay/alipay.go:384-422 | (1) an unreadable body gives the empty error response; (2) an envelope that does not decode gives its error; (3) otherwise the payload is a member named with "response" (or empty), and the verdict is Gate's, including the nil-pointer panic on a null payload; on success the body is replaced by the payload |
| Foreign.HashFor | alipay/alipay.go:289-292 | sign type "RSA" selects SHA-1, every other SHA-256 |
| Foreign.SignBase64 | alipay/alipay.go:293-303 | signing fails exactly when RSA signing of the digest fails |
| Canonical.CanonicalPairsSpec | alipay/alipay.go:267-286 | the pairs signed are exactly the key/value pairs with a non-empty value, and their keys ascend |
| Canonical.KeyValuesSigned | alipay/alipay.go:273-286 | under each key exactly the non-empty values of that key's list are signed, each once and in list order; nothing is signed under a missing key |
| Canonical.EmptyValuesDropped | alipay/alipay.go:275-278 | a key whose every value is empty leaves the canonical string as if the key were absent |
| Canonical.AllEmptyGivesEmpty | alipay/alipay.go:273-287 | parameters whose every value is empty give the empty string |
| Canonical.CanonicalShape | alipay/alipay.go:279-284 | when no key or value holds '&', the string is empty exactly when every value is, and otherwise splits on '&' into the rendered pairs in order |
| UrlValues.Set | alipay/alipay.go:172-179 | Values.Set replaces the key's list by the single value |
| UrlValues.Get | alipay/alipay.go:208-213 | Values.Get is the first value, or "" for a missing key or an empty list |
| UrlValues.StrictlySortedUnique | alipay/alipay.go:272 | two strictly sorted sequences with the same elements are equal, so the sorted key list is unique |
| UrlValues.SortStrings | alipay/alipay.go:272 | sort.Strings yields a sorted permutation of its input |
| UrlValues.CollectKeys | alipay/alipay.go:268-271 | the key-collecting loop yields every key once |
| UrlValues.SortedKeyList | alipay/alipay.go:268-272 | Sign's key list is the parameter keys in strictly ascending byte order |
| UrlValues.Encode | alipay/alipay.go:234 | Values.Encode writes the escaped pairs in ascending key order, joined with '&', and "" for no parameters |
| GoStrings.Index | alipay.go:302-303 | strings.Index is the first offset where the pattern occurs, or -1 when it occurs nowhere |
| GoStrings.Contains | alipay/alipay.go:395 | strings.Contains holds exactly when the pattern occurs somewhere |
| LegacyAlipay.Apply | alipay.go:42-76 | an option setter writes its own field and leaves every other field as it was |
| LegacyAlipay.LastSetter | alipay.go:107-109 | finds the last setter that writes a field; no later setter writes it |
| LegacyAlipay.ConfigureOptions | alipay.go:102-109 | each option ends as the last setter's value for it, else the default (JSON, utf8, RSA2); version, notify URL and app auth token stay empty |
| LegacyAlipay.Client.constructor | alipay.go:98-113 | NewClient configures the options as ConfigureOptions states, with the default gateway address and user agent |
| LegacyAlipay.Client.PrivateKeyOf | alipay.go:181-188 | the private key is the option base64-decoded and then PKCS #1-parsed; bad base64 fails |
| LegacyAlipay.Client.PublicKeyOf | alipay.go:332-336 | the public key is the option base64-decoded, with a decoding error ignored, then PKIX-parsed |
| LegacyAlipay.Client.Sign | alipay.go:173-198 | a key error is returned as is; otherwise the result is the base64 RSA signature of the content under the sign type's hash |
| LegacyAlipay.Client.VerifySign | alipay.go:327-345 | non-base64 signatures, including any holding a quote, are refused; it is accepted exactly when the signature decodes, the key parses, is RSA and verifies under the sign type's hash; a key that does not parse gives KeyError with the parser's error, and a key that is not RSA gives NotRsaKey (the failed type assertion) |
| LegacyAlipay.Client.SignThenVerify | alipay.go:327-345 | with a matching RSA key pair, VerifySign accepts what Sign produced for the same content |
| LegacyAlipay.Client.CommonParamsContent | alipay.go:132-140 | the eight common parameters hold the options, method, time stamp, version "1.0" and biz_content, and only they |
| LegacyAlipay.Client.ParamsContent | alipay.go:141-146 | app_auth_token and notify_url are sent exactly when their options are non-empty; the common parameters are sent unchanged |
| LegacyAlipay.EncodedFormIsNotCanonical | alipay.go:147 | for one parameter whose name escapes to itself and whose value escaping changes, the URL-encoded form that is signed differs from the canonical string |
| LegacyAlipay.Client.NewRequest | alipay.go:120-171 | (1) nil content, a JSON error, a key error, an invalid verb or a verb other than POST/GET are errors; (2) a GET carries the signed parameters in its query; (3) a POST carries them only as its form, with a nil body |
| LegacyAlipay.Client.Verdict | alipay.go:299-344 | a panic of the slicing is propagated; a public key that is not RSA panics at the type assertion; any other verification failure gives "invalid signature"; a verified payload with a code other than 10000 gives the error response with its decoded status; accepted exactly when the slicing succeeds, the signature verifies and the code is 10000 |
| LegacyAlipay.Client.SignedResponsesRejected | alipay.go:305-316 | every envelope the gateway signs is refused as having an invalid signature |
| LegacyAlipay.Client.SignMethodResponsePanics | alipay.go:301-310 | a response to a method whose name holds "sign" panics |
| LegacyAlipay.Client.UnsignedResponsePanics | alipay.go:308-310 | a response without a signature panics |
| LegacyAlipay.Client.CorrectedVerdict | alipay.go:299-344 | with the corrected extraction: an envelope that does not split is refused as malformed; a signature checked under a key that is not RSA panics as in the source, any other verification failure gives "invalid signature"; accepted exactly when the envelope splits, its signature (if any) verifies, and the code is 10000 |
| LegacyAlipay.Client.CorrectedAcceptsSigned | alipay.go:305-316 | with a matching key pair, a signed envelope whose payload has code 10000 is accepted by the corrected verdict |
| LegacyAlipay.Client.CorrectedUnsignedVerdict | alipay.go:308-316 | the corrected verdict reads an unsigned envelope by its status alone |
| LegacyAlipay.Client.CheckResponse | alipay.go:292-344 | an unreadable body gives the empty error response; otherwise the verdict is Verdict's, including the panics of the slicing and of the type assertion, and on success the body is replaced by the payload |
| LegacyEnvelope.ResponseNode | alipay.go:301 | the member name is the method with every '.' replaced by '_', then "_response" |
| LegacyEnvelope.Slice | alipay.go:306-310 | a Go slice succeeds exactly when 0 <= lo <= hi <= len, and panics otherwise |
| LegacyEnvelope.SignedNodeIndex | alipay.go:302 | in a signed envelope the member name is found at offset 2 |
| LegacyEnvelope.SignedSignIndex | alipay.go:303 | in a signed envelope the first "sign" is the signature member's name |
| LegacyEnvelope.SignatureKeepsQuotes | alipay.go:305-307 | on a signed envelope the payload is taken correctly, but the signature keeps its opening quote and the closing `"}` |
| LegacyEnvelope.SignInMethodPanics | alipay.go:303-310 | a method name holding "sign" makes the slicing panic |
| LegacyEnvelope.UnsignedPanics | alipay.go:308-310 | an envelope without a signature makes the slicing panic |
| LegacyEnvelope.ExtractCorrected | alipay.go:299-311 | the corrected extraction's payload fits inside the envelope |
| LegacyEnvelope.CorrectedSigned | alipay.go:305-307 | the corrected extraction takes back both the payload and the signature from a signed envelope |
| LegacyEnvelope.CorrectedUnsigned | alipay.go:308-310 | the corrected extraction takes the payload from an unsigned envelope and reports no signature |
| MiniVersion.RegionInfoJson | alipay/mini_version.go:129-132 | the region list is rendered by json.Marshal, which escapes HTML characters, unlike the request's biz_content encoder; it is "" when marshalling fails, since the error is ignored |
| MiniVersion.TextKeysDistinct | alipay/mini_version.go:88-149 | no two text fields share a parameter name (test_accout included) |
| MiniVersion.FileKeysDistinct | alipay/mini_version.go:151-202 | no two file fields share a name |
| MiniVersion.KeysDisjoint | alipay/mini_version.go:88-202 | no text parameter name, nor service_region_info, is a file name |
| MiniVersion.TextUpToKeys | alipay/mini_version.go:90-147 | after the first n inserts of Params, an insert's key is present exactly when it is among them and its condition held |
| MiniVersion.TextUpToValues | alipay/mini_version.go:90-147 | after the first n inserts, each present key holds its own field's value |
| MiniVersion.FilesUpToKeys | alipay/mini_version.go:153-200 | after the first n inserts of MultipartParams, a file key is present exactly when its insert is among them and the field is non-nil |
| MiniVersion.FilesUpToValues | alipay/mini_version.go:153-200 | after the first n file inserts, each present key holds its field's file |
| MiniVersion.TextFieldsRendered | alipay/mini_version.go:88-149 | each text field is present under its name exactly when non-empty, with its own value |
| MiniVersion.RegionRendered | alipay/mini_version.go:129-132 | service_region_info is present exactly when the slice is non-nil, holding its JSON |
| MiniVersion.Params | alipay/mini_version.go:88-149 | every text field appears exactly when non-empty, with its value, under its name (test_accout for TestAccount); the region list appears exactly when non-nil, JSON-encoded; no other key appears; the receiver is a value and is unchanged |
| MiniVersion.MultipartParams | alipay/mini_version.go:151-202 | every file field appears under its name exactly when non-nil, and no other key appears |
| MiniVersion.NoEmptyTextValue | alipay/mini_version.go:88-149 | every rendered text parameter except the region list carries a non-empty value |
| MiniVersion.RenderedKeysDisjoint | alipay/mini_version.go:88-202 | a payload's text parameters and files never share a key |

## Left out

- `Do` in both revisions is not part of this model. It holds the HTTP round trip, context cancellation, `url.Error` sanitising and decoding into the caller's value, all of which is I/O.
- The HTTP client, its mutex, and the `App` and `Mini` services wired in `NewClient` are left out. They hold no state that signing or checking reads.
- Alipay.Client.NewRequest: the multipart file parts are the `MultiRender`'s file map itself; the part bodies, their order and `io.Copy` errors are not modelled. This is stream I/O.
- Alipay.Client.NewRequest: the copy of the signed parameters back into the `MultiRender`'s own map (alipay/alipay.go:208-210) is left out. It changes only the caller's map, and no later step reads it.
- Alipay.Client.NewRequest: `http.NewRequest` cannot fail on the fixed verb and the parsed base URL, so its error path is not modelled.
- LegacyAlipay.Client.NewRequest: the `http.NewRequest` failure is modelled only for an invalid verb. The URL is the parsed default and cannot fail.
- Concurrency is not modelled, in particular sharing a client across goroutines.
- Cryptography is abstract. SHA-1 and SHA-256, RSA PKCS #1 v1.5, PKCS #1 and PKIX parsing, base64, JSON and query escaping are uninterpreted functions. Only the properties stated as `KeyPair`, `Base64RoundTrips` and `RejectsQuotes` are assumed of them, as lemma preconditions.
- The time stamp (`time.Now()`) and the multipart boundary (`crypto/rand`) are parameters.
- The `*http.Response` embedded in `ErrorResponse`, and its `Error()` text, are left out. Only the four status fields are kept.
- Go panics are error values: a nil public key in `VerifySign` (`NilPublicKey`), a failed `*rsa.PublicKey` type assertion (`NotRsaKey` from `VerifySign`, which the first revision's `Verdict` and `CheckResponse` report as `Panicked(NotRsaPublicKey)`), slice bounds (`Panicked(SliceOutOfRange(..))`), and reading the code of an error response decoded from JSON null (`NilErrorResponse`).
- Alipay.ConfigureOptions, Alipay.Client.InputPrecedence and LegacyAlipay.ConfigureOptions cover only the library's own setters (`AppID`, `Format`, `Charset`, `SignType`, the three value setters, and in the first revision `PrivateKey` and `PublicKey`). `Option` and `ValueOptions` are exported function types, so a caller can write its own setter that changes any field, deletes a parameter or adds a second value; such setters are not modelled.
- MiniVersion.Params: each `if` is one `PutText`/`PutRegions` call. The region list is an opaque value whose JSON encoding is `Foreign`'s.
- LegacyEnvelope.CorrectedSigned: covers only the envelope the gateway sends, with the response member first. The sign-first layout is handled by the function but has no lemma.
- Alipay.Client.CheckResponse: the payload is a ghost result. Which member named with "response" the source picks depends on map order, so the contract says only that it is one of them.

## Findings

| source | as written | input that shows it | evidently intended | confidence | as-written member | corrected member |
|---|---|---|---|---|---|---|
| alipay.go:147 | the first revision signs `v.Encode()`, the URL-escaped form | one parameter whose value escapes differently, such as a `biz_content` JSON holding `"` or `:` | sign the unescaped canonical `k=v&...` string of non-empty values, as the current revision does | medium, not executed | LegacyAlipay.EncodedFormIsNotCanonical | Alipay.Client.Sign |
| alipay.go:157-160 | a POST puts the signed parameters only in `req.Form`, with a nil body | any POST request | send the URL-encoded parameters as the body | medium, not executed | LegacyAlipay.Client.NewRequest | Alipay.Client.NewRequest |
| alipay.go:305-307 | the signature is sliced from 6 bytes past "sign", so it keeps the opening quote and the closing `"}` | `{"m_response":{...},"sign":"AAAA"}` | take the text between the signature's quotes | high, not executed | LegacyEnvelope.SignatureKeepsQuotes | LegacyAlipay.Client.CorrectedAcceptsSigned |
| alipay.go:302-310 | the first "sign" is searched anywhere, so a method name holding "sign" makes the slice bounds inverted | method `alipay.user.agreement.sign` with any response | search for the quoted `"sign":"` member | high, not executed | LegacyEnvelope.SignInMethodPanics | LegacyEnvelope.CorrectedSigned |
| alipay/alipay.go:410-416 | the payload is decoded into `&errorResponse`, a pointer to a pointer, so JSON `null` sets the pointer to nil without an error, and reading `errorResponse.Code` panics | `{"x_response":null}` | read a null payload as the empty error response, as the first revision does by decoding into the struct itself | high, not executed | Alipay.Client.NullPayloadPanics | Alipay.Client.CorrectedStatusGate |
| alipay.go:308-310 | without a signature, `signIdx` is -1 and `dataStr[signIdx+6 : respIdx-2]` panics | `{"m_response":{"code":"10000"}}` | accept an unsigned envelope and check its status | high, not executed | LegacyAlipay.Client.UnsignedResponsePanics | LegacyAlipay.Client.CorrectedUnsignedVerdict |
