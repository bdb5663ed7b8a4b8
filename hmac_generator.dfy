/** `HmacSignatureBuilder`: a mutable builder of request signatures. The
    setters fill nine fields; `Build` checks the required ones and feeds the
    canonical message to a keyed MAC. The MAC (HMAC, RFC 2104, over the named
    hash) is an argument of the operations that need it. */
module HmacGenerator {
  import opened Wrappers
  import opened Encoding

  /** HMAC keyed with the second argument over the third, using the hash the
      first names; `None` when no such hash is available. */
  type Mac = (string, Bytes, Bytes) -> Option<Bytes>

  /** What the secret field holds: nothing yet, bytes, or a value of another
      type that `set_apiSecret` kept as it was given. */
  datatype Secret = NoSecret | KeyBytes(bytes: Bytes) | NotBytes

  /** The argument of `set_apiSecret`: text, a bytes-like value (`bytes` or
      `bytearray`, both of which `hmac.new` accepts as a key), `None`, or a
      value of any other type. */
  datatype SecretArg = TextArg(text: string) | BytesArg(bytes: Bytes) | NoneArg | OtherArg

  datatype BuildError =
    | MissingRequiredFields   // ValueError
    | KeyNotBytes             // TypeError from hmac.new
    | UnsupportedDigest       // ValueError from hmac.new

  /** The message each error carries. For the two errors of `hmac.new` this
      is the fixed prefix of CPython's text, which goes on to name the key's
      type or the digest. */
  function ErrorMessage(e: BuildError): string
  {
    match e
    case MissingRequiredFields => "Missing required fields to build signature"
    case KeyNotBytes => "key: expected bytes or bytearray"
    case UnsupportedDigest => "unsupported hash type"
  }

  /** Each error is told apart by its message. */
  lemma ErrorMessageInjective(a: BuildError, b: BuildError)
    requires ErrorMessage(a) == ErrorMessage(b)
    ensures a == b
  {
  }

  /** The nine fields of a builder. */
  datatype BuilderState = BuilderState(
    algorithm: Option<string>,
    host: Option<string>,
    httpMethod: Option<string>,
    resource: Option<string>,
    nonce: Option<string>,
    apiKey: Option<string>,
    apiSecret: Secret,
    date: Option<string>,
    contentType: Option<string>)

  /** Python truthiness of a string field: set and non-empty. */
  predicate Truthy(field: Option<string>)
  {
    field.Some? && |field.value| > 0
  }

  /** The `all([...])` check: nonce and secret are not part of it. */
  predicate RequiredFieldsPresent(st: BuilderState)
  {
    && Truthy(st.algorithm) && Truthy(st.host) && Truthy(st.httpMethod) && Truthy(st.resource)
    && Truthy(st.contentType) && Truthy(st.apiKey) && Truthy(st.date)
  }

  /** The encoded fields in signing order, the last line empty; an absent
      nonce gives an empty line. */
  function Lines(httpMethod: string, host: string, resource: string, contentType: string,
                 apiKey: string, nonce: Option<string>, date: string): seq<Bytes>
  {
    [Utf8(httpMethod), Utf8(host), Utf8(resource), Utf8(contentType), Utf8(apiKey), Utf8(nonce.GetOr("")), Utf8(date), []]
  }

  /** The signed message: each line followed by a line feed. */
  function CanonicalMessage(httpMethod: string, host: string, resource: string, contentType: string,
                            apiKey: string, nonce: Option<string>, date: string): Bytes
  {
    Framed(Lines(httpMethod, host, resource, contentType, apiKey, nonce, date), NEWLINE)
  }

  /** The message as the sequence of `update` calls writes it. */
  lemma CanonicalMessageWritten(httpMethod: string, host: string, resource: string, contentType: string,
                                apiKey: string, nonce: Option<string>, date: string)
    ensures CanonicalMessage(httpMethod, host, resource, contentType, apiKey, nonce, date)
         == Utf8(httpMethod) + [NEWLINE] + Utf8(host) + [NEWLINE] + Utf8(resource) + [NEWLINE]
            + Utf8(contentType) + [NEWLINE] + Utf8(apiKey) + [NEWLINE] + Utf8(nonce.GetOr("")) + [NEWLINE]
            + Utf8(date) + [NEWLINE] + [NEWLINE]
  {
    var ls := Lines(httpMethod, host, resource, contentType, apiKey, nonce, date);
    FramedEight(ls, NEWLINE);
    var prefix := ls[0] + [NEWLINE] + ls[1] + [NEWLINE] + ls[2] + [NEWLINE] + ls[3] + [NEWLINE]
                  + ls[4] + [NEWLINE] + ls[5] + [NEWLINE] + ls[6] + [NEWLINE];
    assert prefix + ls[7] == prefix;
  }

  /** The message holds exactly eight line feed bytes beyond those inside the
      fields, whether or not a nonce is set. */
  lemma MessageNewlines(httpMethod: string, host: string, resource: string, contentType: string,
                        apiKey: string, nonce: Option<string>, date: string)
    ensures Count(CanonicalMessage(httpMethod, host, resource, contentType, apiKey, nonce, date), NEWLINE)
         == 8 + Count(httpMethod, '\n') + Count(host, '\n') + Count(resource, '\n') + Count(contentType, '\n')
              + Count(apiKey, '\n') + Count(nonce.GetOr(""), '\n') + Count(date, '\n')
  {
    var ls := Lines(httpMethod, host, resource, contentType, apiKey, nonce, date);
    FramedCount(ls, NEWLINE);
    Utf8Newlines(httpMethod);
    Utf8Newlines(host);
    Utf8Newlines(resource);
    Utf8Newlines(contentType);
    Utf8Newlines(apiKey);
    Utf8Newlines(nonce.GetOr(""));
    Utf8Newlines(date);
    assert CountIn(ls[7..], NEWLINE) == 0;
    assert CountIn(ls[6..], NEWLINE) == Count(ls[6], NEWLINE);
    assert CountIn(ls[5..], NEWLINE) == Count(ls[5], NEWLINE) + CountIn(ls[6..], NEWLINE);
    assert CountIn(ls[4..], NEWLINE) == Count(ls[4], NEWLINE) + CountIn(ls[5..], NEWLINE);
    assert CountIn(ls[3..], NEWLINE) == Count(ls[3], NEWLINE) + CountIn(ls[4..], NEWLINE);
    assert CountIn(ls[2..], NEWLINE) == Count(ls[2], NEWLINE) + CountIn(ls[3..], NEWLINE);
    assert CountIn(ls[1..], NEWLINE) == Count(ls[1], NEWLINE) + CountIn(ls[2..], NEWLINE);
  }

  predicate NoNewline(s: string)
  {
    '\n' !in s
  }

  /** With line-free fields, splitting the message at line feeds gives back
      the seven encoded fields (the nonce line empty when no nonce is set)
      and the two empty pieces after the final delimiters. */
  lemma MessageSplit(httpMethod: string, host: string, resource: string, contentType: string,
                     apiKey: string, nonce: Option<string>, date: string)
    requires NoNewline(httpMethod) && NoNewline(host) && NoNewline(resource) && NoNewline(contentType)
    requires NoNewline(apiKey) && NoNewline(nonce.GetOr("")) && NoNewline(date)
    ensures Split(CanonicalMessage(httpMethod, host, resource, contentType, apiKey, nonce, date), NEWLINE)
         == [Utf8(httpMethod), Utf8(host), Utf8(resource), Utf8(contentType), Utf8(apiKey),
             Utf8(nonce.GetOr("")), Utf8(date), [], []]
  {
    var ls := Lines(httpMethod, host, resource, contentType, apiKey, nonce, date);
    Utf8NoNewline(httpMethod);
    Utf8NoNewline(host);
    Utf8NoNewline(resource);
    Utf8NoNewline(contentType);
    Utf8NoNewline(apiKey);
    Utf8NoNewline(nonce.GetOr(""));
    Utf8NoNewline(date);
    SplitFramed(ls, NEWLINE);
  }

  /** Line-free field tuples that sign the same message are the same tuple
      (an absent nonce and an empty one coincide). */
  lemma MessageInjective(m1: string, h1: string, r1: string, c1: string, k1: string, n1: Option<string>, d1: string,
                         m2: string, h2: string, r2: string, c2: string, k2: string, n2: Option<string>, d2: string)
    requires NoNewline(m1) && NoNewline(h1) && NoNewline(r1) && NoNewline(c1) && NoNewline(k1) && NoNewline(n1.GetOr("")) && NoNewline(d1)
    requires NoNewline(m2) && NoNewline(h2) && NoNewline(r2) && NoNewline(c2) && NoNewline(k2) && NoNewline(n2.GetOr("")) && NoNewline(d2)
    requires CanonicalMessage(m1, h1, r1, c1, k1, n1, d1) == CanonicalMessage(m2, h2, r2, c2, k2, n2, d2)
    ensures m1 == m2 && h1 == h2 && r1 == r2 && c1 == c2 && k1 == k2 && n1.GetOr("") == n2.GetOr("") && d1 == d2
  {
    MessageSplit(m1, h1, r1, c1, k1, n1, d1);
    MessageSplit(m2, h2, r2, c2, k2, n2, d2);
    var s1 := Split(CanonicalMessage(m1, h1, r1, c1, k1, n1, d1), NEWLINE);
    assert s1[0] == Utf8(m1) && s1[0] == Utf8(m2);
    Utf8Injective(m1, m2);
    assert s1[1] == Utf8(h1) && s1[1] == Utf8(h2);
    Utf8Injective(h1, h2);
    assert s1[2] == Utf8(r1) && s1[2] == Utf8(r2);
    Utf8Injective(r1, r2);
    assert s1[3] == Utf8(c1) && s1[3] == Utf8(c2);
    Utf8Injective(c1, c2);
    assert s1[4] == Utf8(k1) && s1[4] == Utf8(k2);
    Utf8Injective(k1, k2);
    assert s1[5] == Utf8(n1.GetOr("")) && s1[5] == Utf8(n2.GetOr(""));
    Utf8Injective(n1.GetOr(""), n2.GetOr(""));
    assert s1[6] == Utf8(d1) && s1[6] == Utf8(d2);
    Utf8Injective(d1, d2);
  }

  /** What `build()` returns or raises for a builder in state `st`. */
  function Signature(st: BuilderState, mac: Mac): Result<Bytes, BuildError>
  {
    if !RequiredFieldsPresent(st) then Err(MissingRequiredFields)
    else if !st.apiSecret.KeyBytes? then Err(KeyNotBytes)
    else
      var message := CanonicalMessage(st.httpMethod.value, st.host.value, st.resource.value,
                                      st.contentType.value, st.apiKey.value, st.nonce, st.date.value);
      match mac(st.algorithm.value, st.apiSecret.bytes, message)
      case None => Err(UnsupportedDigest)
      case Some(d) => Ok(d)
  }

  /** `build` raises the missing-fields error exactly when one of the seven
      required fields is unset or empty; otherwise a byte key and a known
      hash give the MAC of the canonical message. */
  lemma SignatureCases(st: BuilderState, mac: Mac)
    ensures Signature(st, mac) == Err(MissingRequiredFields) <==> !RequiredFieldsPresent(st)
    ensures Signature(st, mac) == Err(KeyNotBytes) <==> RequiredFieldsPresent(st) && !st.apiSecret.KeyBytes?
    ensures Signature(st, mac).Ok? ==>
      && RequiredFieldsPresent(st) && st.apiSecret.KeyBytes?
      && mac(st.algorithm.value, st.apiSecret.bytes,
             CanonicalMessage(st.httpMethod.value, st.host.value, st.resource.value, st.contentType.value,
                              st.apiKey.value, st.nonce, st.date.value)) == Some(Signature(st, mac).value)
  {
  }

  class HmacSignatureBuilder {
    var algorithm: Option<string>
    var host: Option<string>
    var httpMethod: Option<string>
    var resource: Option<string>
    var nonce: Option<string>
    var apiKey: Option<string>
    var apiSecret: Secret
    var date: Option<string>
    var contentType: Option<string>

    function State(): BuilderState
      reads this
    {
      BuilderState(algorithm, host, httpMethod, resource, nonce, apiKey, apiSecret, date, contentType)
    }

    constructor ()
      ensures State() == BuilderState(None, None, None, None, None, None, NoSecret, None, None)
    {
      algorithm, host, httpMethod, resource, nonce := None, None, None, None, None;
      apiKey, apiSecret, date, contentType := None, NoSecret, None, None;
    }

    method SetAlgorithm(value: Option<string>) returns (self: HmacSignatureBuilder)
      modifies this
      ensures self == this && State() == old(State()).(algorithm := value)
    {
      algorithm := value;
      self := this;
    }

    method SetHost(value: Option<string>) returns (self: HmacSignatureBuilder)
      modifies this
      ensures self == this && State() == old(State()).(host := value)
    {
      host := value;
      self := this;
    }

    method SetApiKey(value: Option<string>) returns (self: HmacSignatureBuilder)
      modifies this
      ensures self == this && State() == old(State()).(apiKey := value)
    {
      apiKey := value;
      self := this;
    }

    method SetMethod(value: Option<string>) returns (self: HmacSignatureBuilder)
      modifies this
      ensures self == this && State() == old(State()).(httpMethod := value)
    {
      httpMethod := value;
      self := this;
    }

    method SetResource(value: Option<string>) returns (self: HmacSignatureBuilder)
      modifies this
      ensures self == this && State() == old(State()).(resource := value)
    {
      resource := value;
      self := this;
    }

    method SetContentType(value: Option<string>) returns (self: HmacSignatureBuilder)
      modifies this
      ensures self == this && State() == old(State()).(contentType := value)
    {
      contentType := value;
      self := this;
    }

    method SetDate(value: Option<string>) returns (self: HmacSignatureBuilder)
      modifies this
      ensures self == this && State() == old(State()).(date := value)
    {
      date := value;
      self := this;
    }

    method SetNonce(value: Option<string>) returns (self: HmacSignatureBuilder)
      modifies this
      ensures self == this && State() == old(State()).(nonce := value)
    {
      nonce := value;
      self := this;
    }

    /** Text is stored as its UTF-8 bytes; anything else is stored as given. */
    method SetApiSecret(secret: SecretArg) returns (self: HmacSignatureBuilder)
      modifies this
      ensures self == this
      ensures secret.TextArg? ==> State() == old(State()).(apiSecret := KeyBytes(Utf8(secret.text)))
      ensures secret.BytesArg? ==> State() == old(State()).(apiSecret := KeyBytes(secret.bytes))
      ensures secret.NoneArg? ==> State() == old(State()).(apiSecret := NoSecret)
      ensures secret.OtherArg? ==> State() == old(State()).(apiSecret := NotBytes)
    {
      self := this;
      match secret
      case TextArg(text) => apiSecret := KeyBytes(Utf8(text));
      case BytesArg(bytes) => apiSecret := KeyBytes(bytes);
      case NoneArg => apiSecret := NoSecret;
      case OtherArg => apiSecret := NotBytes;
    }

    /** `build()`. It changes no field, so calls on the same builder agree. */
    method Build(mac: Mac) returns (r: Result<Bytes, BuildError>)
      ensures r == Signature(State(), mac)
    {
      if !(Truthy(algorithm) && Truthy(host) && Truthy(httpMethod) && Truthy(resource)
           && Truthy(contentType) && Truthy(apiKey) && Truthy(date)) {
        return Err(MissingRequiredFields);
      }
      if !apiSecret.KeyBytes? {
        return Err(KeyNotBytes);
      }
      var m, h, res, ct, key, n, d := httpMethod.value, host.value, resource.value, contentType.value,
                                       apiKey.value, nonce, date.value;
      // The digest object of `hmac.new`, seen through what has been fed to it.
      var fed: Bytes := [];
      fed := fed + Utf8(m);
      assert fed == Utf8(m);
      fed := fed + [NEWLINE];
      fed := fed + Utf8(h);
      fed := fed + [NEWLINE];
      fed := fed + Utf8(res);
      fed := fed + [NEWLINE];
      fed := fed + Utf8(ct);
      fed := fed + [NEWLINE];
      fed := fed + Utf8(key);
      fed := fed + [NEWLINE];
      if n.Some? {
        fed := fed + Utf8(n.value);
      } else {
        assert fed + Utf8(n.GetOr("")) == fed;
      }
      fed := fed + [NEWLINE];
      fed := fed + Utf8(d);
      fed := fed + [NEWLINE];
      fed := fed + [NEWLINE];
      CanonicalMessageWritten(m, h, res, ct, key, n, d);
      assert fed == CanonicalMessage(m, h, res, ct, key, n, d);
      match mac(algorithm.value, apiSecret.bytes, fed)
      case None => r := Err(UnsupportedDigest);
      case Some(d) => r := Ok(d);
    }

    /** `isHashEquals`: the built signature compared with the expected bytes. */
    method IsHashEquals(mac: Mac, expected: Bytes) returns (r: Result<bool, BuildError>)
      ensures Signature(State(), mac).Err? ==> r == Err(Signature(State(), mac).error)
      ensures Signature(State(), mac).Ok? ==> r == Ok(Signature(State(), mac).value == expected)
    {
      var signature := Build(mac);
      match signature
      case Err(e) => r := Err(e);
      case Ok(bytes) => r := Ok(bytes == expected);
    }

    /** `buildAsHexString`: twice as many characters as signature bytes, all in
        `0-9A-F`, reading back to the signature. */
    method BuildAsHexString(mac: Mac) returns (r: Result<string, BuildError>)
      ensures Signature(State(), mac).Err? ==> r == Err(Signature(State(), mac).error)
      ensures Signature(State(), mac).Ok? ==>
        && r.Ok?
        && r.value == UpperAscii(Hex(Signature(State(), mac).value))
        && |r.value| == 2 * |Signature(State(), mac).value|
        && (forall k :: 0 <= k < |r.value| ==> IsUpperHexDigit(r.value[k]))
        && DecodeUpperHex(r.value) == Signature(State(), mac).value
    {
      var signature := Build(mac);
      match signature
      case Err(e) => r := Err(e);
      case Ok(bytes) =>
        UpperHexRoundTrip(bytes);
        r := Ok(UpperAscii(Hex(bytes)));
    }

    /** `buildAsBase64String`: the standard Base64 text of the signature, which
        decodes back to it. */
    method BuildAsBase64String(mac: Mac) returns (r: Result<string, BuildError>)
      ensures Signature(State(), mac).Err? ==> r == Err(Signature(State(), mac).error)
      ensures Signature(State(), mac).Ok? ==>
        && r.Ok?
        && r.value == Base64(Signature(State(), mac).value)
        && |r.value| == 4 * ((|Signature(State(), mac).value| + 2) / 3)
        && DecodeBase64(r.value) == Signature(State(), mac).value
    {
      var signature := Build(mac);
      match signature
      case Err(e) => r := Err(e);
      case Ok(bytes) =>
        Base64RoundTrip(bytes);
        r := Ok(Base64(bytes));
    }
  }

  const SIGNATURE_HOST: string := "edw-bedrock-api.vpn.edw.dev.vonagenetworks.net"
  const SIGNATURE_RESOURCE: string := "/edw-bedrock/invoke"

  /** The builder `get_signature` assembles. */
  function SignatureRequest(date: string, apiKeyVar: Option<string>, apiSecretVar: Option<string>): BuilderState
  {
    BuilderState(Some("sha512"), Some(SIGNATURE_HOST), Some("POST"), Some(SIGNATURE_RESOURCE),
                 Some("XXXX"), apiKeyVar,
                 if apiSecretVar.Some? then KeyBytes(Utf8(apiSecretVar.value)) else NoSecret,
                 Some(date), Some("application/json"))
  }

  /** `get_signature`: the Base64 text of the signature of `SignatureRequest`.
      The `API_KEY` and `API_SECRET` environment variables are arguments. */
  method GetSignature(date: string, apiKeyVar: Option<string>, apiSecretVar: Option<string>, mac: Mac)
    returns (r: Result<string, BuildError>)
    ensures var sig := Signature(SignatureRequest(date, apiKeyVar, apiSecretVar), mac);
      && (sig.Err? ==> r == Err(sig.error))
      && (sig.Ok? ==> r == Ok(Base64(sig.value)))
  {
    var builder := new HmacSignatureBuilder();
    builder := builder.SetAlgorithm(Some("sha512"));
    builder := builder.SetHost(Some(SIGNATURE_HOST));
    builder := builder.SetMethod(Some("POST"));
    builder := builder.SetResource(Some(SIGNATURE_RESOURCE));
    builder := builder.SetContentType(Some("application/json"));
    builder := builder.SetDate(Some(date));
    builder := builder.SetNonce(Some("XXXX"));
    builder := builder.SetApiKey(apiKeyVar);
    builder := builder.SetApiSecret(if apiSecretVar.Some? then TextArg(apiSecretVar.value) else NoneArg);
    assert builder.State() == SignatureRequest(date, apiKeyVar, apiSecretVar);
    var signatureBytes := builder.Build(mac);
    if signatureBytes.Err? {
      return Err(signatureBytes.error);
    }
    r := builder.BuildAsBase64String(mac);
  }
}
