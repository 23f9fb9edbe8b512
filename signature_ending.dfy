/**
 * The signature-ending output processor: once the security header is reached it emits the
 * <ds:Signature> element of section 4 of W3C XML-Signature Syntax and Processing (SignedInfo
 * with one Reference per signed part, section 4.3), the SignatureValue, and a KeyInfo whose
 * SecurityTokenReference takes one of the forms of OASIS WSS SOAP Message Security 1.1,
 * section 7, and the X.509 Token Profile 1.1.
 *
 * Events are pushed one at a time through a sub-chain. While the SignedInfo processor is in
 * that chain, every event also reaches the signer, which records it; the signature value is
 * an opaque function of the recorded events and the signing key.
 */
module SignatureEnding {
  import opened Wrappers
  import opened Errors
  import opened Certificates
  import opened Xml
  import opened SecurityEvents
  import opened Sequences

  // ---------------------------------------------------------------- names

  const DSIG_NS := "http://www.w3.org/2000/09/xmldsig#"
  const WSSE_NS := "http://docs.oasis-open.org/wss/2004/01/oasis-200401-wss-wssecurity-secext-1.0.xsd"
  const WSU_NS := "http://docs.oasis-open.org/wss/2004/01/oasis-200401-wss-wssecurity-utility-1.0.xsd"

  const BASE64_ENCODING := "http://docs.oasis-open.org/wss/2004/01/oasis-200401-wss-soap-message-security-1.0#Base64Binary"
  const X509_V3_TYPE := "http://docs.oasis-open.org/wss/2004/01/oasis-200401-wss-x509-token-profile-1.0#X509v3"
  const X509_SKI_TYPE := "http://docs.oasis-open.org/wss/2004/01/oasis-200401-wss-x509-token-profile-1.0#X509SubjectKeyIdentifier"
  const THUMBPRINT_TYPE := "http://docs.oasis-open.org/wss/oasis-wss-soap-message-security-1.1#ThumbprintSHA1"
  const USERNAMETOKEN_TYPE := "http://docs.oasis-open.org/wss/2004/01/oasis-200401-wss-username-token-profile-1.0#UsernameToken"

  function Ds(localPart: string): QName { QName(DSIG_NS, localPart) }
  function Wsse(localPart: string): QName { QName(WSSE_NS, localPart) }

  const ATT_Id := QName("", "Id")
  const ATT_URI := QName("", "URI")
  const ATT_Algorithm := QName("", "Algorithm")
  const ATT_EncodingType := QName("", "EncodingType")
  const ATT_ValueType := QName("", "ValueType")
  const ATT_wsu_Id := QName(WSU_NS, "Id")

  // ---------------------------------------------------------------- configuration and inputs

  /** Constants.KeyIdentifierType; `OtherKeyIdentifier` is any constant this processor does not handle. */
  datatype KeyIdentifierType =
    | IssuerSerial | SkiKeyIdentifier | X509KeyIdentifier | ThumbprintIdentifier
    | BstEmbedded | BstDirectReference | UsernameTokenSigned
    | OtherKeyIdentifier(name: string)

  /** The signature-related security properties. */
  datatype SecurityProperties = SecurityProperties(
    signatureUser: Option<string>,
    tokenUser: Option<string>,
    keyIdentifierType: KeyIdentifierType,
    signatureAlgorithm: string,
    canonicalizationAlgorithm: string,
    digestAlgorithm: string)

  /** One pending Reference: the id of the signed part and its (Base64) digest. */
  datatype SignaturePartDef = SignaturePartDef(sigRefId: string, digestValue: string)

  /** What SignatureAlgorithmFactory does with the configured signature algorithm. */
  datatype AlgorithmLookup = Available | NoSuchAlgorithm | NoSuchProvider

  datatype SecurityToken = SecurityToken(keyMaterial: Bytes)
  /** A security token provider: its id, and the token it hands out (None when it has none). */
  datatype TokenProvider = TokenProvider(id: string, token: Option<SecurityToken>)

  /** The key the signature algorithm is initialised with. */
  datatype SigningKey =
    | PrivateKey(alias: string, password: string)
    | SecretKey(keyMaterial: Bytes, algorithm: string)
    | NotInitialised

  /**
   * The answers of the collaborators: the certificates the crypto returns for the alias
   * (None for null), the password the callback sets (None for null), the algorithm lookup,
   * and the token provider registered for the token user (None for null).
   */
  datatype Environment = Environment(
    certificates: Option<seq<X509Certificate>>,
    password: Option<string>,
    algorithm: AlgorithmLookup,
    tokenProvider: Option<TokenProvider>)

  /** The random suffixes of the generated ids. */
  datatype Ids = Ids(certUuid: string, signatureUuid: string, keyInfoUuid: string, strUuid: string)

  // ---------------------------------------------------------------- the emitted events

  /** Events emitted by one step, and the exception that ended it, if any. */
  datatype Emission = Emission(events: seq<XmlEvent>, failure: Option<SecurityError>)

  /** What processing the header produced. */
  datatype HeaderResult = HeaderResult(
    events: seq<XmlEvent>,                   // everything pushed through the sub-chain
    signerInput: seq<XmlEvent>,              // what the SignedInfo processor recorded
    outcome: Result<Bytes, SecurityError>)   // the signature value, or the exception

  function CertUri(ids: Ids): string { "CertId-" + ids.certUuid }

  function BstAttributes(certUri: string): Attributes {
    map[ATT_EncodingType := BASE64_ENCODING, ATT_ValueType := X509_V3_TYPE, ATT_wsu_Id := certUri]
  }

  /** The certificates in use: those found for the signature user; none without one. */
  function CertificatesFor(props: SecurityProperties, env: Environment): Option<seq<X509Certificate>> {
    if props.signatureUser.Some? then env.certificates else None
  }

  /** A signature user is configured but no certificate was found for it. */
  predicate NoUserCerts(props: SecurityProperties, env: Environment) {
    props.signatureUser.Some? && (env.certificates.None? || |env.certificates.value| == 0)
  }

  /** The BinarySecurityToken emitted before <ds:Signature> for a direct reference. */
  function BstSegment(kit: KeyIdentifierType, certs: Option<seq<X509Certificate>>, certUri: string): Emission
    requires certs.Some? ==> |certs.value| > 0
  {
    if kit != BstDirectReference then Emission([], None)
    else
      var start := [Start(Wsse("BinarySecurityToken"), BstAttributes(certUri))];
      if certs.None? then Emission(start, Some(NullPointer))
      else if certs.value[0].encoded.None? then
        Emission(start, Some(Wrap(FailedSignature, "CertificateEncodingException")))
      else Emission(start + [Chars(Base64(certs.value[0].encoded.value)), End(Wsse("BinarySecurityToken"))], None)
  }

  function SignatureStart(ids: Ids): XmlEvent {
    Start(Ds("Signature"), map[ATT_Id := "Signature-" + ids.signatureUuid])
  }

  /** The key the signer is initialised with, and the token provider used for it. */
  datatype KeySetup = KeySetup(key: SigningKey, provider: Option<TokenProvider>)

  function InitSign(props: SecurityProperties, env: Environment, password: string): Result<KeySetup, SecurityError> {
    if props.signatureUser.Some? then
      Success(KeySetup(PrivateKey(props.signatureUser.value, password), None))
    else if props.tokenUser.Some? then
      if env.tokenProvider.None? || env.tokenProvider.value.token.None? then
        Failure(WSSecurityException(FailedSignature, None, [], None))
      else
        Success(KeySetup(SecretKey(env.tokenProvider.value.token.value.keyMaterial, props.signatureAlgorithm), env.tokenProvider))
    else Success(KeySetup(NotInitialised, None))
  }

  /** An element with attributes and no content. */
  function EmptyElement(name: QName, attributes: Attributes): seq<XmlEvent> {
    [Start(name, attributes), End(name)]
  }

  /** An element holding only the given text. */
  function TextElement(name: QName, attributes: Attributes, text: Text): seq<XmlEvent> {
    [Start(name, attributes), Chars(text), End(name)]
  }

  /** CanonicalizationMethod and SignatureMethod, the head of SignedInfo. */
  function SignedInfoHead(props: SecurityProperties): seq<XmlEvent> {
    EmptyElement(Ds("CanonicalizationMethod"), map[ATT_Algorithm := props.canonicalizationAlgorithm])
    + EmptyElement(Ds("SignatureMethod"), map[ATT_Algorithm := props.signatureAlgorithm])
  }

  function ReferenceAttributes(part: SignaturePartDef): Attributes {
    map[ATT_URI := "#" + part.sigRefId]
  }

  /** The start of a <ds:Reference> and its Transforms, which hold the one c14n Transform. */
  function ReferenceOpen(props: SecurityProperties, part: SignaturePartDef): seq<XmlEvent> {
    [Start(Ds("Reference"), ReferenceAttributes(part)), Start(Ds("Transforms"), map[]),
     Start(Ds("Transform"), map[ATT_Algorithm := props.canonicalizationAlgorithm]), End(Ds("Transform")),
     End(Ds("Transforms"))]
  }

  /** The DigestMethod and DigestValue of a <ds:Reference>, and its end tag. */
  function ReferenceDigest(props: SecurityProperties, part: SignaturePartDef): seq<XmlEvent> {
    [Start(Ds("DigestMethod"), map[ATT_Algorithm := props.digestAlgorithm]), End(Ds("DigestMethod")),
     Start(Ds("DigestValue"), map[]), Chars(Str(part.digestValue)), End(Ds("DigestValue")),
     End(Ds("Reference"))]
  }

  /** The <ds:Reference> of one signed part. */
  function ReferenceBlock(props: SecurityProperties, part: SignaturePartDef): (r: seq<XmlEvent>)
    ensures |r| == 11
  {
    ReferenceOpen(props, part) + ReferenceDigest(props, part)
  }

  /** The References of the parts, in list order. */
  function References(props: SecurityProperties, parts: seq<SignaturePartDef>): seq<XmlEvent>
    decreases |parts|
  {
    if parts == [] then []
    else References(props, parts[..|parts| - 1]) + ReferenceBlock(props, parts[|parts| - 1])
  }

  /** The whole <ds:SignedInfo> element. */
  function SignedInfoEvents(props: SecurityProperties, parts: seq<SignaturePartDef>): seq<XmlEvent> {
    [Start(Ds("SignedInfo"), map[])] + SignedInfoHead(props) + References(props, parts) + [End(Ds("SignedInfo"))]
  }

  function SignatureValueEvents(value: Bytes): seq<XmlEvent> {
    TextElement(Ds("SignatureValue"), map[], Base64(value))
  }

  /** The opening of <ds:KeyInfo> and of its <wsse:SecurityTokenReference>. */
  function KeyInfoOpen(ids: Ids): seq<XmlEvent> {
    [Start(Ds("KeyInfo"), map[ATT_Id := "KeyId-" + ids.keyInfoUuid]),
     Start(Wsse("SecurityTokenReference"), map[ATT_wsu_Id := "STRId-" + ids.strUuid])]
  }

  const KEY_INFO_CLOSE: seq<XmlEvent> :=
    [End(Wsse("SecurityTokenReference")), End(Ds("KeyInfo")), End(Ds("Signature"))]

  function KeyIdentifierAttributes(valueType: string): Attributes {
    map[ATT_EncodingType := BASE64_ENCODING, ATT_ValueType := valueType]
  }

  function DirectReferenceAttributes(uri: string, valueType: string): Attributes {
    map[ATT_URI := uri, ATT_ValueType := valueType]
  }

  /** X509Data with the issuer name and serial number of the first certificate. */
  function IssuerSerialSegment(certs: Option<seq<X509Certificate>>): Emission
    requires certs.Some? ==> |certs.value| > 0
  {
    var open := [Start(Ds("X509Data"), map[]), Start(Ds("X509IssuerSerial"), map[]), Start(Ds("X509IssuerName"), map[])];
    if certs.None? then Emission(open, Some(NullPointer))
    else
      var c := certs.value[0];
      Emission(open + [Chars(Str(c.issuerName)), End(Ds("X509IssuerName"))]
               + TextElement(Ds("X509SerialNumber"), map[], Str(c.serialNumber))
               + [End(Ds("X509IssuerSerial")), End(Ds("X509Data"))], None)
  }

  /** A subject-key-identifier KeyIdentifier; only a version 3 certificate has one. */
  function SkiSegment(certs: Option<seq<X509Certificate>>): Emission
    requires certs.Some? ==> |certs.value| > 0
  {
    if certs.None? then Emission([], Some(NullPointer))
    else if certs.value[0].version != 3 then Emission([], Some(Raise(FailedSignature, "invalidCertForSKI")))
    else Emission(TextElement(Wsse("KeyIdentifier"), KeyIdentifierAttributes(X509_SKI_TYPE), Base64(certs.value[0].ski)), None)
  }

  /**
   * A KeyIdentifier computed from the encoded certificate: the encoding itself, or its
   * SHA-1 thumbprint.
   */
  function EncodedKeyIdentifierSegment(certs: Option<seq<X509Certificate>>, thumbprint: bool): Emission
    requires certs.Some? ==> |certs.value| > 0
  {
    var open := [Start(Wsse("KeyIdentifier"), KeyIdentifierAttributes(if thumbprint then THUMBPRINT_TYPE else X509_V3_TYPE))];
    if certs.None? then Emission(open, Some(NullPointer))
    else if certs.value[0].encoded.None? then Emission(open, Some(Wrap(FailedSignature, "CertificateEncodingException")))
    else
      var content := if thumbprint then certs.value[0].thumbprint else certs.value[0].encoded.value;
      Emission(open + [Chars(Base64(content)), End(Wsse("KeyIdentifier"))], None)
  }

  /** A Reference with the BinarySecurityToken embedded in it. */
  function EmbeddedSegment(certs: Option<seq<X509Certificate>>, certUri: string): Emission
    requires certs.Some? ==> |certs.value| > 0
  {
    var open := [Start(Wsse("Reference"), DirectReferenceAttributes("#" + certUri, X509_V3_TYPE)),
                 Start(Wsse("BinarySecurityToken"), BstAttributes(certUri))];
    if certs.None? then Emission(open, Some(NullPointer))
    else if certs.value[0].encoded.None? then Emission(open, Some(Wrap(FailedSignature, "CertificateEncodingException")))
    else Emission(open + [Chars(Base64(certs.value[0].encoded.value)), End(Wsse("BinarySecurityToken")), End(Wsse("Reference"))], None)
  }

  /** The content of the SecurityTokenReference for the configured key-identifier type. */
  function KeyIdentifierSegment(kit: KeyIdentifierType, certs: Option<seq<X509Certificate>>,
                                provider: Option<TokenProvider>, certUri: string): Emission
    requires certs.Some? ==> |certs.value| > 0
  {
    match kit
    case IssuerSerial => IssuerSerialSegment(certs)
    case SkiKeyIdentifier => SkiSegment(certs)
    case X509KeyIdentifier => EncodedKeyIdentifierSegment(certs, false)
    case ThumbprintIdentifier => EncodedKeyIdentifierSegment(certs, true)
    case BstEmbedded => EmbeddedSegment(certs, certUri)
    case BstDirectReference =>
      Emission(EmptyElement(Wsse("Reference"), DirectReferenceAttributes("#" + certUri, X509_V3_TYPE)), None)
    case UsernameTokenSigned =>
      if provider.None? then Emission([], Some(NullPointer))
      else Emission(EmptyElement(Wsse("Reference"), DirectReferenceAttributes("#" + provider.value.id, USERNAMETOKEN_TYPE)), None)
    case OtherKeyIdentifier(name) =>
      Emission([], Some(RaiseWith(FailedSignature, "unsupportedSecurityToken", [Some(name)])))
  }

  /** Everything before SignedInfo went through: certificates, token, password, algorithm, key. */
  predicate ReachesSignedInfo(props: SecurityProperties, env: Environment, ids: Ids) {
    && !NoUserCerts(props, env)
    && BstSegment(props.keyIdentifierType, CertificatesFor(props, env), CertUri(ids)).failure.None?
    && SignerSetup(props, env).Success?
  }

  /** In `processHeaderEvent`: KeyInfo around the token reference, closed only when the reference was written. */
  function KeyInfoSegment(kit: KeyIdentifierType, ids: Ids, certs: Option<seq<X509Certificate>>,
                          provider: Option<TokenProvider>, certUri: string): (r: Emission)
    requires certs.Some? ==> |certs.value| > 0
  {
    var ki := KeyIdentifierSegment(kit, certs, provider, certUri);
    if ki.failure.Some? then Emission(KeyInfoOpen(ids) + ki.events, ki.failure)
    else Emission(KeyInfoOpen(ids) + ki.events + KEY_INFO_CLOSE, None)
  }

  /** From SignedInfo to the end of <ds:Signature>, once the signer is initialised. */
  function SignatureTail(props: SecurityProperties, parts: seq<SignaturePartDef>, ids: Ids, setup: KeySetup,
                         certs: Option<seq<X509Certificate>>, certUri: string,
                         sign: (SigningKey, seq<XmlEvent>) -> Bytes): HeaderResult
    requires certs.Some? ==> |certs.value| > 0
  {
    var signedInfo := SignedInfoEvents(props, parts);
    var value := sign(setup.key, signedInfo);
    var keyInfo := KeyInfoSegment(props.keyIdentifierType, ids, certs, setup.provider, certUri);
    HeaderResult(signedInfo + SignatureValueEvents(value) + keyInfo.events, signedInfo,
                 if keyInfo.failure.Some? then Failure(keyInfo.failure.value) else Success(value))
  }

  /**
   * In `processHeaderEvent`: the password callback, the algorithm lookup and the initialisation of the
   * signer, in that order.
   */
  function SignerSetup(props: SecurityProperties, env: Environment): Result<KeySetup, SecurityError> {
    if env.password.None? then Failure(RaiseWith(FailedSignature, "noPassword", [props.signatureUser]))
    else if env.algorithm == NoSuchAlgorithm then Failure(Wrap(FailedSignature, "NoSuchAlgorithmException"))
    else if env.algorithm == NoSuchProvider then
      Failure(WSSecurityException(GeneralFailure, Some("noSecProvider"), [], Some(LibraryException("NoSuchProviderException"))))
    else InitSign(props, env, env.password.value)
  }

  /** In `processHeaderEvent`: everything after the Signature start tag. */
  function AfterSignatureStart(props: SecurityProperties, parts: seq<SignaturePartDef>, env: Environment, ids: Ids,
                               certs: Option<seq<X509Certificate>>, sign: (SigningKey, seq<XmlEvent>) -> Bytes): HeaderResult
    requires certs.Some? ==> |certs.value| > 0
  {
    var setup := SignerSetup(props, env);
    if setup.Failure? then HeaderResult([], [], Failure(setup.error))
    else SignatureTail(props, parts, ids, setup.value, certs, CertUri(ids), sign)
  }

  /**
   * processHeaderEvent as a function of its inputs: the events pushed through the sub-chain,
   * the events the signer recorded, and the signature value or the exception.
   */
  function Header(props: SecurityProperties, parts: seq<SignaturePartDef>, env: Environment, ids: Ids,
                  sign: (SigningKey, seq<XmlEvent>) -> Bytes): HeaderResult
  {
    if NoUserCerts(props, env) then HeaderResult([], [], Failure(Raise(FailedSignature, "noUserCertsFound")))
    else
      var certs := CertificatesFor(props, env);
      var bst := BstSegment(props.keyIdentifierType, certs, CertUri(ids));
      if bst.failure.Some? then HeaderResult(bst.events, [], Failure(bst.failure.value))
      else
        var rest := AfterSignatureStart(props, parts, env, ids, certs, sign);
        HeaderResult(bst.events + [SignatureStart(ids)] + rest.events, rest.signerInput, rest.outcome)
  }

  // ---------------------------------------------------------------- the processors

  /** The SignedInfo processor: its transformer feeds every event it sees to the signer. */
  class SignedInfoProcessor {
    const key: SigningKey
    var fed: seq<XmlEvent>

    constructor (key: SigningKey)
      ensures this.key == key && fed == []
    {
      this.key := key;
      fed := [];
    }

    method ProcessEvent(e: XmlEvent)
      modifies this
      ensures fed == old(fed) + [e]
    {
      fed := fed + [e];
    }

    /** Closes the signer stream and signs what it was fed. */
    method GetSignatureValue(sign: (SigningKey, seq<XmlEvent>) -> Bytes) returns (value: Bytes)
      ensures value == sign(key, fed)
    {
      value := sign(key, fed);
    }
  }

  /**
   * The sub-chain below the ending processor: what reaches the rest of the chain, the
   * SignedInfo processor when it has been added, and the security context's event list.
   */
  class OutputChain {
    var output: seq<XmlEvent>
    var signedInfo: SignedInfoProcessor?
    var securityEvents: seq<SecurityEvent>

    constructor ()
      ensures output == [] && signedInfo == null && securityEvents == []
    {
      output := [];
      signedInfo := null;
      securityEvents := [];
    }

    /** Passes an event down the chain, through the SignedInfo processor when it is present. */
    method ProcessEvent(e: XmlEvent)
      modifies this, signedInfo
      ensures signedInfo == old(signedInfo)
      ensures output == old(output) + [e] && securityEvents == old(securityEvents)
      ensures signedInfo != null ==> signedInfo.fed == old(signedInfo.fed) + [e]
    {
      if signedInfo != null {
        signedInfo.ProcessEvent(e);
      }
      output := output + [e];
    }

    method AddProcessor(p: SignedInfoProcessor)
      modifies this
      ensures signedInfo == p && output == old(output) && securityEvents == old(securityEvents)
    {
      signedInfo := p;
    }

    method RemoveProcessor()
      modifies this
      ensures signedInfo == null && output == old(output) && securityEvents == old(securityEvents)
    {
      signedInfo := null;
    }

    method RegisterSecurityEvent(e: SecurityEvent)
      modifies this
      ensures securityEvents == old(securityEvents) + [e]
      ensures signedInfo == old(signedInfo) && output == old(output)
    {
      securityEvents := securityEvents + [e];
    }
  }

  /** SignatureEndingOutputProcessor, with the parts its signature processor collected. */
  class SignatureEndingOutputProcessor {
    const props: SecurityProperties
    const signaturePartDefList: seq<SignaturePartDef>

    constructor (props: SecurityProperties, signaturePartDefList: seq<SignaturePartDef>)
      ensures this.props == props && this.signaturePartDefList == signaturePartDefList
    {
      this.props := props;
      this.signaturePartDefList := signaturePartDefList;
    }

    /** In `processHeaderEvent`: the BinarySecurityToken of a direct reference. */
    method EmitBinarySecurityToken(chain: OutputChain, certs: Option<seq<X509Certificate>>, certUri: string)
      returns (failure: Option<SecurityError>)
      requires chain.signedInfo == null
      requires certs.Some? ==> |certs.value| > 0
      modifies chain
      ensures chain.signedInfo == null && chain.securityEvents == old(chain.securityEvents)
      ensures chain.output == old(chain.output) + BstSegment(props.keyIdentifierType, certs, certUri).events
      ensures failure == BstSegment(props.keyIdentifierType, certs, certUri).failure
    {
      failure := None;
      if props.keyIdentifierType == BstDirectReference {
        chain.ProcessEvent(Start(Wsse("BinarySecurityToken"), BstAttributes(certUri)));
        if certs.None? {
          return Some(NullPointer);
        }
        var encoded := certs.value[0].encoded;
        if encoded.None? {
          return Some(Wrap(FailedSignature, "CertificateEncodingException"));
        }
        chain.ProcessEvent(Chars(Base64(encoded.value)));
        chain.ProcessEvent(End(Wsse("BinarySecurityToken")));
      }
    }

    /** In `processHeaderEvent`: the Reference start tag and its Transforms. */
    method EmitReferenceOpen(chain: OutputChain, part: SignaturePartDef)
      requires chain.signedInfo != null
      modifies chain, chain.signedInfo
      ensures chain.signedInfo == old(chain.signedInfo) && chain.securityEvents == old(chain.securityEvents)
      ensures chain.output == old(chain.output) + ReferenceOpen(props, part)
      ensures chain.signedInfo.fed == old(chain.signedInfo.fed) + ReferenceOpen(props, part)
    {
      chain.ProcessEvent(Start(Ds("Reference"), map[ATT_URI := "#" + part.sigRefId]));
      chain.ProcessEvent(Start(Ds("Transforms"), map[]));
      chain.ProcessEvent(Start(Ds("Transform"), map[ATT_Algorithm := props.canonicalizationAlgorithm]));
      chain.ProcessEvent(End(Ds("Transform")));
      chain.ProcessEvent(End(Ds("Transforms")));
    }

    /** In `processHeaderEvent`: DigestMethod, DigestValue and the Reference end tag. */
    method EmitReferenceDigest(chain: OutputChain, part: SignaturePartDef)
      requires chain.signedInfo != null
      modifies chain, chain.signedInfo
      ensures chain.signedInfo == old(chain.signedInfo) && chain.securityEvents == old(chain.securityEvents)
      ensures chain.output == old(chain.output) + ReferenceDigest(props, part)
      ensures chain.signedInfo.fed == old(chain.signedInfo.fed) + ReferenceDigest(props, part)
    {
      chain.ProcessEvent(Start(Ds("DigestMethod"), map[ATT_Algorithm := props.digestAlgorithm]));
      chain.ProcessEvent(End(Ds("DigestMethod")));
      chain.ProcessEvent(Start(Ds("DigestValue"), map[]));
      chain.ProcessEvent(Chars(Str(part.digestValue)));
      chain.ProcessEvent(End(Ds("DigestValue")));
      chain.ProcessEvent(End(Ds("Reference")));
    }

    /** In `processHeaderEvent`: one Reference, pushed through the chain while the signer listens. */
    method EmitReference(chain: OutputChain, part: SignaturePartDef)
      requires chain.signedInfo != null
      modifies chain, chain.signedInfo
      ensures chain.signedInfo == old(chain.signedInfo) && chain.securityEvents == old(chain.securityEvents)
      ensures chain.output == old(chain.output) + ReferenceBlock(props, part)
      ensures chain.signedInfo.fed == old(chain.signedInfo.fed) + ReferenceBlock(props, part)
    {
      EmitReferenceOpen(chain, part);
      EmitReferenceDigest(chain, part);
      AppendAssoc(old(chain.output), ReferenceOpen(props, part), ReferenceDigest(props, part));
      AppendAssoc(old(chain.signedInfo.fed), ReferenceOpen(props, part), ReferenceDigest(props, part));
    }

    /** In `processHeaderEvent`: the SignedInfo start tag, CanonicalizationMethod and SignatureMethod. */
    method EmitSignedInfoHead(chain: OutputChain)
      requires chain.signedInfo != null
      modifies chain, chain.signedInfo
      ensures chain.signedInfo == old(chain.signedInfo) && chain.securityEvents == old(chain.securityEvents)
      ensures chain.output == old(chain.output) + [Start(Ds("SignedInfo"), map[])] + SignedInfoHead(props)
      ensures chain.signedInfo.fed == old(chain.signedInfo.fed) + [Start(Ds("SignedInfo"), map[])] + SignedInfoHead(props)
    {
      chain.ProcessEvent(Start(Ds("SignedInfo"), map[]));
      chain.ProcessEvent(Start(Ds("CanonicalizationMethod"), map[ATT_Algorithm := props.canonicalizationAlgorithm]));
      chain.ProcessEvent(End(Ds("CanonicalizationMethod")));
      chain.ProcessEvent(Start(Ds("SignatureMethod"), map[ATT_Algorithm := props.signatureAlgorithm]));
      chain.ProcessEvent(End(Ds("SignatureMethod")));
    }

    /** In `processHeaderEvent`: the loop over the signature parts, one Reference each, in list order. */
    method EmitReferences(chain: OutputChain)
      requires chain.signedInfo != null
      modifies chain, chain.signedInfo
      ensures chain.signedInfo == old(chain.signedInfo) && chain.securityEvents == old(chain.securityEvents)
      ensures chain.output == old(chain.output) + References(props, signaturePartDefList)
      ensures chain.signedInfo.fed == old(chain.signedInfo.fed) + References(props, signaturePartDefList)
    {
      var sip := chain.signedInfo;
      var parts := signaturePartDefList;
      var i := 0;
      while i < |parts|
        invariant 0 <= i <= |parts|
        invariant chain.signedInfo == sip && chain.securityEvents == old(chain.securityEvents)
        invariant chain.output == old(chain.output) + References(props, parts[..i])
        invariant sip.fed == old(sip.fed) + References(props, parts[..i])
      {
        EmitReference(chain, parts[i]);
        assert parts[..i + 1][..i] == parts[..i];
        i := i + 1;
      }
      assert parts[..i] == parts;
    }

    /** In `processHeaderEvent`: SignedInfo, every event of which also reaches the signer. */
    method EmitSignedInfo(chain: OutputChain)
      requires chain.signedInfo != null
      modifies chain, chain.signedInfo
      ensures chain.signedInfo == old(chain.signedInfo) && chain.securityEvents == old(chain.securityEvents)
      ensures chain.output == old(chain.output) + SignedInfoEvents(props, signaturePartDefList)
      ensures chain.signedInfo.fed == old(chain.signedInfo.fed) + SignedInfoEvents(props, signaturePartDefList)
    {
      EmitSignedInfoHead(chain);
      EmitReferences(chain);
      chain.ProcessEvent(End(Ds("SignedInfo")));
    }

    method EmitIssuerSerial(chain: OutputChain, certs: Option<seq<X509Certificate>>) returns (failure: Option<SecurityError>)
      requires chain.signedInfo == null
      requires certs.Some? ==> |certs.value| > 0
      modifies chain
      ensures chain.signedInfo == null && chain.securityEvents == old(chain.securityEvents)
      ensures chain.output == old(chain.output) + IssuerSerialSegment(certs).events
      ensures failure == IssuerSerialSegment(certs).failure
    {
      chain.ProcessEvent(Start(Ds("X509Data"), map[]));
      chain.ProcessEvent(Start(Ds("X509IssuerSerial"), map[]));
      chain.ProcessEvent(Start(Ds("X509IssuerName"), map[]));
      if certs.None? {
        return Some(NullPointer);
      }
      EmitIssuerSerialBody(chain, certs.value[0]);
      AppendRegroup(old(chain.output), IssuerSerialSegment(None).events,
                    [Chars(Str(certs.value[0].issuerName)), End(Ds("X509IssuerName"))]
                    + TextElement(Ds("X509SerialNumber"), map[], Str(certs.value[0].serialNumber)),
                    [End(Ds("X509IssuerSerial")), End(Ds("X509Data"))]);
      failure := None;
    }

    /** The issuer name and serial number of the certificate, and the closing tags. */
    method EmitIssuerSerialBody(chain: OutputChain, c: X509Certificate)
      requires chain.signedInfo == null
      modifies chain
      ensures chain.signedInfo == null && chain.securityEvents == old(chain.securityEvents)
      ensures chain.output == old(chain.output)
        + ([Chars(Str(c.issuerName)), End(Ds("X509IssuerName"))] + TextElement(Ds("X509SerialNumber"), map[], Str(c.serialNumber)))
        + [End(Ds("X509IssuerSerial")), End(Ds("X509Data"))]
    {
      chain.ProcessEvent(Chars(Str(c.issuerName)));
      chain.ProcessEvent(End(Ds("X509IssuerName")));
      chain.ProcessEvent(Start(Ds("X509SerialNumber"), map[]));
      chain.ProcessEvent(Chars(Str(c.serialNumber)));
      chain.ProcessEvent(End(Ds("X509SerialNumber")));
      chain.ProcessEvent(End(Ds("X509IssuerSerial")));
      chain.ProcessEvent(End(Ds("X509Data")));
    }

    method EmitSki(chain: OutputChain, certs: Option<seq<X509Certificate>>) returns (failure: Option<SecurityError>)
      requires chain.signedInfo == null
      requires certs.Some? ==> |certs.value| > 0
      modifies chain
      ensures chain.signedInfo == null && chain.securityEvents == old(chain.securityEvents)
      ensures chain.output == old(chain.output) + SkiSegment(certs).events
      ensures failure == SkiSegment(certs).failure
    {
      if certs.None? {
        return Some(NullPointer);
      }
      if certs.value[0].version != 3 {
        return Some(Raise(FailedSignature, "invalidCertForSKI"));
      }
      chain.ProcessEvent(Start(Wsse("KeyIdentifier"), KeyIdentifierAttributes(X509_SKI_TYPE)));
      chain.ProcessEvent(Chars(Base64(certs.value[0].ski)));
      chain.ProcessEvent(End(Wsse("KeyIdentifier")));
      failure := None;
    }

    method EmitEncodedKeyIdentifier(chain: OutputChain, certs: Option<seq<X509Certificate>>, thumbprint: bool)
      returns (failure: Option<SecurityError>)
      requires chain.signedInfo == null
      requires certs.Some? ==> |certs.value| > 0
      modifies chain
      ensures chain.signedInfo == null && chain.securityEvents == old(chain.securityEvents)
      ensures chain.output == old(chain.output) + EncodedKeyIdentifierSegment(certs, thumbprint).events
      ensures failure == EncodedKeyIdentifierSegment(certs, thumbprint).failure
    {
      chain.ProcessEvent(Start(Wsse("KeyIdentifier"), KeyIdentifierAttributes(if thumbprint then THUMBPRINT_TYPE else X509_V3_TYPE)));
      if certs.None? {
        return Some(NullPointer);
      }
      var encoded := certs.value[0].encoded;
      if encoded.None? {
        return Some(Wrap(FailedSignature, "CertificateEncodingException"));
      }
      var content := if thumbprint then certs.value[0].thumbprint else encoded.value;
      chain.ProcessEvent(Chars(Base64(content)));
      chain.ProcessEvent(End(Wsse("KeyIdentifier")));
      failure := None;
    }

    method EmitEmbedded(chain: OutputChain, certs: Option<seq<X509Certificate>>, certUri: string)
      returns (failure: Option<SecurityError>)
      requires chain.signedInfo == null
      requires certs.Some? ==> |certs.value| > 0
      modifies chain
      ensures chain.signedInfo == null && chain.securityEvents == old(chain.securityEvents)
      ensures chain.output == old(chain.output) + EmbeddedSegment(certs, certUri).events
      ensures failure == EmbeddedSegment(certs, certUri).failure
    {
      chain.ProcessEvent(Start(Wsse("Reference"), DirectReferenceAttributes("#" + certUri, X509_V3_TYPE)));
      chain.ProcessEvent(Start(Wsse("BinarySecurityToken"), BstAttributes(certUri)));
      if certs.None? {
        return Some(NullPointer);
      }
      var encoded := certs.value[0].encoded;
      if encoded.None? {
        return Some(Wrap(FailedSignature, "CertificateEncodingException"));
      }
      chain.ProcessEvent(Chars(Base64(encoded.value)));
      chain.ProcessEvent(End(Wsse("BinarySecurityToken")));
      chain.ProcessEvent(End(Wsse("Reference")));
      failure := None;
    }

    /** In `processHeaderEvent`: the content of the SecurityTokenReference. */
    method EmitKeyIdentifier(chain: OutputChain, certs: Option<seq<X509Certificate>>,
                             provider: Option<TokenProvider>, certUri: string)
      returns (failure: Option<SecurityError>)
      requires chain.signedInfo == null
      requires certs.Some? ==> |certs.value| > 0
      modifies chain
      ensures chain.signedInfo == null && chain.securityEvents == old(chain.securityEvents)
      ensures chain.output == old(chain.output) + KeyIdentifierSegment(props.keyIdentifierType, certs, provider, certUri).events
      ensures failure == KeyIdentifierSegment(props.keyIdentifierType, certs, provider, certUri).failure
    {
      failure := None;
      match props.keyIdentifierType
      case IssuerSerial =>
        failure := EmitIssuerSerial(chain, certs);
      case SkiKeyIdentifier =>
        failure := EmitSki(chain, certs);
      case X509KeyIdentifier =>
        failure := EmitEncodedKeyIdentifier(chain, certs, false);
      case ThumbprintIdentifier =>
        failure := EmitEncodedKeyIdentifier(chain, certs, true);
      case BstEmbedded =>
        failure := EmitEmbedded(chain, certs, certUri);
      case BstDirectReference =>
        chain.ProcessEvent(Start(Wsse("Reference"), DirectReferenceAttributes("#" + certUri, X509_V3_TYPE)));
        chain.ProcessEvent(End(Wsse("Reference")));
      case UsernameTokenSigned =>
        if provider.None? {
          return Some(NullPointer);
        }
        chain.ProcessEvent(Start(Wsse("Reference"), DirectReferenceAttributes("#" + provider.value.id, USERNAMETOKEN_TYPE)));
        chain.ProcessEvent(End(Wsse("Reference")));
      case OtherKeyIdentifier(name) =>
        return Some(RaiseWith(FailedSignature, "unsupportedSecurityToken", [Some(name)]));
    }

    /** In `processHeaderEvent`: SignedInfo, emitted while a fresh SignedInfo processor listens. */
    method SignSignedInfo(chain: OutputChain, key: SigningKey) returns (signer: SignedInfoProcessor)
      requires chain.signedInfo == null
      modifies chain
      ensures chain.signedInfo == null && chain.securityEvents == old(chain.securityEvents)
      ensures chain.output == old(chain.output) + SignedInfoEvents(props, signaturePartDefList)
      ensures signer.key == key && signer.fed == SignedInfoEvents(props, signaturePartDefList)
    {
      signer := new SignedInfoProcessor(key);
      chain.AddProcessor(signer);
      EmitSignedInfo(chain);
      chain.RemoveProcessor();
    }

    /** In `processHeaderEvent`: the SignatureValue element. */
    method EmitSignatureValue(chain: OutputChain, value: Bytes)
      requires chain.signedInfo == null
      modifies chain
      ensures chain.signedInfo == null && chain.securityEvents == old(chain.securityEvents)
      ensures chain.output == old(chain.output) + SignatureValueEvents(value)
    {
      chain.ProcessEvent(Start(Ds("SignatureValue"), map[]));
      chain.ProcessEvent(Chars(Base64(value)));
      chain.ProcessEvent(End(Ds("SignatureValue")));
    }

    /** In `processHeaderEvent`: the opening of KeyInfo and SecurityTokenReference. */
    method OpenKeyInfo(chain: OutputChain, ids: Ids)
      requires chain.signedInfo == null
      modifies chain
      ensures chain.signedInfo == null && chain.securityEvents == old(chain.securityEvents)
      ensures chain.output == old(chain.output) + KeyInfoOpen(ids)
    {
      chain.ProcessEvent(Start(Ds("KeyInfo"), map[ATT_Id := "KeyId-" + ids.keyInfoUuid]));
      chain.ProcessEvent(Start(Wsse("SecurityTokenReference"), map[ATT_wsu_Id := "STRId-" + ids.strUuid]));
    }

    /** In `processHeaderEvent`: the end tags of SecurityTokenReference, KeyInfo and Signature. */
    method CloseSignature(chain: OutputChain)
      requires chain.signedInfo == null
      modifies chain
      ensures chain.signedInfo == null && chain.securityEvents == old(chain.securityEvents)
      ensures chain.output == old(chain.output) + KEY_INFO_CLOSE
    {
      chain.ProcessEvent(End(Wsse("SecurityTokenReference")));
      chain.ProcessEvent(End(Ds("KeyInfo")));
      chain.ProcessEvent(End(Ds("Signature")));
    }

    /** In `processHeaderEvent`: SignedInfo through a fresh signer, then the SignatureValue it computed. */
    method EmitSignedPart(chain: OutputChain, key: SigningKey, sign: (SigningKey, seq<XmlEvent>) -> Bytes)
      returns (signer: SignedInfoProcessor, value: Bytes)
      requires chain.signedInfo == null
      modifies chain
      ensures chain.signedInfo == null && chain.securityEvents == old(chain.securityEvents)
      ensures signer.fed == SignedInfoEvents(props, signaturePartDefList)
      ensures value == sign(key, signer.fed)
      ensures chain.output == old(chain.output) + SignedInfoEvents(props, signaturePartDefList) + SignatureValueEvents(value)
    {
      signer := SignSignedInfo(chain, key);
      value := signer.GetSignatureValue(sign);
      EmitSignatureValue(chain, value);
    }

    /** In `processHeaderEvent`: KeyInfo and its token reference; the closing tags only when no exception was thrown. */
    method EmitKeyInfo(chain: OutputChain, ids: Ids, certs: Option<seq<X509Certificate>>,
                       provider: Option<TokenProvider>, certUri: string)
      returns (failure: Option<SecurityError>)
      requires chain.signedInfo == null
      requires certs.Some? ==> |certs.value| > 0
      modifies chain
      ensures chain.signedInfo == null && chain.securityEvents == old(chain.securityEvents)
      ensures chain.output == old(chain.output) + KeyInfoSegment(props.keyIdentifierType, ids, certs, provider, certUri).events
      ensures failure == KeyInfoSegment(props.keyIdentifierType, ids, certs, provider, certUri).failure
    {
      ghost var ki := KeyIdentifierSegment(props.keyIdentifierType, certs, provider, certUri);
      OpenKeyInfo(chain, ids);
      failure := EmitKeyIdentifier(chain, certs, provider, certUri);
      if failure.Some? {
        AppendAssoc(old(chain.output), KeyInfoOpen(ids), ki.events);
        return;
      }
      CloseSignature(chain);
      AppendRegroup(old(chain.output), KeyInfoOpen(ids), ki.events, KEY_INFO_CLOSE);
    }

    /**
     * In `processHeaderEvent`: SignedInfo through the signer, the SignatureValue, and the KeyInfo; the
     * signer is returned so that what it was fed can be stated.
     */
    method EmitSignatureTail(chain: OutputChain, ids: Ids, setup: KeySetup,
                             certs: Option<seq<X509Certificate>>, certUri: string,
                             sign: (SigningKey, seq<XmlEvent>) -> Bytes)
      returns (failure: Option<SecurityError>, signer: SignedInfoProcessor, value: Bytes)
      requires chain.signedInfo == null
      requires certs.Some? ==> |certs.value| > 0
      modifies chain
      ensures var t := SignatureTail(props, signaturePartDefList, ids, setup, certs, certUri, sign);
        && chain.signedInfo == null && chain.securityEvents == old(chain.securityEvents)
        && chain.output == old(chain.output) + t.events
        && signer.fed == t.signerInput
        && (failure.None? <==> t.outcome.Success?)
        && (failure.Some? ==> t.outcome == Failure(failure.value))
        && (failure.None? ==> t.outcome == Success(value))
    {
      signer, value := EmitSignedPart(chain, setup.key, sign);
      failure := EmitKeyInfo(chain, ids, certs, setup.provider, certUri);
      AppendRegroup(old(chain.output), SignedInfoEvents(props, signaturePartDefList), SignatureValueEvents(value),
                    KeyInfoSegment(props.keyIdentifierType, ids, certs, setup.provider, certUri).events);
    }

    /** In `processHeaderEvent`: asks for the password, looks up the algorithm, initialises the signer. */
    method InitSigner(env: Environment) returns (setup: Result<KeySetup, SecurityError>)
      ensures setup == SignerSetup(props, env)
    {
      var alias := props.signatureUser;
      if env.password.None? {
        return Failure(RaiseWith(FailedSignature, "noPassword", [alias]));
      }
      var password := env.password.value;
      if env.algorithm == NoSuchAlgorithm {
        return Failure(Wrap(FailedSignature, "NoSuchAlgorithmException"));
      } else if env.algorithm == NoSuchProvider {
        return Failure(WSSecurityException(GeneralFailure, Some("noSecProvider"), [], Some(LibraryException("NoSuchProviderException"))));
      }
      if alias.Some? {
        return Success(KeySetup(PrivateKey(alias.value, password), None));
      } else if props.tokenUser.Some? {
        var provider := env.tokenProvider;
        if provider.None? {
          return Failure(WSSecurityException(FailedSignature, None, [], None));
        }
        var token := provider.value.token;
        if token.None? {
          return Failure(WSSecurityException(FailedSignature, None, [], None));
        }
        return Success(KeySetup(SecretKey(token.value.keyMaterial, props.signatureAlgorithm), provider));
      }
      return Success(KeySetup(NotInitialised, None));
    }

    /**
     * In `processHeaderEvent`: the signer is set up and fed SignedInfo, the rest of the Signature is
     * written, and on success the SignatureValue event is registered.
     */
    method SignAfterSignatureStart(chain: OutputChain, env: Environment, ids: Ids,
                                   certs: Option<seq<X509Certificate>>, sign: (SigningKey, seq<XmlEvent>) -> Bytes)
      returns (outcome: Outcome<SecurityError>, signer: SignedInfoProcessor?)
      requires chain.signedInfo == null
      requires certs.Some? ==> |certs.value| > 0
      modifies chain
      ensures var h := AfterSignatureStart(props, signaturePartDefList, env, ids, certs, sign);
        && chain.output == old(chain.output) + h.events
        && chain.signedInfo == null
        && outcome == (if h.outcome.Success? then Pass else Fail(h.outcome.error))
        && chain.securityEvents == old(chain.securityEvents)
             + (if h.outcome.Success? then [SignatureValueEvent(h.outcome.value)] else [])
        && (signer == null ==> h.signerInput == [])
        && (signer != null ==> signer.fed == h.signerInput)
    {
      var setup := InitSigner(env);
      if setup.Failure? {
        return Fail(setup.error), null;
      }
      var failure, sip, signatureValue := EmitSignatureTail(chain, ids, setup.value, certs, "CertId-" + ids.certUuid, sign);
      signer := sip;
      if failure.Some? {
        return Fail(failure.value), signer;
      }
      chain.RegisterSecurityEvent(SignatureValueEvent(signatureValue));
      outcome := Pass;
    }

    /**
     * processHeaderEvent: emits the signature header through the chain, feeds SignedInfo to
     * the signer, and registers the SignatureValue event; the state after an exception is
     * the state at the point where it was thrown.
     */
    method ProcessHeaderEvent(chain: OutputChain, env: Environment, ids: Ids,
                              sign: (SigningKey, seq<XmlEvent>) -> Bytes)
      returns (outcome: Outcome<SecurityError>, signer: SignedInfoProcessor?)
      requires chain.signedInfo == null
      modifies chain
      ensures var h := Header(props, signaturePartDefList, env, ids, sign);
        && chain.output == old(chain.output) + h.events
        && chain.signedInfo == null
        && outcome == (if h.outcome.Success? then Pass else Fail(h.outcome.error))
        && chain.securityEvents == old(chain.securityEvents)
             + (if h.outcome.Success? then [SignatureValueEvent(h.outcome.value)] else [])
        && (signer == null ==> h.signerInput == [])
        && (signer != null ==> signer.fed == h.signerInput)
    {
      signer := null;
      var alias := props.signatureUser;
      var certs: Option<seq<X509Certificate>> := None;
      if alias.Some? {
        certs := env.certificates;
        if certs.None? || |certs.value| == 0 {
          return Fail(Raise(FailedSignature, "noUserCertsFound")), null;
        }
      }
      var certUri := "CertId-" + ids.certUuid;
      var bstFailure := EmitBinarySecurityToken(chain, certs, certUri);
      if bstFailure.Some? {
        return Fail(bstFailure.value), null;
      }
      chain.ProcessEvent(Start(Ds("Signature"), map[ATT_Id := "Signature-" + ids.signatureUuid]));

      outcome, signer := SignAfterSignatureStart(chain, env, ids, certs, sign);
      AppendRegroup(old(chain.output), BstSegment(props.keyIdentifierType, certs, certUri).events,
                    [Start(Ds("Signature"), map[ATT_Id := "Signature-" + ids.signatureUuid])],
                    AfterSignatureStart(props, signaturePartDefList, env, ids, certs, sign).events);
    }
  }
}

/** Properties of the emitted signature header. */
module SignatureEndingProperties {
  import opened Wrappers
  import opened Errors
  import opened Certificates
  import opened Xml
  import opened SignatureEnding
  import opened Sequences

  // ---------------------------------------------------------------- well-nesting

  lemma TextElementWellNested(name: QName, attributes: Attributes, text: Text)
    ensures WellNested(TextElement(name, attributes, text))
  {
    assert WellNested([Chars(text)]) by {
      assert [Chars(text)][1..] == [];
    }
    WrapWellNested(name, attributes, [Chars(text)]);
    assert TextElement(name, attributes, text) == [Start(name, attributes)] + [Chars(text)] + [End(name)];
  }

  lemma EmptyElementWellNested(name: QName, attributes: Attributes)
    ensures WellNested(EmptyElement(name, attributes))
  {
    WrapWellNested(name, attributes, []);
  }

  lemma ReferenceBlockWellNested(props: SecurityProperties, part: SignaturePartDef)
    ensures WellNested(ReferenceBlock(props, part))
  {
    var transform := EmptyElement(Ds("Transform"), map[ATT_Algorithm := props.canonicalizationAlgorithm]);
    EmptyElementWellNested(Ds("Transform"), map[ATT_Algorithm := props.canonicalizationAlgorithm]);
    WrapWellNested(Ds("Transforms"), map[], transform);
    var transforms := [Start(Ds("Transforms"), map[])] + transform + [End(Ds("Transforms"))];
    var digestMethod := EmptyElement(Ds("DigestMethod"), map[ATT_Algorithm := props.digestAlgorithm]);
    EmptyElementWellNested(Ds("DigestMethod"), map[ATT_Algorithm := props.digestAlgorithm]);
    var digestValue := TextElement(Ds("DigestValue"), map[], Str(part.digestValue));
    TextElementWellNested(Ds("DigestValue"), map[], Str(part.digestValue));
    ConcatWellNested(transforms, digestMethod);
    ConcatWellNested(transforms + digestMethod, digestValue);
    WrapWellNested(Ds("Reference"), ReferenceAttributes(part), transforms + digestMethod + digestValue);
    var start, end := [Start(Ds("Reference"), ReferenceAttributes(part))], [End(Ds("Reference"))];
    assert ReferenceOpen(props, part) == start + transforms;
    assert ReferenceDigest(props, part) == digestMethod + digestValue + end;
    AppendWrap(start, transforms, digestMethod, digestValue, end);
  }

  lemma {:induction false} ReferencesWellNested(props: SecurityProperties, parts: seq<SignaturePartDef>)
    ensures WellNested(References(props, parts))
    decreases |parts|
  {
    if parts != [] {
      ReferencesWellNested(props, parts[..|parts| - 1]);
      ReferenceBlockWellNested(props, parts[|parts| - 1]);
      ConcatWellNested(References(props, parts[..|parts| - 1]), ReferenceBlock(props, parts[|parts| - 1]));
    }
  }

  /** SignedInfo is an element of its own, so the signer is given a complete subtree. */
  lemma SignedInfoWellNested(props: SecurityProperties, parts: seq<SignaturePartDef>)
    ensures WellNested(SignedInfoEvents(props, parts))
  {
    EmptyElementWellNested(Ds("CanonicalizationMethod"), map[ATT_Algorithm := props.canonicalizationAlgorithm]);
    EmptyElementWellNested(Ds("SignatureMethod"), map[ATT_Algorithm := props.signatureAlgorithm]);
    ConcatWellNested(EmptyElement(Ds("CanonicalizationMethod"), map[ATT_Algorithm := props.canonicalizationAlgorithm]),
                     EmptyElement(Ds("SignatureMethod"), map[ATT_Algorithm := props.signatureAlgorithm]));
    ReferencesWellNested(props, parts);
    ConcatWellNested(SignedInfoHead(props), References(props, parts));
    WrapWellNested(Ds("SignedInfo"), map[], SignedInfoHead(props) + References(props, parts));
    assert SignedInfoEvents(props, parts)
      == [Start(Ds("SignedInfo"), map[])] + (SignedInfoHead(props) + References(props, parts)) + [End(Ds("SignedInfo"))];
  }

  lemma KeyIdentifierWellNested(kit: KeyIdentifierType, certs: Option<seq<X509Certificate>>,
                                provider: Option<TokenProvider>, certUri: string)
    requires certs.Some? ==> |certs.value| > 0
    requires KeyIdentifierSegment(kit, certs, provider, certUri).failure.None?
    ensures WellNested(KeyIdentifierSegment(kit, certs, provider, certUri).events)
  {
    match kit
    case IssuerSerial =>
      var c := certs.value[0];
      var name := TextElement(Ds("X509IssuerName"), map[], Str(c.issuerName));
      var serial := TextElement(Ds("X509SerialNumber"), map[], Str(c.serialNumber));
      TextElementWellNested(Ds("X509IssuerName"), map[], Str(c.issuerName));
      TextElementWellNested(Ds("X509SerialNumber"), map[], Str(c.serialNumber));
      ConcatWellNested(name, serial);
      WrapWellNested(Ds("X509IssuerSerial"), map[], name + serial);
      var issuerSerial := [Start(Ds("X509IssuerSerial"), map[])] + (name + serial) + [End(Ds("X509IssuerSerial"))];
      WrapWellNested(Ds("X509Data"), map[], issuerSerial);
      assert IssuerSerialSegment(certs).events == [Start(Ds("X509Data"), map[])] + issuerSerial + [End(Ds("X509Data"))];
    case SkiKeyIdentifier =>
      TextElementWellNested(Wsse("KeyIdentifier"), KeyIdentifierAttributes(X509_SKI_TYPE), Base64(certs.value[0].ski));
    case X509KeyIdentifier =>
      TextElementWellNested(Wsse("KeyIdentifier"), KeyIdentifierAttributes(X509_V3_TYPE), Base64(certs.value[0].encoded.value));
      assert EncodedKeyIdentifierSegment(certs, false).events
        == TextElement(Wsse("KeyIdentifier"), KeyIdentifierAttributes(X509_V3_TYPE), Base64(certs.value[0].encoded.value));
    case ThumbprintIdentifier =>
      TextElementWellNested(Wsse("KeyIdentifier"), KeyIdentifierAttributes(THUMBPRINT_TYPE), Base64(certs.value[0].thumbprint));
      assert EncodedKeyIdentifierSegment(certs, true).events
        == TextElement(Wsse("KeyIdentifier"), KeyIdentifierAttributes(THUMBPRINT_TYPE), Base64(certs.value[0].thumbprint));
    case BstEmbedded =>
      var bst := TextElement(Wsse("BinarySecurityToken"), BstAttributes(certUri), Base64(certs.value[0].encoded.value));
      TextElementWellNested(Wsse("BinarySecurityToken"), BstAttributes(certUri), Base64(certs.value[0].encoded.value));
      WrapWellNested(Wsse("Reference"), DirectReferenceAttributes("#" + certUri, X509_V3_TYPE), bst);
      assert EmbeddedSegment(certs, certUri).events
        == [Start(Wsse("Reference"), DirectReferenceAttributes("#" + certUri, X509_V3_TYPE))] + bst + [End(Wsse("Reference"))];
    case BstDirectReference =>
      EmptyElementWellNested(Wsse("Reference"), DirectReferenceAttributes("#" + certUri, X509_V3_TYPE));
    case UsernameTokenSigned =>
      EmptyElementWellNested(Wsse("Reference"), DirectReferenceAttributes("#" + provider.value.id, USERNAMETOKEN_TYPE));
    case OtherKeyIdentifier(_) =>
  }

  /** <ds:Signature> around SignedInfo, SignatureValue and a KeyInfo holding one token reference. */
  lemma SignatureElementWellNested(ids: Ids, signedInfo: seq<XmlEvent>, value: Bytes, ki: seq<XmlEvent>)
    requires WellNested(signedInfo) && WellNested(ki)
    ensures WellNested([SignatureStart(ids)] + (signedInfo + SignatureValueEvents(value) + (KeyInfoOpen(ids) + ki + KEY_INFO_CLOSE)))
  {
    var strStart := Start(Wsse("SecurityTokenReference"), map[ATT_wsu_Id := "STRId-" + ids.strUuid]);
    WrapWellNested(Wsse("SecurityTokenReference"), map[ATT_wsu_Id := "STRId-" + ids.strUuid], ki);
    var str := [strStart] + ki + [End(Wsse("SecurityTokenReference"))];
    var keyInfoStart := Start(Ds("KeyInfo"), map[ATT_Id := "KeyId-" + ids.keyInfoUuid]);
    WrapWellNested(Ds("KeyInfo"), map[ATT_Id := "KeyId-" + ids.keyInfoUuid], str);
    var keyInfo := [keyInfoStart] + str + [End(Ds("KeyInfo"))];
    TextElementWellNested(Ds("SignatureValue"), map[], Base64(value));
    ConcatWellNested(signedInfo, SignatureValueEvents(value));
    ConcatWellNested(signedInfo + SignatureValueEvents(value), keyInfo);
    var content := signedInfo + SignatureValueEvents(value) + keyInfo;
    WrapWellNested(Ds("Signature"), map[ATT_Id := "Signature-" + ids.signatureUuid], content);
    assert [SignatureStart(ids)] + (signedInfo + SignatureValueEvents(value) + (KeyInfoOpen(ids) + ki + KEY_INFO_CLOSE))
      == [SignatureStart(ids)] + content + [End(Ds("Signature"))];
  }

  lemma BstWellNested(kit: KeyIdentifierType, certs: Option<seq<X509Certificate>>, certUri: string)
    requires certs.Some? ==> |certs.value| > 0
    requires BstSegment(kit, certs, certUri).failure.None?
    ensures WellNested(BstSegment(kit, certs, certUri).events)
  {
    if kit == BstDirectReference {
      TextElementWellNested(Wsse("BinarySecurityToken"), BstAttributes(certUri), Base64(certs.value[0].encoded.value));
      assert BstSegment(kit, certs, certUri).events
        == TextElement(Wsse("BinarySecurityToken"), BstAttributes(certUri), Base64(certs.value[0].encoded.value));
    }
  }

  /** Once SignedInfo is reached, the header is the token, the Signature start and the tail. */
  lemma HeaderShape(props: SecurityProperties, parts: seq<SignaturePartDef>, env: Environment, ids: Ids,
                    sign: (SigningKey, seq<XmlEvent>) -> Bytes)
    requires ReachesSignedInfo(props, env, ids)
    ensures var certs := CertificatesFor(props, env);
      && (certs.Some? ==> |certs.value| > 0)
      && var tail := SignatureTail(props, parts, ids, SignerSetup(props, env).value, certs, CertUri(ids), sign);
         var h := Header(props, parts, env, ids, sign);
         && h.events == BstSegment(props.keyIdentifierType, certs, CertUri(ids)).events + ([SignatureStart(ids)] + tail.events)
         && h.signerInput == tail.signerInput
         && h.outcome == tail.outcome
  {
    var certs := CertificatesFor(props, env);
    var tail := SignatureTail(props, parts, ids, SignerSetup(props, env).value, certs, CertUri(ids), sign);
    AppendAssoc(BstSegment(props.keyIdentifierType, certs, CertUri(ids)).events, [SignatureStart(ids)], tail.events);
  }

  /** A tail that was written completely completes <ds:Signature> as one element. */
  lemma TailWellNested(props: SecurityProperties, parts: seq<SignaturePartDef>, ids: Ids, setup: KeySetup,
                       certs: Option<seq<X509Certificate>>, certUri: string, sign: (SigningKey, seq<XmlEvent>) -> Bytes)
    requires certs.Some? ==> |certs.value| > 0
    requires SignatureTail(props, parts, ids, setup, certs, certUri, sign).outcome.Success?
    ensures var t := SignatureTail(props, parts, ids, setup, certs, certUri, sign).events;
      && WellNested([SignatureStart(ids)] + t)
      && |t| > 0 && t[|t| - 1] == End(Ds("Signature"))
  {
    var signedInfo := SignedInfoEvents(props, parts);
    var value := sign(setup.key, signedInfo);
    var ki := KeyIdentifierSegment(props.keyIdentifierType, certs, setup.provider, certUri);
    assert ki.failure.None?;
    KeyIdentifierWellNested(props.keyIdentifierType, certs, setup.provider, certUri);
    SignedInfoWellNested(props, parts);
    SignatureElementWellNested(ids, signedInfo, value, ki.events);
  }

  /** A header that was written completely is a well-nested sequence of elements. */
  lemma SuccessIsWellNested(props: SecurityProperties, parts: seq<SignaturePartDef>, env: Environment, ids: Ids,
                            sign: (SigningKey, seq<XmlEvent>) -> Bytes)
    requires Header(props, parts, env, ids, sign).outcome.Success?
    ensures var h := Header(props, parts, env, ids, sign).events;
      WellNested(h) && |h| > 0 && h[|h| - 1] == End(Ds("Signature"))
  {
    SignerUsedIffReached(props, parts, env, ids, sign);
    HeaderShape(props, parts, env, ids, sign);
    var certs := CertificatesFor(props, env);
    var bst := BstSegment(props.keyIdentifierType, certs, CertUri(ids)).events;
    var tail := SignatureTail(props, parts, ids, SignerSetup(props, env).value, certs, CertUri(ids), sign);
    BstWellNested(props.keyIdentifierType, certs, CertUri(ids));
    TailWellNested(props, parts, ids, SignerSetup(props, env).value, certs, CertUri(ids), sign);
    ConcatWellNested(bst, [SignatureStart(ids)] + tail.events);
  }

  // ---------------------------------------------------------------- the error paths

  /** A signature user without certificates fails before anything is written. */
  lemma NoUserCertsFound(props: SecurityProperties, parts: seq<SignaturePartDef>, env: Environment, ids: Ids,
                         sign: (SigningKey, seq<XmlEvent>) -> Bytes)
    requires props.signatureUser.Some?
    ensures var h := Header(props, parts, env, ids, sign);
      (h.outcome == Failure(Raise(FailedSignature, "noUserCertsFound")))
        <==> (env.certificates.None? || |env.certificates.value| == 0)
    ensures env.certificates.None? || |env.certificates.value| == 0 ==> Header(props, parts, env, ids, sign).events == []
  {
  }

  /**
   * Without a password the exception names the signature user, and the events written so far
   * end with the start of <ds:Signature>; the signer has seen nothing.
   */
  lemma NoPassword(props: SecurityProperties, parts: seq<SignaturePartDef>, env: Environment, ids: Ids,
                   sign: (SigningKey, seq<XmlEvent>) -> Bytes)
    requires !NoUserCerts(props, env)
    requires BstSegment(props.keyIdentifierType, CertificatesFor(props, env), CertUri(ids)).failure.None?
    requires env.password.None?
    ensures var h := Header(props, parts, env, ids, sign);
      && h.outcome == Failure(RaiseWith(FailedSignature, "noPassword", [props.signatureUser]))
      && |h.events| > 0 && h.events[|h.events| - 1] == SignatureStart(ids)
      && h.signerInput == []
  {
  }

  /** The signer is used exactly when everything before SignedInfo went through. */
  lemma SignerUsedIffReached(props: SecurityProperties, parts: seq<SignaturePartDef>, env: Environment, ids: Ids,
                             sign: (SigningKey, seq<XmlEvent>) -> Bytes)
    ensures Header(props, parts, env, ids, sign).signerInput != [] <==> ReachesSignedInfo(props, env, ids)
    ensures !ReachesSignedInfo(props, env, ids) ==> Header(props, parts, env, ids, sign).outcome.Failure?
  {
    if ReachesSignedInfo(props, env, ids) {
      assert |SignedInfoEvents(props, parts)| > 0;
    }
  }

  /** An SKI key identifier needs a version 3 certificate; nothing of it is written otherwise. */
  lemma SkiRequiresV3(props: SecurityProperties, parts: seq<SignaturePartDef>, env: Environment, ids: Ids,
                      sign: (SigningKey, seq<XmlEvent>) -> Bytes)
    requires ReachesSignedInfo(props, env, ids)
    requires props.keyIdentifierType == SkiKeyIdentifier && props.signatureUser.Some?
    ensures var h := Header(props, parts, env, ids, sign);
      && (h.outcome == Failure(Raise(FailedSignature, "invalidCertForSKI")) <==> env.certificates.value[0].version != 3)
      && (env.certificates.value[0].version != 3 ==> h.events[|h.events| - 1] == KeyInfoOpen(ids)[1])
  {
  }

  /** A key-identifier type this processor has no branch for fails after the KeyInfo is opened. */
  lemma UnsupportedKeyIdentifier(props: SecurityProperties, parts: seq<SignaturePartDef>, env: Environment, ids: Ids,
                                 sign: (SigningKey, seq<XmlEvent>) -> Bytes)
    requires ReachesSignedInfo(props, env, ids)
    requires props.keyIdentifierType.OtherKeyIdentifier?
    ensures Header(props, parts, env, ids, sign).outcome
      == Failure(RaiseWith(FailedSignature, "unsupportedSecurityToken", [Some(props.keyIdentifierType.name)]))
  {
  }

  // ---------------------------------------------------------------- what is signed

  /** The tail opens with SignedInfo and the SignatureValue signed over it. */
  lemma TailLayout(props: SecurityProperties, parts: seq<SignaturePartDef>, ids: Ids, setup: KeySetup,
                   certs: Option<seq<X509Certificate>>, certUri: string, sign: (SigningKey, seq<XmlEvent>) -> Bytes)
    requires certs.Some? ==> |certs.value| > 0
    ensures var t := SignatureTail(props, parts, ids, setup, certs, certUri, sign);
      var n := |SignedInfoEvents(props, parts)|;
      && t.signerInput == SignedInfoEvents(props, parts)
      && n + 3 <= |t.events|
      && t.events[..n] == t.signerInput
      && t.events[n..n + 3] == SignatureValueEvents(sign(setup.key, t.signerInput))
      && (t.outcome.Success? ==> t.outcome.value == sign(setup.key, t.signerInput))
  {
    var signedInfo := SignedInfoEvents(props, parts);
    var value := sign(setup.key, signedInfo);
    var rest := KeyInfoSegment(props.keyIdentifierType, ids, certs, setup.provider, certUri).events;
    var t := SignatureTail(props, parts, ids, setup, certs, certUri, sign);
    assert t.events == signedInfo + SignatureValueEvents(value) + rest;
    var n := |signedInfo|;
    assert t.events[..n] == signedInfo;
    assert t.events[n..n + 3] == SignatureValueEvents(value);
  }

  /**
   * The signer is fed exactly the SignedInfo element, which is written right after the
   * Signature start tag; the SignatureValue that follows carries what the signer returned for
   * it, and so does the registered SignatureValue event.
   */
  lemma SignatureValueOverSignedInfo(props: SecurityProperties, parts: seq<SignaturePartDef>, env: Environment, ids: Ids,
                                     sign: (SigningKey, seq<XmlEvent>) -> Bytes)
    requires ReachesSignedInfo(props, env, ids)
    ensures var h := Header(props, parts, env, ids, sign);
      var k := |BstSegment(props.keyIdentifierType, CertificatesFor(props, env), CertUri(ids)).events| + 1;
      var n := |SignedInfoEvents(props, parts)|;
      var value := sign(SignerSetup(props, env).value.key, h.signerInput);
      && h.signerInput == SignedInfoEvents(props, parts)
      && k + n + 3 <= |h.events|
      && h.events[k - 1] == SignatureStart(ids)
      && h.events[k..k + n] == h.signerInput
      && h.events[k + n..k + n + 3] == SignatureValueEvents(value)
      && (h.outcome.Success? ==> h.outcome.value == value)
  {
    HeaderShape(props, parts, env, ids, sign);
    var certs := CertificatesFor(props, env);
    var setup := SignerSetup(props, env).value;
    var bst := BstSegment(props.keyIdentifierType, certs, CertUri(ids)).events;
    var tail := SignatureTail(props, parts, ids, setup, certs, CertUri(ids), sign);
    TailLayout(props, parts, ids, setup, certs, CertUri(ids), sign);
    SlicesAfterStart(bst, SignatureStart(ids), tail.events, |SignedInfoEvents(props, parts)|);
  }

  /** Where the slices of a tail lie once a prefix and one start tag are put in front of it. */
  lemma SlicesAfterStart(pre: seq<XmlEvent>, start: XmlEvent, t: seq<XmlEvent>, n: nat)
    requires n + 3 <= |t|
    ensures var events := pre + ([start] + t);
      var k := |pre| + 1;
      && |events| == k + |t|
      && events[k - 1] == start
      && events[k..k + n] == t[..n]
      && events[k + n..k + n + 3] == t[n..n + 3]
  {
    var events := pre + ([start] + t);
    var k := |pre| + 1;
    assert events[k..] == t;
    assert events[k..k + n] == events[k..][..n];
    assert events[k + n..k + n + 3] == events[k..][n..n + 3];
  }

  /** The URI of a <ds:Reference> start tag, or nothing for any other event. */
  function ReferenceUri(e: XmlEvent): seq<string> {
    match e
    case Start(name, attributes) => if name == Ds("Reference") && ATT_URI in attributes then [attributes[ATT_URI]] else []
    case _ => []
  }

  /** The URI of every <ds:Reference> start tag, in document order. */
  function ReferenceUris(events: seq<XmlEvent>): seq<string>
  {
    if events == [] then [] else ReferenceUri(events[0]) + ReferenceUris(events[1..])
  }

  lemma {:induction false} ReferenceUrisConcat(a: seq<XmlEvent>, b: seq<XmlEvent>)
    ensures ReferenceUris(a + b) == ReferenceUris(a) + ReferenceUris(b)
    decreases |a|
  {
    if a == [] {
      assert a + b == b;
    } else {
      assert (a + b)[0] == a[0];
      assert (a + b)[1..] == a[1..] + b;
      ReferenceUrisConcat(a[1..], b);
      assert ReferenceUris(a + b) == ReferenceUri(a[0]) + (ReferenceUris(a[1..]) + ReferenceUris(b));
    }
  }

  /** The Reference URIs of a short run of events, event by event. */
  lemma UrisOfFive(e0: XmlEvent, e1: XmlEvent, e2: XmlEvent, e3: XmlEvent, e4: XmlEvent)
    ensures ReferenceUris([e0, e1, e2, e3, e4])
      == ReferenceUri(e0) + (ReferenceUri(e1) + (ReferenceUri(e2) + (ReferenceUri(e3) + ReferenceUri(e4))))
  {
    assert [e4][1..] == [];
    assert ReferenceUris([e4]) == ReferenceUri(e4) + [];
    assert [e3, e4][1..] == [e4];
    assert ReferenceUris([e3, e4]) == ReferenceUri(e3) + ReferenceUris([e4]);
    assert [e2, e3, e4][1..] == [e3, e4];
    assert ReferenceUris([e2, e3, e4]) == ReferenceUri(e2) + ReferenceUris([e3, e4]);
    assert [e1, e2, e3, e4][1..] == [e2, e3, e4];
    assert ReferenceUris([e1, e2, e3, e4]) == ReferenceUri(e1) + ReferenceUris([e2, e3, e4]);
    assert [e0, e1, e2, e3, e4][1..] == [e1, e2, e3, e4];
  }

  lemma UrisOfSix(e0: XmlEvent, e1: XmlEvent, e2: XmlEvent, e3: XmlEvent, e4: XmlEvent, e5: XmlEvent)
    ensures ReferenceUris([e0, e1, e2, e3, e4, e5])
      == ReferenceUri(e0) + (ReferenceUri(e1) + (ReferenceUri(e2) + (ReferenceUri(e3) + (ReferenceUri(e4) + ReferenceUri(e5)))))
  {
    assert [e0, e1, e2, e3, e4, e5][1..] == [e1, e2, e3, e4, e5];
    UrisOfFive(e1, e2, e3, e4, e5);
  }

  lemma ReferenceBlockUris(props: SecurityProperties, part: SignaturePartDef)
    ensures ReferenceUris(ReferenceBlock(props, part)) == ["#" + part.sigRefId]
  {
    var transforms, transform := Start(Ds("Transforms"), map[]), Start(Ds("Transform"), map[ATT_Algorithm := props.canonicalizationAlgorithm]);
    var digestMethod := Start(Ds("DigestMethod"), map[ATT_Algorithm := props.digestAlgorithm]);
    var digestValue := Start(Ds("DigestValue"), map[]);
    assert Ds("Transforms") != Ds("Reference") && Ds("Transform") != Ds("Reference");
    assert Ds("DigestMethod") != Ds("Reference") && Ds("DigestValue") != Ds("Reference");
    UrisOfFive(Start(Ds("Reference"), ReferenceAttributes(part)), transforms, transform, End(Ds("Transform")), End(Ds("Transforms")));
    UrisOfSix(digestMethod, End(Ds("DigestMethod")), digestValue, Chars(Str(part.digestValue)), End(Ds("DigestValue")), End(Ds("Reference")));
    assert ReferenceUris(ReferenceOpen(props, part)) == ["#" + part.sigRefId];
    assert ReferenceUris(ReferenceDigest(props, part)) == [];
    ReferenceUrisConcat(ReferenceOpen(props, part), ReferenceDigest(props, part));
  }

  /** The URIs the Reference elements point at, one per signature part, in list order. */
  function PartUris(parts: seq<SignaturePartDef>): (r: seq<string>)
    ensures |r| == |parts|
    ensures forall i :: 0 <= i < |parts| ==> r[i] == "#" + parts[i].sigRefId
  {
    if parts == [] then [] else PartUris(parts[..|parts| - 1]) + ["#" + parts[|parts| - 1].sigRefId]
  }

  lemma {:induction false} ReferencesUris(props: SecurityProperties, parts: seq<SignaturePartDef>)
    ensures ReferenceUris(References(props, parts)) == PartUris(parts)
    decreases |parts|
  {
    if parts != [] {
      ReferencesUris(props, parts[..|parts| - 1]);
      ReferenceBlockUris(props, parts[|parts| - 1]);
      ReferenceUrisConcat(References(props, parts[..|parts| - 1]), ReferenceBlock(props, parts[|parts| - 1]));
    }
  }

  /** SignedInfo holds one Reference per signature part, in the order of the part list. */
  lemma ReferencesInOrder(props: SecurityProperties, parts: seq<SignaturePartDef>)
    ensures var uris := ReferenceUris(SignedInfoEvents(props, parts));
      && |uris| == |parts|
      && forall i :: 0 <= i < |parts| ==> uris[i] == "#" + parts[i].sigRefId
  {
    var start := [Start(Ds("SignedInfo"), map[])];
    var head := SignedInfoHead(props);
    assert ReferenceUris(start) == [];
    assert ReferenceUris(head) == [] by {
      assert ReferenceUris(head[2..]) == [];
    }
    assert ReferenceUris([End(Ds("SignedInfo"))]) == [];
    ReferencesUris(props, parts);
    ReferenceUrisConcat(start, head);
    ReferenceUrisConcat(start + head, References(props, parts));
    ReferenceUrisConcat(start + head + References(props, parts), [End(Ds("SignedInfo"))]);
  }

  /** Position 11 * i of the References is the i-th part's Reference start, position 11 * i + 8 its digest. */
  lemma {:induction false} ReferencesDigests(props: SecurityProperties, parts: seq<SignaturePartDef>)
    ensures var refs := References(props, parts);
      && |refs| == 11 * |parts|
      && forall i :: 0 <= i < |parts| ==>
           && refs[11 * i] == Start(Ds("Reference"), ReferenceAttributes(parts[i]))
           && refs[11 * i + 8] == Chars(Str(parts[i].digestValue))
    decreases |parts|
  {
    if parts != [] {
      var init, last := parts[..|parts| - 1], parts[|parts| - 1];
      ReferencesDigests(props, init);
      var refs, before := References(props, parts), References(props, init);
      assert refs == before + ReferenceBlock(props, last);
      forall i | 0 <= i < |parts|
        ensures refs[11 * i] == Start(Ds("Reference"), ReferenceAttributes(parts[i]))
        ensures refs[11 * i + 8] == Chars(Str(parts[i].digestValue))
      {
        if i < |init| {
          assert parts[i] == init[i];
        } else {
          assert refs[11 * i..] == ReferenceBlock(props, last);
        }
      }
    }
  }

  /**
   * Every Reference in SignedInfo digests its own part: the i-th Reference starts with the URI of
   * the i-th part, and its DigestValue is that part's digest.
   */
  lemma SignedInfoDigests(props: SecurityProperties, parts: seq<SignaturePartDef>)
    ensures var events := SignedInfoEvents(props, parts);
      && |events| == 6 + 11 * |parts|
      && forall i :: 0 <= i < |parts| ==>
           && events[5 + 11 * i] == Start(Ds("Reference"), ReferenceAttributes(parts[i]))
           && events[5 + 11 * i + 8] == Chars(Str(parts[i].digestValue))
  {
    ReferencesDigests(props, parts);
    var refs := References(props, parts);
    var events := SignedInfoEvents(props, parts);
    var pre := [Start(Ds("SignedInfo"), map[])] + SignedInfoHead(props);
    assert |pre| == 5;
    assert events == pre + refs + [End(Ds("SignedInfo"))];
    assert forall k :: 0 <= k < |refs| ==> events[5 + k] == refs[k];
  }

  /**
   * With a direct reference, the header opens with a BinarySecurityToken holding the first
   * certificate, and the token reference in the KeyInfo points at that token's wsu:Id.
   */
  lemma DirectReferencePointsAtToken(props: SecurityProperties, parts: seq<SignaturePartDef>, env: Environment, ids: Ids,
                                     sign: (SigningKey, seq<XmlEvent>) -> Bytes)
    requires Header(props, parts, env, ids, sign).outcome.Success?
    requires props.keyIdentifierType == BstDirectReference
    ensures var h := Header(props, parts, env, ids, sign);
      var m := |h.events|;
      && m >= 6
      && props.signatureUser.Some?
      && h.events[0].Start? && h.events[0].name == Wsse("BinarySecurityToken")
      && h.events[1] == Chars(Base64(env.certificates.value[0].encoded.value))
      && h.events[m - 5].Start? && h.events[m - 5].name == Wsse("Reference")
      && ATT_wsu_Id in h.events[0].attributes && ATT_URI in h.events[m - 5].attributes
      && h.events[m - 5].attributes[ATT_URI] == "#" + h.events[0].attributes[ATT_wsu_Id]
      && ATT_ValueType in h.events[0].attributes && ATT_ValueType in h.events[m - 5].attributes
      && h.events[m - 5].attributes[ATT_ValueType] == h.events[0].attributes[ATT_ValueType]
  {
    SignerUsedIffReached(props, parts, env, ids, sign);
    HeaderShape(props, parts, env, ids, sign);
    var certs := CertificatesFor(props, env);
    var setup := SignerSetup(props, env).value;
    var tail := SignatureTail(props, parts, ids, setup, certs, CertUri(ids), sign);
    var reference := EmptyElement(Wsse("Reference"), DirectReferenceAttributes("#" + CertUri(ids), X509_V3_TYPE));
    var h := Header(props, parts, env, ids, sign);
    var signedInfo := SignedInfoEvents(props, parts);
    var body := signedInfo + SignatureValueEvents(sign(setup.key, signedInfo));
    assert tail.events == body + (KeyInfoOpen(ids) + reference + KEY_INFO_CLOSE);
    assert h.events[|h.events| - 5..] == reference + KEY_INFO_CLOSE;
  }
}
