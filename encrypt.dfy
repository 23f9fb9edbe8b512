/**
 * The bookkeeping of WSSecEncrypt: choosing the session key and the recipient certificate,
 * collecting the DataReference URIs of the encrypted parts into an xenc:ReferenceList
 * (section 3.6 of W3C XML Encryption Syntax and Processing), and placing that list and the
 * attachment EncryptedData elements in the security header. DOM nodes are element values;
 * the security header is its list of children, first child first.
 */
module Encrypt {
  import opened Wrappers
  import opened Errors
  import opened Certificates
  import opened Xml
  import opened Sequences

  const ENC_NS := "http://www.w3.org/2001/04/xmlenc#"

  function Xenc(localPart: string): QName { QName(ENC_NS, localPart) }

  const ATT_URI := QName("", "URI")

  /** A part to encrypt: the element's name and namespace and the encryption modifier. */
  datatype EncryptionPart = EncryptionPart(name: string, namespace: string, encModifier: string)

  /** The key-identifier types that change what prepare does; every other value is `OtherIdentifier`. */
  datatype KeyIdentifier = EndpointKeyIdentifier | OtherIdentifier

  /** The kind of certificate lookup, ENDPOINT or ALIAS, with the name looked up (null as None). */
  datatype CryptoType = Endpoint(endpoint: Option<string>) | Alias(alias: Option<string>)

  /** The certificates a Crypto returns per lookup; a lookup that is not in the map returns null. */
  datatype Crypto = Crypto(certificates: map<CryptoType, seq<X509Certificate>>)

  datatype PublicKey = PublicKey(material: Bytes)

  /** How the session key is wrapped into the EncryptedKey. */
  datatype KeyWrap =
    | WrapForPublicKey(key: PublicKey)
    | WrapForCertificate(cert: X509Certificate)
    | ReuseEncryptedKey(encryptedKey: Bytes)

  /**
   * What a run of the encryptor yields for a list of parts: the URIs of the EncryptedData it
   * wrote, and the EncryptedData elements of attachments that it adds to the attachment list.
   */
  datatype EncryptionOutput = EncryptionOutput(dataRefUris: seq<string>, attachmentElements: seq<Element>)

  // ---------------------------------------------------------------- specification

  /**
   * In `prepare`: the session key. A key that is already set is kept; otherwise it comes from
   * the ephemeral key when there is one, and is freshly generated when there is not.
   */
  function SessionKey(symmetricKey: Option<Bytes>, ephemeralKey: Option<Bytes>, generated: Bytes): Bytes {
    if symmetricKey.Some? then symmetricKey.value
    else if ephemeralKey.Some? then ephemeralKey.value
    else generated
  }

  /** In `prepare`: the lookup is by endpoint for ENDPOINT_KEY_IDENTIFIER and by alias otherwise. */
  function LookupFor(kit: KeyIdentifier, user: Option<string>): CryptoType {
    if kit == EndpointKeyIdentifier then Endpoint(user) else Alias(user)
  }

  /** In `prepare`: the certificate whose public key wraps the session key. */
  function RecipientCertificate(useThisCert: Option<X509Certificate>, crypto: Option<Crypto>,
                                kit: KeyIdentifier, user: Option<string>): Result<X509Certificate, SecurityError>
  {
    if useThisCert.Some? then Success(useThisCert.value)
    else if crypto.None? then Failure(Raise(GeneralFailure, "encryptionCryptoFailure"))
    else
      var lookup := LookupFor(kit, user);
      if lookup !in crypto.value.certificates || |crypto.value.certificates[lookup]| == 0 then
        Failure(RaiseWith(GeneralFailure, "noUserCertsFound", [user, Some("encryption")]))
      else Success(crypto.value.certificates[lookup][0])
  }

  function DataReference(uri: string): Element {
    Element(Xenc("DataReference"), map[ATT_URI := uri], [])
  }

  /** One DataReference per URI, in order. */
  function DataReferences(uris: seq<string>): (r: seq<Element>)
    ensures |r| == |uris|
    ensures forall i :: 0 <= i < |uris| ==> r[i] == DataReference(uris[i])
  {
    if uris == [] then [] else DataReferences(uris[..|uris| - 1]) + [DataReference(uris[|uris| - 1])]
  }

  /** The URIs the DataReference children of a list point at. */
  function ReferencedUris(children: seq<Element>): seq<string> {
    if children == [] then []
    else
      var c := children[|children| - 1];
      ReferencedUris(children[..|children| - 1])
        + (if c.name == Xenc("DataReference") && ATT_URI in c.attributes then [c.attributes[ATT_URI]] else [])
  }

  /** Reading the URIs back from the DataReference elements gives the URIs they were made from. */
  lemma {:induction false} DataReferencesRoundTrip(uris: seq<string>)
    ensures ReferencedUris(DataReferences(uris)) == uris
    decreases |uris|
  {
    if uris != [] {
      var init, last := uris[..|uris| - 1], uris[|uris| - 1];
      var r := DataReferences(uris);
      assert r == DataReferences(init) + [DataReference(last)];
      assert r[..|r| - 1] == DataReferences(init);
      DataReferencesRoundTrip(init);
      assert ReferencedUris(r) == ReferencedUris(DataReferences(init)) + [last];
      assert uris == init + [last];
    }
  }

  lemma {:induction false} ReferencedUrisConcat(a: seq<Element>, b: seq<Element>)
    ensures ReferencedUris(a + b) == ReferencedUris(a) + ReferencedUris(b)
    decreases |b|
  {
    if b == [] {
      assert a + b == a;
    } else {
      assert (a + b)[..|a + b| - 1] == a + b[..|b| - 1];
      assert (a + b)[|a + b| - 1] == b[|b| - 1];
      ReferencedUrisConcat(a, b[..|b| - 1]);
    }
  }

  /**
   * createDataRefList: appends one DataReference per URI, in order, after the list's existing
   * children, and returns the list itself (its name and attributes unchanged).
   */
  method CreateDataRefList(referenceList: Element, encDataRefs: seq<string>) returns (r: Element)
    ensures r.name == referenceList.name && r.attributes == referenceList.attributes
    ensures r.children == referenceList.children + DataReferences(encDataRefs)
    ensures ReferencedUris(r.children) == ReferencedUris(referenceList.children) + encDataRefs
  {
    r := referenceList;
    for i := 0 to |encDataRefs|
      invariant r.name == referenceList.name && r.attributes == referenceList.attributes
      invariant r.children == referenceList.children + DataReferences(encDataRefs[..i])
    {
      assert encDataRefs[..i + 1][..i] == encDataRefs[..i];
      r := r.(children := r.children + [DataReference(encDataRefs[i])]);
    }
    assert encDataRefs[..|encDataRefs|] == encDataRefs;
    ReferencedUrisConcat(referenceList.children, DataReferences(encDataRefs));
    DataReferencesRoundTrip(encDataRefs);
  }

  /** The ReferenceList encryptForRef creates when it is given none. */
  const EMPTY_REFERENCE_LIST := Element(Xenc("ReferenceList"), map[], [])

  // ---------------------------------------------------------------- the builder

  class WSSecEncrypt {
    // configuration
    const encryptSymmKey: bool
    const useThisPublicKey: Option<PublicKey>
    const useThisCert: Option<X509Certificate>
    const keyIdentifierType: KeyIdentifier
    const user: Option<string>
    const ephemeralKey: Option<Bytes>
    const defaultPart: EncryptionPart      // the SOAP Body content part of the document
    // state
    var symmetricKey: Option<Bytes>
    var encryptedEphemeralKey: Option<Bytes>
    var parts: seq<EncryptionPart>
    var attachmentEncryptedDataElements: Option<seq<Element>>
    var keyWrap: Option<KeyWrap>
    var encryptedKeyElement: Option<Element>
    var securityHeader: seq<Element>

    constructor (encryptSymmKey: bool, useThisPublicKey: Option<PublicKey>, useThisCert: Option<X509Certificate>,
                 keyIdentifierType: KeyIdentifier, user: Option<string>, ephemeralKey: Option<Bytes>,
                 symmetricKey: Option<Bytes>, encryptedEphemeralKey: Option<Bytes>, defaultPart: EncryptionPart,
                 parts: seq<EncryptionPart>, securityHeader: seq<Element>)
      ensures this.encryptSymmKey == encryptSymmKey && this.useThisPublicKey == useThisPublicKey
      ensures this.useThisCert == useThisCert && this.keyIdentifierType == keyIdentifierType
      ensures this.user == user && this.ephemeralKey == ephemeralKey && this.defaultPart == defaultPart
      ensures this.symmetricKey == symmetricKey && this.encryptedEphemeralKey == encryptedEphemeralKey
      ensures this.parts == parts && this.securityHeader == securityHeader
      ensures attachmentEncryptedDataElements.None? && keyWrap.None? && encryptedKeyElement.None?
    {
      this.encryptSymmKey := encryptSymmKey;
      this.useThisPublicKey := useThisPublicKey;
      this.useThisCert := useThisCert;
      this.keyIdentifierType := keyIdentifierType;
      this.user := user;
      this.ephemeralKey := ephemeralKey;
      this.defaultPart := defaultPart;
      this.symmetricKey := symmetricKey;
      this.encryptedEphemeralKey := encryptedEphemeralKey;
      this.parts := parts;
      this.securityHeader := securityHeader;
      attachmentEncryptedDataElements := None;
      keyWrap := None;
      encryptedKeyElement := None;
    }

    /** The step of the superclass that wraps the session key: it creates the EncryptedKey. */
    method PrepareInternal(wrap: KeyWrap)
      modifies this
      ensures keyWrap == Some(wrap) && encryptedKeyElement == Some(Element(Xenc("EncryptedKey"), map[], []))
      ensures symmetricKey == old(symmetricKey) && encryptedEphemeralKey == old(encryptedEphemeralKey)
      ensures parts == old(parts) && attachmentEncryptedDataElements == old(attachmentEncryptedDataElements)
      ensures securityHeader == old(securityHeader)
    {
      keyWrap := Some(wrap);
      encryptedKeyElement := Some(Element(Xenc("EncryptedKey"), map[], []));
    }

    /**
     * prepare: sets up the session key, then wraps it for the recipient (when it is to be
     * wrapped and no encrypted key is given), reuses the given encrypted key, or keeps the raw
     * session key as the "encrypted" key when it is not to be wrapped.
     */
    method Prepare(crypto: Option<Crypto>, generated: Bytes) returns (outcome: Outcome<SecurityError>)
      modifies this
      ensures attachmentEncryptedDataElements == Some([])
      ensures symmetricKey == Some(SessionKey(old(symmetricKey), ephemeralKey, generated))
      ensures parts == old(parts) && securityHeader == old(securityHeader)
      ensures var wrapped := encryptSymmKey && old(encryptedEphemeralKey).None?;
        var cert := RecipientCertificate(useThisCert, crypto, keyIdentifierType, user);
        && (outcome.Fail? <==> wrapped && useThisPublicKey.None? && cert.Failure?)
        && (outcome.Fail? ==> outcome.error == cert.error && keyWrap == old(keyWrap)
                              && encryptedKeyElement == old(encryptedKeyElement))
        && (outcome.Pass? && wrapped ==>
              keyWrap == Some(if useThisPublicKey.Some? then WrapForPublicKey(useThisPublicKey.value)
                              else WrapForCertificate(cert.value)))
        && (old(encryptedEphemeralKey).Some? ==> keyWrap == Some(ReuseEncryptedKey(old(encryptedEphemeralKey).value)))
        && (outcome.Pass? ==>
              (encryptedKeyElement.Some? <==> (encryptSymmKey || old(encryptedEphemeralKey).Some? || old(encryptedKeyElement).Some?)))
        && (!encryptSymmKey && old(encryptedEphemeralKey).None? ==>
              encryptedEphemeralKey == symmetricKey && keyWrap == old(keyWrap)
              && encryptedKeyElement == old(encryptedKeyElement))
        && (encryptSymmKey || old(encryptedEphemeralKey).Some? ==> encryptedEphemeralKey == old(encryptedEphemeralKey))
    {
      attachmentEncryptedDataElements := Some([]);
      if symmetricKey.None? {
        if ephemeralKey.Some? {
          symmetricKey := Some(ephemeralKey.value);
        } else {
          symmetricKey := Some(generated);
        }
      }
      outcome := Pass;
      if encryptSymmKey && encryptedEphemeralKey.None? {
        if useThisPublicKey.Some? {
          PrepareInternal(WrapForPublicKey(useThisPublicKey.value));
        } else {
          var remoteCert := useThisCert;
          if remoteCert.None? {
            if crypto.None? {
              return Fail(Raise(GeneralFailure, "encryptionCryptoFailure"));
            }
            var cryptoType := if keyIdentifierType == EndpointKeyIdentifier then Endpoint(user) else Alias(user);
            var certs := crypto.value.certificates;
            if cryptoType !in certs || |certs[cryptoType]| <= 0 {
              return Fail(RaiseWith(GeneralFailure, "noUserCertsFound", [user, Some("encryption")]));
            }
            remoteCert := Some(certs[cryptoType][0]);
          }
          PrepareInternal(WrapForCertificate(remoteCert.value));
        }
      } else if encryptedEphemeralKey.Some? {
        PrepareInternal(ReuseEncryptedKey(encryptedEphemeralKey.value));
      } else {
        encryptedEphemeralKey := symmetricKey;
      }
    }

    /**
     * encryptForRef: runs the encryptor over `references`; no data references gives null,
     * otherwise their DataReferences are appended to `dataRef` or to a new ReferenceList.
     */
    method EncryptForRef(dataRef: Option<Element>, references: seq<EncryptionPart>,
                         doEncryption: seq<EncryptionPart> -> EncryptionOutput)
      returns (r: Option<Element>)
      modifies this
      ensures var out := doEncryption(references);
        && (r.None? <==> out.dataRefUris == [])
        && (r.Some? ==> var list := dataRef.GetOr(EMPTY_REFERENCE_LIST);
              && r.value.name == list.name && r.value.attributes == list.attributes
              && r.value.children == list.children + DataReferences(out.dataRefUris))
        && attachmentEncryptedDataElements
             == (if old(attachmentEncryptedDataElements).Some?
                 then Some(old(attachmentEncryptedDataElements).value + out.attachmentElements) else None)
      ensures symmetricKey == old(symmetricKey) && encryptedEphemeralKey == old(encryptedEphemeralKey)
      ensures parts == old(parts) && keyWrap == old(keyWrap) && encryptedKeyElement == old(encryptedKeyElement)
      ensures securityHeader == old(securityHeader)
    {
      var out := doEncryption(references);
      if attachmentEncryptedDataElements.Some? {
        attachmentEncryptedDataElements := Some(attachmentEncryptedDataElements.value + out.attachmentElements);
      }
      if out.dataRefUris == [] {
        return None;
      }
      var list := if dataRef.None? then EMPTY_REFERENCE_LIST else dataRef.value;
      var filled := CreateDataRefList(list, out.dataRefUris);
      r := Some(filled);
    }

    /** encrypt: the default part is added when no part is set; then all parts are encrypted. */
    method EncryptParts(doEncryption: seq<EncryptionPart> -> EncryptionOutput) returns (r: Option<Element>)
      modifies this
      ensures parts == if old(parts) == [] then [defaultPart] else old(parts)
      ensures var out := doEncryption(parts);
        && (r.None? <==> out.dataRefUris == [])
        && (r.Some? ==> r.value == Element(Xenc("ReferenceList"), map[], DataReferences(out.dataRefUris)))
        && attachmentEncryptedDataElements
             == (if old(attachmentEncryptedDataElements).Some?
                 then Some(old(attachmentEncryptedDataElements).value + out.attachmentElements) else None)
      ensures symmetricKey == old(symmetricKey) && encryptedEphemeralKey == old(encryptedEphemeralKey)
      ensures keyWrap == old(keyWrap) && encryptedKeyElement == old(encryptedKeyElement)
      ensures securityHeader == old(securityHeader)
    {
      if parts == [] {
        parts := parts + [defaultPart];
      }
      r := EncryptForRef(None, parts, doEncryption);
    }

    /** addInternalRefElement: appends the list to the EncryptedKey; a null list is ignored. */
    method AddInternalRefElement(dataRef: Option<Element>) returns (outcome: Outcome<SecurityError>)
      modifies this
      ensures dataRef.None? ==> outcome.Pass? && encryptedKeyElement == old(encryptedKeyElement)
      ensures dataRef.Some? && old(encryptedKeyElement).None? ==> outcome == Fail(NullPointer) && encryptedKeyElement.None?
      ensures dataRef.Some? && old(encryptedKeyElement).Some? ==>
        && outcome.Pass?
        && encryptedKeyElement == Some(old(encryptedKeyElement).value.(children := old(encryptedKeyElement).value.children + [dataRef.value]))
      ensures symmetricKey == old(symmetricKey) && encryptedEphemeralKey == old(encryptedEphemeralKey)
      ensures parts == old(parts) && keyWrap == old(keyWrap)
      ensures attachmentEncryptedDataElements == old(attachmentEncryptedDataElements)
      ensures securityHeader == old(securityHeader)
    {
      outcome := Pass;
      if dataRef.Some? {
        if encryptedKeyElement.None? {
          return Fail(NullPointer);
        }
        var ek := encryptedKeyElement.value;
        encryptedKeyElement := Some(ek.(children := ek.children + [dataRef.value]));
      }
    }

    /** addExternalRefElement: makes the list the first child of the security header; null is ignored. */
    method AddExternalRefElement(dataRef: Option<Element>)
      modifies this
      ensures securityHeader == (if dataRef.Some? then [dataRef.value] else []) + old(securityHeader)
      ensures symmetricKey == old(symmetricKey) && encryptedEphemeralKey == old(encryptedEphemeralKey)
      ensures parts == old(parts) && keyWrap == old(keyWrap) && encryptedKeyElement == old(encryptedKeyElement)
      ensures attachmentEncryptedDataElements == old(attachmentEncryptedDataElements)
    {
      if dataRef.Some? {
        securityHeader := [dataRef.value] + securityHeader;
      }
    }

    /**
     * addAttachmentEncryptedDataElements: prepends each element in turn, so the list ends up
     * at the front of the header in reverse order, before what was there.
     */
    method AddAttachmentEncryptedDataElements()
      modifies this
      ensures securityHeader
        == (if attachmentEncryptedDataElements.Some? then Reversed(attachmentEncryptedDataElements.value) else [])
           + old(securityHeader)
      ensures symmetricKey == old(symmetricKey) && encryptedEphemeralKey == old(encryptedEphemeralKey)
      ensures parts == old(parts) && keyWrap == old(keyWrap) && encryptedKeyElement == old(encryptedKeyElement)
      ensures attachmentEncryptedDataElements == old(attachmentEncryptedDataElements)
    {
      if attachmentEncryptedDataElements.Some? {
        var elements := attachmentEncryptedDataElements.value;
        for i := 0 to |elements|
          invariant attachmentEncryptedDataElements == old(attachmentEncryptedDataElements)
          invariant symmetricKey == old(symmetricKey) && encryptedEphemeralKey == old(encryptedEphemeralKey)
          invariant parts == old(parts) && keyWrap == old(keyWrap) && encryptedKeyElement == old(encryptedKeyElement)
          invariant securityHeader == Reversed(elements[..i]) + old(securityHeader)
        {
          ReversedSnoc(elements[..i], elements[i]);
          assert elements[..i + 1] == elements[..i] + [elements[i]];
          securityHeader := [elements[i]] + securityHeader;
        }
        assert elements[..|elements|] == elements;
      }
    }

    /**
     * The placing half of build: the attachment EncryptedData go to the front of the header,
     * then the ReferenceList goes inside the EncryptedKey when there is one, else before them.
     */
    method PlaceElements(refs: Option<Element>)
      modifies this
      ensures var attached := if attachmentEncryptedDataElements.Some? then Reversed(attachmentEncryptedDataElements.value) else [];
        var list := if refs.Some? then [refs.value] else [];
        && (old(encryptedKeyElement).Some? ==>
              && securityHeader == attached + old(securityHeader)
              && encryptedKeyElement == Some(old(encryptedKeyElement).value.(children := old(encryptedKeyElement).value.children + list)))
        && (old(encryptedKeyElement).None? ==>
              securityHeader == list + attached + old(securityHeader) && encryptedKeyElement.None?)
      ensures symmetricKey == old(symmetricKey) && encryptedEphemeralKey == old(encryptedEphemeralKey)
      ensures parts == old(parts) && keyWrap == old(keyWrap)
      ensures attachmentEncryptedDataElements == old(attachmentEncryptedDataElements)
    {
      AddAttachmentEncryptedDataElements();
      if encryptedKeyElement.Some? {
        var added := AddInternalRefElement(refs);
        if refs.None? {
          assert old(encryptedKeyElement).value.children + [] == old(encryptedKeyElement).value.children;
        }
      } else {
        AddExternalRefElement(refs);
      }
    }

    /**
     * build: prepare, encrypt, put the attachment EncryptedData in the header, and place the
     * ReferenceList inside the EncryptedKey when there is one, else at the front of the header.
     */
    method Build(crypto: Option<Crypto>, generated: Bytes, doEncryption: seq<EncryptionPart> -> EncryptionOutput)
      returns (outcome: Outcome<SecurityError>)
      modifies this
      ensures outcome.Pass? ==>
        var out := doEncryption(parts);
        var refs := if out.dataRefUris == [] then [] else [Element(Xenc("ReferenceList"), map[], DataReferences(out.dataRefUris))];
        && attachmentEncryptedDataElements == Some(out.attachmentElements)
        && (encryptedKeyElement.Some? ==>
              && securityHeader == Reversed(out.attachmentElements) + old(securityHeader)
              && |refs| <= |encryptedKeyElement.value.children|
              && encryptedKeyElement.value.children[|encryptedKeyElement.value.children| - |refs|..] == refs)
        && (encryptedKeyElement.None? ==> securityHeader == refs + Reversed(out.attachmentElements) + old(securityHeader))
      ensures outcome.Fail? ==>
        var cert := RecipientCertificate(useThisCert, crypto, keyIdentifierType, user);
        cert.Failure? && outcome.error == cert.error
      ensures parts == old(parts) || (old(parts) == [] && outcome.Pass? && parts == [defaultPart])
    {
      outcome := Prepare(crypto, generated);
      if outcome.Fail? {
        return;
      }
      var refs := EncryptParts(doEncryption);
      ghost var out := doEncryption(parts);
      assert attachmentEncryptedDataElements == Some([] + out.attachmentElements);
      assert [] + out.attachmentElements == out.attachmentElements;
      ghost var before := encryptedKeyElement;
      PlaceElements(refs);
      if before.Some? {
        ghost var list := if refs.Some? then [refs.value] else [];
        SuffixOfConcat(before.value.children, list);
      }
    }
  }

  /** The end of a + b, as long as b, is b. */
  lemma SuffixOfConcat<T>(a: seq<T>, b: seq<T>)
    ensures |a + b| - |b| == |a| && (a + b)[|a + b| - |b|..] == b
  { }

  // ---------------------------------------------------------------- properties of the specification

  /** The session key is the preset one, else the ephemeral one, else the generated one. */
  lemma SessionKeyChoice(symmetricKey: Option<Bytes>, ephemeralKey: Option<Bytes>, generated: Bytes)
    ensures var k := SessionKey(symmetricKey, ephemeralKey, generated);
      && (symmetricKey.Some? ==> k == symmetricKey.value)
      && (symmetricKey.None? && ephemeralKey.Some? ==> k == ephemeralKey.value)
      && (symmetricKey.None? && ephemeralKey.None? ==> k == generated)
      && SessionKey(Some(k), ephemeralKey, generated) == k
  {
  }

  /**
   * The recipient certificate: the configured one when set; otherwise the first certificate
   * of the lookup, and an error exactly when there is no crypto or the lookup finds nothing.
   */
  lemma RecipientCertificateCases(useThisCert: Option<X509Certificate>, crypto: Option<Crypto>,
                                  kit: KeyIdentifier, user: Option<string>)
    ensures var r := RecipientCertificate(useThisCert, crypto, kit, user);
      && (useThisCert.Some? ==> r == Success(useThisCert.value))
      && (useThisCert.None? && crypto.None? ==> r == Failure(Raise(GeneralFailure, "encryptionCryptoFailure")))
      && (useThisCert.None? && crypto.Some? ==>
            var found := crypto.value.certificates;
            var lookup := if kit == EndpointKeyIdentifier then Endpoint(user) else Alias(user);
            && (r.Failure? <==> lookup !in found || found[lookup] == [])
            && (r.Failure? ==> r.error == RaiseWith(GeneralFailure, "noUserCertsFound", [user, Some("encryption")]))
            && (r.Success? ==> r.value == found[lookup][0]))
  {
  }

  /** A DataReference list built in two calls equals one built from all URIs at once. */
  lemma DataReferencesConcat(a: seq<string>, b: seq<string>)
    ensures DataReferences(a + b) == DataReferences(a) + DataReferences(b)
  {
  }
}
