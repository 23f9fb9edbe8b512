/** The security events that the processors register and the policy enforcer consumes. */
module SecurityEvents {
  import opened Wrappers
  import opened Xml
  import opened Certificates

  /** The kinds of security event (SecurityEvent.Event). */
  datatype Event = AlgorithmSuite | SignatureValue | SignedElement | ContentEncrypted

  /** The key-usage roles an algorithm can play (XMLSecurityConstants.KeyUsage). */
  datatype KeyUsage =
    | SymSig | AsymSig | Dig | Enc | SymKeyWrap | AsymKeyWrap | CompKey
    | EncKD | SigKD | C14n | SoapNorm | StrTrans | XPath
    | OtherUsage(name: string)

  /**
   * A security event as it stands when it is registered. The element of an element event is
   * None while it has not been set.
   */
  datatype SecurityEvent =
    | AlgorithmSuiteEvent(keyUsage: KeyUsage, algorithmUri: string)
    | SignatureValueEvent(signatureValue: Bytes)
    | SignedElementEvent(element: Option<QName>, signed: bool)
    | ContentEncryptedElementEvent(element: Option<QName>, encrypted: bool)

  function KindOf(e: SecurityEvent): Event {
    match e
    case AlgorithmSuiteEvent(_, _) => AlgorithmSuite
    case SignatureValueEvent(_) => SignatureValue
    case SignedElementEvent(_, _) => SignedElement
    case ContentEncryptedElementEvent(_, _) => ContentEncrypted
  }
}
