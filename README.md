# WS-Security processing core, modelled in Dafny

This project models five pieces of the WSS4J / SWSSF WS-Security stack and proves properties
of each of them.

- **AlgorithmSuite assertion state.** This is the streaming policy check for the
  WS-SecurityPolicy 1.2 AlgorithmSuite assertion. Every AlgorithmSuite security event names a
  key-usage role and an algorithm URI. A URI that differs from the one the policy expects for
  that role clears the sticky `asserted` flag and records the message
  "<role> algorithm <uri> does not meet policy".
- **Signature ending output processor.** `processHeaderEvent` writes the `<ds:Signature>`
  header (W3C XML-Signature Syntax and Processing, section 4) into an output processor chain.
  A SignedInfoProcessor sits in that chain while `<ds:SignedInfo>` is written and feeds every
  event to the signer. The event stream is modelled as `Start`/`Chars`/`End` events, and the
  chain is a class whose output and whose SignedInfoProcessor are fields. Every configuration,
  lookup and certificate-encoding exception is modelled, together with the events already
  written when it is thrown; the exceptions of the cryptographic and canonicalisation libraries
  are listed under "## Left out".
- **WSSecEncrypt.** This is the DOM-side encryption builder. The model covers:
  - the choice of session key;
  - the lookup of the recipient certificate and its errors;
  - the default part;
  - the DataReference list of section 3.6 of W3C XML Encryption Syntax and Processing;
  - where `build` places the ReferenceList and the attachment EncryptedData elements.

  DOM elements are values with a list of children. The security header is its list of
  children, first child first.
- **BouncyCastle certificate-chain ordering.** `getX509Certificates` writes each certificate of
  a parsed path into an array slot chosen by a `reverse` flag. `getCertificateData` builds the
  list for the encoder by appending, or by inserting at the front. The model proves that the two
  orderings are inverse.
- **Policy enforcer verdicts** for the SignedElements and ContentEncryptedElements assertions
  (WS-SecurityPolicy 1.2, sections 4.1.2 and 4.2.3). The model follows the behaviour the two
  streaming-policy tests fix. The policy has one alternative, and the XPath `/b:a` in it selects
  `{http://example.org}a`. Extra protected elements are allowed. The required element arriving
  unprotected is rejected as soon as the event is registered.

Collaborators that the code calls but that are not part of this model are inputs:

- The signer is a function parameter `sign(key, events)`.
- The encryptor of the DOM library is a function `doEncryption(parts)`.
- The certificate factory is two functions: `generateCertPath`, and `encode`, whose result says
  which exception it raised.
- The password callback, the keystore and the token provider are the `Environment` record
  (`None` stands for `null`).
- The random UUID suffixes of the generated ids are the `Ids` record.

Files, one module each:

- `wrappers.dfy`: Option, Result, Outcome.
- `errors.dfy`: WSSecurityException and the NullPointerException.
- `certificates.dfy`: the X.509 certificate facts the code reads.
- `xml.dfy`: names, events, elements, and well-nesting.
- `sequences.dfy`: reversal.
- `security_events.dfy`: the security events.
- `algorithm_suite_assertion.dfy`
- `signature_ending.dfy`: the processor, and the module `SignatureEndingProperties` with its
  properties.
- `encrypt.dfy`
- `bouncy_castle.dfy`
- `policy_enforcer.dfy`

## Model

| member | source | states |
|---|---|---|
| AlgorithmSuiteAssertion.GetSecurityEventType | streaming-ws-policy/src/main/java/org/swssf/policy/assertionStates/AlgorithmSuiteAssertionState.java:42-46 | the state is interested in exactly one event kind, AlgorithmSuite |
| AlgorithmSuiteAssertion.RoleText | streaming-ws-policy/src/main/java/org/swssf/policy/assertionStates/AlgorithmSuiteAssertionState.java:54-132 | a role has a message text iff it is one of the thirteen roles the dispatch handles |
| AlgorithmSuiteAssertion.Expected | streaming-ws-policy/src/main/java/org/swssf/policy/assertionStates/AlgorithmSuiteAssertionState.java:54-132 | an expectation exists only for a handled role; the digest, encryption, key-wrap and key-derivation roles have one iff the algorithm-suite type is set |
| AlgorithmSuiteAssertion.ViolationMessage | streaming-ws-policy/src/main/java/org/swssf/policy/assertionStates/AlgorithmSuiteAssertionState.java:58 | the message is "<role> algorithm <uri> does not meet policy", which is longer than the URI it names |
| AlgorithmSuiteAssertion.Step | streaming-ws-policy/src/main/java/org/swssf/policy/assertionStates/AlgorithmSuiteAssertionState.java:54-132 | one event never sets `asserted` to true; an event that matches, or has no expectation, or has an unhandled role, leaves the state unchanged; a mismatch clears `asserted` and sets the message |
| AlgorithmSuiteAssertion.RunAsserted | streaming-ws-policy/src/main/java/org/swssf/policy/assertionStates/AlgorithmSuiteAssertionState.java:54-133 | after any sequence of events, `asserted` equals its initial value and "every event matched" |
| AlgorithmSuiteAssertion.RunOrderIndependent | streaming-ws-policy/src/main/java/org/swssf/policy/assertionStates/AlgorithmSuiteAssertionState.java:54-133 | two orderings of the same events give the same `asserted` |
| AlgorithmSuiteAssertion.RunAllMatch | streaming-ws-policy/src/main/java/org/swssf/policy/assertionStates/AlgorithmSuiteAssertionState.java:55-59 | events that all match leave the whole state, message included, unchanged |
| AlgorithmSuiteAssertion.RunLastViolation | streaming-ws-policy/src/main/java/org/swssf/policy/assertionStates/AlgorithmSuiteAssertionState.java:57-58 | the final message is that of the last violating event, and `asserted` is false |
| AlgorithmSuiteAssertion.AlgorithmSuiteAssertionState.constructor | streaming-ws-policy/src/main/java/org/swssf/policy/assertionStates/AlgorithmSuiteAssertionState.java:37-39 | the state starts with the given assertion and flag and no message |
| AlgorithmSuiteAssertion.AlgorithmSuiteAssertionState.AssertEvent | streaming-ws-policy/src/main/java/org/swssf/policy/assertionStates/AlgorithmSuiteAssertionState.java:49-134 | the new state is `Step` of the old one: `asserted` is cleared exactly on a violation, the message is set exactly then; the return value is the new flag |
| AlgorithmSuiteAssertion.SymmetricSignatureExample | streaming-ws-policy/src/main/java/org/swssf/policy/assertionStates/AlgorithmSuiteAssertionState.java:54-59 | sanity example, an instance of `Step`: a policy expecting rsa-sha256 for symmetric signatures rejects rsa-sha1 and accepts rsa-sha256 unchanged |
| SignatureEnding.ReferenceBlock | streaming-webservice-security/src/main/java/org/swssf/impl/processor/output/SignatureEndingOutputProcessor.java:151-170 | one Reference is eleven events |
| SignatureEnding.SignedInfoProcessor.constructor | streaming-webservice-security/src/main/java/org/swssf/impl/processor/output/SignatureEndingOutputProcessor.java:342-347 | a new processor has the signing key and has been fed nothing |
| SignatureEnding.SignedInfoProcessor.ProcessEvent | streaming-webservice-security/src/main/java/org/swssf/impl/processor/output/SignatureEndingOutputProcessor.java:378-381 | the signer stream receives the event, appended after what it had |
| SignatureEnding.SignedInfoProcessor.GetSignatureValue | streaming-webservice-security/src/main/java/org/swssf/impl/processor/output/SignatureEndingOutputProcessor.java:368-375 | the value is the signature of exactly what the signer was fed, under its key |
| SignatureEnding.OutputChain.constructor | streaming-webservice-security/src/main/java/org/swssf/impl/processor/output/SignatureEndingOutputProcessor.java:64 | a new sub-chain has no output, no SignedInfo processor and no events |
| SignatureEnding.OutputChain.ProcessEvent | streaming-webservice-security/src/main/java/org/swssf/impl/processor/output/SignatureEndingOutputProcessor.java:378-381 | the event goes downstream unchanged, and also to the SignedInfo processor when there is one |
| SignatureEnding.OutputChain.AddProcessor | streaming-webservice-security/src/main/java/org/swssf/impl/processor/output/SignatureEndingOutputProcessor.java:134 | the SignedInfo processor is inserted; nothing is output |
| SignatureEnding.OutputChain.RemoveProcessor | streaming-webservice-security/src/main/java/org/swssf/impl/processor/output/SignatureEndingOutputProcessor.java:174 | the SignedInfo processor is removed; nothing is output |
| SignatureEnding.OutputChain.RegisterSecurityEvent | streaming-webservice-security/src/main/java/org/swssf/impl/processor/output/SignatureEndingOutputProcessor.java:331-333 | the event is appended to the security context's list |
| SignatureEnding.SignatureEndingOutputProcessor.constructor | streaming-webservice-security/src/main/java/org/swssf/impl/processor/output/SignatureEndingOutputProcessor.java:62-66 | the processor holds the security properties and the signature parts |
| SignatureEnding.SignatureEndingOutputProcessor.EmitBinarySecurityToken | streaming-webservice-security/src/main/java/org/swssf/impl/processor/output/SignatureEndingOutputProcessor.java:78-95 | for a direct reference, the token is written with wsu:Id certUri and the first certificate; an encoding failure leaves only the start tag; other types write nothing |
| SignatureEnding.SignatureEndingOutputProcessor.EmitReferenceOpen | streaming-webservice-security/src/main/java/org/swssf/impl/processor/output/SignatureEndingOutputProcessor.java:151-161 | the Reference start with URI "#"+sigRefId and its Transforms reach both the output and the signer |
| SignatureEnding.SignatureEndingOutputProcessor.EmitReferenceDigest | streaming-webservice-security/src/main/java/org/swssf/impl/processor/output/SignatureEndingOutputProcessor.java:163-170 | DigestMethod, the part's DigestValue and the Reference end reach both the output and the signer |
| SignatureEnding.SignatureEndingOutputProcessor.EmitReference | streaming-webservice-security/src/main/java/org/swssf/impl/processor/output/SignatureEndingOutputProcessor.java:151-170 | one whole Reference reaches both the output and the signer |
| SignatureEnding.SignatureEndingOutputProcessor.EmitSignedInfoHead | streaming-webservice-security/src/main/java/org/swssf/impl/processor/output/SignatureEndingOutputProcessor.java:136-146 | the SignedInfo start, CanonicalizationMethod and SignatureMethod reach both the output and the signer |
| SignatureEnding.SignatureEndingOutputProcessor.EmitReferences | streaming-webservice-security/src/main/java/org/swssf/impl/processor/output/SignatureEndingOutputProcessor.java:148-171 | the loop writes the References of all parts, in list order, to both the output and the signer |
| SignatureEnding.SignatureEndingOutputProcessor.EmitSignedInfo | streaming-webservice-security/src/main/java/org/swssf/impl/processor/output/SignatureEndingOutputProcessor.java:136-173 | the whole SignedInfo element reaches both the output and the signer |
| SignatureEnding.SignatureEndingOutputProcessor.EmitIssuerSerial | streaming-webservice-security/src/main/java/org/swssf/impl/processor/output/SignatureEndingOutputProcessor.java:189-200 | X509Data with the issuer name and serial number of the first certificate |
| SignatureEnding.SignatureEndingOutputProcessor.EmitSki | streaming-webservice-security/src/main/java/org/swssf/impl/processor/output/SignatureEndingOutputProcessor.java:201-213 | a non-v3 certificate fails with "invalidCertForSKI" before anything is written; otherwise the SKI KeyIdentifier |
| SignatureEnding.SignatureEndingOutputProcessor.EmitEncodedKeyIdentifier | streaming-webservice-security/src/main/java/org/swssf/impl/processor/output/SignatureEndingOutputProcessor.java:214-245 | the X509v3 or thumbprint KeyIdentifier; an encoding failure leaves only its start tag |
| SignatureEnding.SignatureEndingOutputProcessor.EmitEmbedded | streaming-webservice-security/src/main/java/org/swssf/impl/processor/output/SignatureEndingOutputProcessor.java:246-276 | a Reference to "#"+certUri holding the BinarySecurityToken itself |
| SignatureEnding.SignatureEndingOutputProcessor.EmitKeyIdentifier | streaming-webservice-security/src/main/java/org/swssf/impl/processor/output/SignatureEndingOutputProcessor.java:189-292 | the branch for the configured key-identifier type, with its exception; an unhandled type fails with "unsupportedSecurityToken" naming it |
| SignatureEnding.SignatureEndingOutputProcessor.SignSignedInfo | streaming-webservice-security/src/main/java/org/swssf/impl/processor/output/SignatureEndingOutputProcessor.java:133-174 | a fresh signer is fed exactly the SignedInfo element, which is also output; afterwards the chain has no SignedInfo processor |
| SignatureEnding.SignatureEndingOutputProcessor.EmitSignatureValue | streaming-webservice-security/src/main/java/org/swssf/impl/processor/output/SignatureEndingOutputProcessor.java:176-179 | SignatureValue holding the Base64 of the value |
| SignatureEnding.SignatureEndingOutputProcessor.OpenKeyInfo | streaming-webservice-security/src/main/java/org/swssf/impl/processor/output/SignatureEndingOutputProcessor.java:181-187 | KeyInfo and SecurityTokenReference start tags with their generated ids |
| SignatureEnding.SignatureEndingOutputProcessor.CloseSignature | streaming-webservice-security/src/main/java/org/swssf/impl/processor/output/SignatureEndingOutputProcessor.java:294-296 | the end tags of SecurityTokenReference, KeyInfo and Signature |
| SignatureEnding.SignatureEndingOutputProcessor.EmitSignedPart | streaming-webservice-security/src/main/java/org/swssf/impl/processor/output/SignatureEndingOutputProcessor.java:133-179 | SignedInfo then the SignatureValue, where the value is the signature over what the signer was fed, and that is SignedInfo |
| SignatureEnding.SignatureEndingOutputProcessor.EmitKeyInfo | streaming-webservice-security/src/main/java/org/swssf/impl/processor/output/SignatureEndingOutputProcessor.java:181-296 | KeyInfo around the token reference; the closing tags are written only when no exception was thrown |
| SignatureEnding.SignatureEndingOutputProcessor.EmitSignatureTail | streaming-webservice-security/src/main/java/org/swssf/impl/processor/output/SignatureEndingOutputProcessor.java:133-296 | output, signer input and outcome are those of `SignatureTail`; success iff the key identifier was written |
| SignatureEnding.SignatureEndingOutputProcessor.InitSigner | streaming-webservice-security/src/main/java/org/swssf/impl/processor/output/SignatureEndingOutputProcessor.java:101-131 | password, algorithm lookup and key choice, in the source's order, with each of their exceptions |
| SignatureEnding.SignatureEndingOutputProcessor.SignAfterSignatureStart | streaming-webservice-security/src/main/java/org/swssf/impl/processor/output/SignatureEndingOutputProcessor.java:101-333 | output, signer input and outcome are those of `AfterSignatureStart`; the SignatureValue event is registered exactly on success, with the signed value |
| SignatureEnding.SignatureEndingOutputProcessor.ProcessHeaderEvent | streaming-webservice-security/src/main/java/org/swssf/impl/processor/output/SignatureEndingOutputProcessor.java:62-334 | output, signer input and outcome are those of `Header`; the SignatureValue event is registered exactly on success, with the signed value; on an exception the output is what was written before it |
| SignatureEndingProperties.TextElementWellNested | streaming-webservice-security/src/main/java/org/swssf/impl/processor/output/SignatureEndingOutputProcessor.java:167-169 | an element holding text is well nested |
| SignatureEndingProperties.EmptyElementWellNested | streaming-webservice-security/src/main/java/org/swssf/impl/processor/output/SignatureEndingOutputProcessor.java:140-141 | an element with no content is well nested |
| SignatureEndingProperties.ReferenceBlockWellNested | streaming-webservice-security/src/main/java/org/swssf/impl/processor/output/SignatureEndingOutputProcessor.java:151-170 | each Reference is well nested |
| SignatureEndingProperties.ReferencesWellNested | streaming-webservice-security/src/main/java/org/swssf/impl/processor/output/SignatureEndingOutputProcessor.java:148-171 | the References of any part list are well nested |
| SignatureEndingProperties.SignedInfoWellNested | streaming-webservice-security/src/main/java/org/swssf/impl/processor/output/SignatureEndingOutputProcessor.java:136-173 | the signer is given one complete, well-nested element |
| SignatureEndingProperties.KeyIdentifierWellNested | streaming-webservice-security/src/main/java/org/swssf/impl/processor/output/SignatureEndingOutputProcessor.java:189-289 | every key-identifier branch that completes writes a well-nested sequence |
| SignatureEndingProperties.SignatureElementWellNested | streaming-webservice-security/src/main/java/org/swssf/impl/processor/output/SignatureEndingOutputProcessor.java:97-296 | Signature around well-nested SignedInfo, SignatureValue and KeyInfo content is well nested |
| SignatureEndingProperties.BstWellNested | streaming-webservice-security/src/main/java/org/swssf/impl/processor/output/SignatureEndingOutputProcessor.java:78-95 | a token written completely is well nested |
| SignatureEndingProperties.HeaderShape | streaming-webservice-security/src/main/java/org/swssf/impl/processor/output/SignatureEndingOutputProcessor.java:62-296 | once SignedInfo is reached, the header is the token, the Signature start tag and the tail, and the tail decides signer input and outcome |
| SignatureEndingProperties.TailWellNested | streaming-webservice-security/src/main/java/org/swssf/impl/processor/output/SignatureEndingOutputProcessor.java:97-296 | a tail written completely closes Signature and is well nested after its start tag |
| SignatureEndingProperties.SuccessIsWellNested | streaming-webservice-security/src/main/java/org/swssf/impl/processor/output/SignatureEndingOutputProcessor.java:62-296 | a header written without an exception is well nested and ends with the Signature end tag |
| SignatureEndingProperties.NoUserCertsFound | streaming-webservice-security/src/main/java/org/swssf/impl/processor/output/SignatureEndingOutputProcessor.java:69-74 | with a signature user configured, the outcome is "noUserCertsFound" iff no certificate was found, and then nothing has been written |
| SignatureEndingProperties.NoPassword | streaming-webservice-security/src/main/java/org/swssf/impl/processor/output/SignatureEndingOutputProcessor.java:97-106 | without a password the exception is "noPassword" naming the user; the output ends with the Signature start tag and the signer saw nothing |
| SignatureEndingProperties.SignerUsedIffReached | streaming-webservice-security/src/main/java/org/swssf/impl/processor/output/SignatureEndingOutputProcessor.java:62-174 | the signer sees anything iff certificates, token, password, algorithm and key all went through; otherwise the header fails |
| SignatureEndingProperties.SkiRequiresV3 | streaming-webservice-security/src/main/java/org/swssf/impl/processor/output/SignatureEndingOutputProcessor.java:201-205 | with SKI, the header fails with "invalidCertForSKI" iff the certificate is not v3, right after the SecurityTokenReference start |
| SignatureEndingProperties.UnsupportedKeyIdentifier | streaming-webservice-security/src/main/java/org/swssf/impl/processor/output/SignatureEndingOutputProcessor.java:290-292 | an unhandled key-identifier type fails with "unsupportedSecurityToken" naming the type |
| SignatureEndingProperties.TailLayout | streaming-webservice-security/src/main/java/org/swssf/impl/processor/output/SignatureEndingOutputProcessor.java:133-179 | the tail opens with the SignedInfo the signer was fed, followed by the SignatureValue of that input; on success the outcome is that value |
| SignatureEndingProperties.SignatureValueOverSignedInfo | streaming-webservice-security/src/main/java/org/swssf/impl/processor/output/SignatureEndingOutputProcessor.java:97-179 | the signer is fed exactly the SignedInfo written right after the Signature start tag; the SignatureValue after it, and the outcome, carry the signature of that input |
| SignatureEndingProperties.SlicesAfterStart | streaming-webservice-security/src/main/java/org/swssf/impl/processor/output/SignatureEndingOutputProcessor.java:99-179 | positions of the tail inside the header, after the token and the Signature start tag |
| SignatureEndingProperties.ReferenceUrisConcat | streaming-webservice-security/src/main/java/org/swssf/impl/processor/output/SignatureEndingOutputProcessor.java:148-171 | the Reference URIs of a concatenation are those of its parts, in order |
| SignatureEndingProperties.ReferenceBlockUris | streaming-webservice-security/src/main/java/org/swssf/impl/processor/output/SignatureEndingOutputProcessor.java:151-153 | a Reference carries exactly one URI, "#"+sigRefId |
| SignatureEndingProperties.PartUris | streaming-webservice-security/src/main/java/org/swssf/impl/processor/output/SignatureEndingOutputProcessor.java:148-152 | one URI per part, "#"+sigRefId of the part at that position |
| SignatureEndingProperties.ReferencesUris | streaming-webservice-security/src/main/java/org/swssf/impl/processor/output/SignatureEndingOutputProcessor.java:148-171 | the References carry the parts' URIs in list order |
| SignatureEndingProperties.ReferencesInOrder | streaming-webservice-security/src/main/java/org/swssf/impl/processor/output/SignatureEndingOutputProcessor.java:136-173 | SignedInfo holds exactly one Reference per part, in list order, pointing at "#"+sigRefId |
| SignatureEndingProperties.ReferencesDigests | streaming-webservice-security/src/main/java/org/swssf/impl/processor/output/SignatureEndingOutputProcessor.java:148-171 | the References are eleven events per part; the i-th opens with the i-th part's URI "#"+sigRefId and carries that part's digest as its DigestValue text |
| SignatureEndingProperties.SignedInfoDigests | streaming-webservice-security/src/main/java/org/swssf/impl/processor/output/SignatureEndingOutputProcessor.java:136-173 | inside SignedInfo, the i-th Reference has the i-th part's URI and the i-th part's DigestValue |
| SignatureEndingProperties.DirectReferencePointsAtToken | streaming-webservice-security/src/main/java/org/swssf/impl/processor/output/SignatureEndingOutputProcessor.java:78-95 | with a direct reference, the header opens with the token holding the first certificate, and the KeyInfo Reference URI is "#" + the token's wsu:Id, with the token's ValueType (lines 277-283) |
| Encrypt.DataReferences | ws-security-dom/src/main/java/org/apache/wss4j/dom/message/WSSecEncrypt.java:423-430 | one DataReference per URI, at the URI's position |
| Encrypt.DataReferencesRoundTrip | ws-security-dom/src/main/java/org/apache/wss4j/dom/message/WSSecEncrypt.java:423-430 | reading the URIs back from the DataReferences gives the URIs they were made from |
| Encrypt.ReferencedUrisConcat | ws-security-dom/src/main/java/org/apache/wss4j/dom/message/WSSecEncrypt.java:429 | appending children appends their URIs |
| Encrypt.CreateDataRefList | ws-security-dom/src/main/java/org/apache/wss4j/dom/message/WSSecEncrypt.java:418-432 | the same list comes back with one DataReference per URI, in order, after its existing children; its URIs are the old ones followed by the new |
| Encrypt.DataReferencesConcat | ws-security-dom/src/main/java/org/apache/wss4j/dom/message/WSSecEncrypt.java:418-432 | filling a list in two calls gives the same children as one call with all URIs |
| Encrypt.SessionKeyChoice | ws-security-dom/src/main/java/org/apache/wss4j/dom/message/WSSecEncrypt.java:108-116 | an existing key is kept, else the ephemeral key, else a generated one; a chosen key is kept on a second call |
| Encrypt.RecipientCertificateCases | ws-security-dom/src/main/java/org/apache/wss4j/dom/message/WSSecEncrypt.java:126-147 | the configured certificate when set; else "encryptionCryptoFailure" without crypto; else "noUserCertsFound" iff the ENDPOINT or ALIAS lookup is empty, otherwise its first certificate |
| Encrypt.WSSecEncrypt.constructor | ws-security-dom/src/main/java/org/apache/wss4j/dom/message/WSSecEncrypt.java:102-103 | the builder starts with its configuration, no attachment list, no key wrap and no EncryptedKey |
| Encrypt.WSSecEncrypt.PrepareInternal | ws-security-dom/src/main/java/org/apache/wss4j/dom/message/WSSecEncrypt.java:124 | records how the key is wrapped and creates the EncryptedKey; nothing else changes |
| Encrypt.WSSecEncrypt.Prepare | ws-security-dom/src/main/java/org/apache/wss4j/dom/message/WSSecEncrypt.java:102-155 | the session key is `SessionKey`; it fails iff wrapping needs a certificate that cannot be found, with that error; otherwise the key is wrapped for the public key or certificate, the given encrypted key is reused, or the raw key becomes the encrypted key |
| Encrypt.WSSecEncrypt.EncryptForRef | ws-security-dom/src/main/java/org/apache/wss4j/dom/message/WSSecEncrypt.java:222-266 | no data references gives null; otherwise the given or a new ReferenceList gets their DataReferences appended; attachment elements go to the attachment list |
| Encrypt.WSSecEncrypt.EncryptParts | ws-security-dom/src/main/java/org/apache/wss4j/dom/message/WSSecEncrypt.java:193-199 | the default part is added iff no part is set; the result is a new ReferenceList of the encryptor's URIs, or null |
| Encrypt.WSSecEncrypt.AddInternalRefElement | ws-security-dom/src/main/java/org/apache/wss4j/dom/message/WSSecEncrypt.java:277-281 | null is ignored; otherwise the list becomes the EncryptedKey's last child; without an EncryptedKey it is a NullPointerException |
| Encrypt.WSSecEncrypt.AddExternalRefElement | ws-security-dom/src/main/java/org/apache/wss4j/dom/message/WSSecEncrypt.java:292-297 | null is ignored; otherwise the list becomes the header's first child |
| Encrypt.WSSecEncrypt.AddAttachmentEncryptedDataElements | ws-security-dom/src/main/java/org/apache/wss4j/dom/message/WSSecEncrypt.java:299-307 | the attachment elements end up at the front of the header in reverse order, before what was there |
| Encrypt.WSSecEncrypt.PlaceElements | ws-security-dom/src/main/java/org/apache/wss4j/dom/message/WSSecEncrypt.java:178-184 | the reversed attachment elements go to the front of the header; the ReferenceList becomes the EncryptedKey's last child when there is one, else the header's first child |
| Encrypt.WSSecEncrypt.Build | ws-security-dom/src/main/java/org/apache/wss4j/dom/message/WSSecEncrypt.java:169-191 | on success the ReferenceList is the EncryptedKey's last child when there is an EncryptedKey, else the header's first child, ahead of the reversed attachment elements; a failure is the certificate error; parts change only by the default part |
| BouncyCastleCrypto.Arrange | src/org/apache/ws/security/components/crypto/BouncyCastle.java:85-90 | arranging keeps the length |
| BouncyCastleCrypto.SlotBijection | src/org/apache/ws/security/components/crypto/BouncyCastle.java:88-90 | the slot index stays in bounds, is its own inverse and is injective, so every slot is written exactly once |
| BouncyCastleCrypto.ArrangeAt | src/org/apache/ws/security/components/crypto/BouncyCastle.java:89 | the arranged chain holds at position k the certificate written to slot k |
| BouncyCastleCrypto.ArrangeRoundTrip | src/org/apache/ws/security/components/crypto/BouncyCastle.java:62-70 | decoding and encoding orders with the same flag restore the chain order (doc comments at lines 62-70 and 94-101) |
| BouncyCastleCrypto.ArrangePermutation | src/org/apache/ws/security/components/crypto/BouncyCastle.java:85-90 | the array holds the same certificates as the path |
| BouncyCastleCrypto.GetX509Certificates | src/org/apache/ws/security/components/crypto/BouncyCastle.java:74-92 | fails with SECURITY_TOKEN_UNAVAILABLE "parseError" iff the path cannot be parsed; otherwise the array, of the path's length, is the path, reversed iff `reverse` |
| BouncyCastleCrypto.GetCertificateData | src/org/apache/ws/security/components/crypto/BouncyCastle.java:106-127 | the encoder gets the array, reversed iff `reverse`; "encodeError" for an encoding failure, "parseError" for any other certificate failure |
| BouncyCastleCrypto.Reencode | src/org/apache/ws/security/components/crypto/BouncyCastle.java:94-101 | decoding certificate data and encoding the array again with the same flag hands the encoder the parsed path in its parsed order |
| PolicyEnforcement.InterestedIn | streaming-ws-policy/src/test/java/org/swssf/policy/test/SignedElementsTest.java:44 | each assertion listens to one event kind: SignedElement or ContentEncrypted |
| PolicyEnforcement.Step | streaming-ws-policy/src/test/java/org/swssf/policy/test/SignedElementsTest.java:44-51 | an event about another element or of another kind changes nothing; the required element unprotected violates; a violation is final |
| PolicyEnforcement.Relevant | streaming-ws-policy/src/test/java/org/swssf/policy/test/SignedElementsTest.java:44-51 | selects only events about the required element |
| PolicyEnforcement.RunIgnoresOthers | streaming-ws-policy/src/test/java/org/swssf/policy/test/SignedElementsTest.java:49-51 | additional elements never change the verdict |
| PolicyEnforcement.RunVerdict | streaming-ws-policy/src/test/java/org/swssf/policy/test/SignedElementsTest.java:37-73 | violated iff the required element once arrived unprotected; asserted iff it arrived protected and never unprotected |
| PolicyEnforcement.ViolationIsFinal | streaming-ws-policy/src/test/java/org/swssf/policy/test/SignedElementsTest.java:65-72 | nothing registered after a violation lifts it |
| PolicyEnforcement.ElementSecurityEvent.constructor | streaming-ws-policy/src/test/java/org/swssf/policy/test/SignedElementsTest.java:44 | an event has its kind and flag, and no element yet |
| PolicyEnforcement.ElementSecurityEvent.SetElement | streaming-ws-policy/src/test/java/org/swssf/policy/test/SignedElementsTest.java:45-50 | the element is replaced |
| PolicyEnforcement.ElementSecurityEvent.Current | streaming-ws-policy/src/test/java/org/swssf/policy/test/ContentEncryptedElementsTest.java:44-51 | the event's value now: its kind, its element at this moment and its flag |
| PolicyEnforcement.PolicyEnforcer.constructor | streaming-ws-policy/src/test/java/org/swssf/policy/test/SignedElementsTest.java:43 | a started enforcer has registered nothing and its assertion is unasserted |
| PolicyEnforcement.PolicyEnforcer.RegisterSecurityEvent | streaming-ws-policy/src/test/java/org/swssf/policy/test/SignedElementsTest.java:62-72 | the event is judged as it is at registration; registration fails iff it rejects, with a policy violation naming the element as cause; the status stays the run of all registered events |
| PolicyEnforcement.PolicyEnforcer.DoFinal | streaming-ws-policy/src/test/java/org/swssf/policy/test/SignedElementsTest.java:52 | doFinal passes iff the assertion is asserted |
| PolicyEnforcement.PolicyAccepted | streaming-ws-policy/src/test/java/org/swssf/policy/test/SignedElementsTest.java:37-53 | soap:Body, b:a and an extra element, all protected, are accepted, and doFinal succeeds; for both assertions (ContentEncryptedElementsTest.java lines 37-53 likewise) |
| PolicyEnforcement.UnprotectedRequiredRejected | streaming-ws-policy/src/test/java/org/swssf/policy/test/ContentEncryptedElementsTest.java:55-73 | soap:Body protected is accepted; b:a unprotected is rejected at registration with a PolicyViolation cause; for both assertions (SignedElementsTest.java lines 55-73 likewise) |

## Left out

- Cryptography. The signer, the SignerOutputStream and the SHA-1 thumbprint are not computed. The
  signature value is the function parameter `sign(key, events)`. The thumbprint and the Subject
  Key Identifier bytes are fields of the certificate.
- Library exceptions inside `processHeaderEvent`. These are not modelled:
  - the IOException of `getSignatureValue`, which becomes FAILED_SIGNATURE; `GetSignatureValue`
    always returns `sign(key, fed)`;
  - the XMLStreamException of `transformer.transform` in the SignedInfoProcessor's `processEvent`;
  - an exception from `getSKIBytesFromCert`;
  - a failure of `engineInitSign`, for the private key and for the token's secret key;
  - the NoSuchAlgorithmException of the SHA-1 digest of the thumbprint key identifier.

  The model takes every one of these library calls to succeed.
- Canonicalisation. The transformer that the SignedInfoProcessor creates by reflection, and the
  exceptions of that creation, are not modelled. The signer's input is the event sequence itself,
  not its canonical bytes.
- Base64, RFC 2253 normalisation of the issuer name, and the UUIDs. The text `Base64(bytes)`
  stays symbolic, the issuer name is taken as already normalised, and the random id suffixes
  are inputs (`Ids`).
- The password callback, `getCertificates`, `getPrivateKey` and `getSecurityTokenProvider`. They
  are the fields of `Environment`. A lookup that throws is not modelled; only null answers are.
- The `useSingleCert == false` PKIPath branch of the embedded token, which is dead because the
  field is always true.
- `encryptForRef`'s `createKeyInfo`, `JCEMapper`, `SecretKeySpec` and `Encryptor.doEncryption`.
  These are library calls; the encryptor is the function `doEncryption`, which returns the
  DataReference URIs and the attachment EncryptedData elements it produced.
- Encrypt.WSSecEncrypt.EncryptForRef: when the attachment list is null, the encryptor's attachment
  elements are dropped; what the library does with a null list is not part of this model.
- The namespace declaration that `encryptForRef` adds to a new ReferenceList when the key is not
  wrapped. It is an attribute for the serialiser and not part of the element value.
- The superclass steps of `build`: `prependToHeader`, `prependBSTElementToHeader` and `clean`.
  WSSecEncryptedKey is not part of this model, so `prepareInternal` is modelled only as recording
  the key wrap and creating an empty EncryptedKey element.
- `BouncyCastle.validateCertPath`, which is PKIX validation done by the library.
- SecurityContextTokenTest.java and SKITest.java, which exercise the policy parser and keystore
  I/O and hold none of this logic.
- The policy enforcer's own source is not part of this model. The two tests fix only part of the
  verdicts: a run of protected elements passes `doFinal`, and the required element arriving
  unprotected is rejected at registration. The rest is the model's own choice, not taken from
  the engine:
  - `doFinal` fails when the required element never arrived (status Unasserted);
  - after a violation, a registration passes unless it rejects again;
  - the error code INVALID_SECURITY;
  - the message texts built from `ElementName` with " not signed" / " not encrypted".

  Contracts about the tested behaviour speak only of the PolicyViolation cause. XPath matching
  in general and policies with several alternatives are not modelled.
- A NullPointerException raised by the source when it dereferences null is the distinct error
  `NullPointer`. The model does not say which Java statement raised it.
- The namespace URIs and token-profile URIs are taken from the WS-Security 1.0/1.1, XML-Signature
  and XML Encryption standards; the constants class of the repository is not part of this model.
- `SignatureEnding.SignatureEndingOutputProcessor.SignAfterSignatureStart`: when no signer was created, it promises only that
  the signer input is empty, not the converse.
- `SignatureEnding.SignatureEndingOutputProcessor.ProcessHeaderEvent`: likewise, a null signer implies an empty signer input;
  that a non-null signer has been fed SignedInfo follows from `SignerUsedIffReached`.
