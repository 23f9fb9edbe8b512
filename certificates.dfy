/** X.509 certificates, seen only through the facts the modelled code reads from them. */
module Certificates {
  import opened Wrappers

  type Bytes = seq<bv8>

  /**
   * `encoded` is the DER encoding, or None when `getEncoded` throws
   * CertificateEncodingException; `thumbprint` is the SHA-1 digest of that encoding;
   * `ski` is what the crypto provider returns as the Subject Key Identifier bytes;
   * `issuerName` is the issuer DN after RFC 2253 normalisation.
   */
  datatype X509Certificate = X509Certificate(
    encoded: Option<Bytes>,
    thumbprint: Bytes,
    ski: Bytes,
    issuerName: string,
    serialNumber: string,
    version: int)
}
