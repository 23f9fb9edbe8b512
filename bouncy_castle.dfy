/**
 * The chain ordering of the BouncyCastle crypto provider. Certificate data is a certificate
 * path. Decoding fills an array so that position i holds the i-th certificate of the path, or,
 * with the reverse flag, the i-th from the end. Encoding builds the list handed to the path
 * encoder by appending, or, with the reverse flag, by inserting at the front. The X.509
 * codec itself is a pair of function parameters.
 */
module BouncyCastleCrypto {
  import opened Wrappers
  import opened Errors
  import opened Certificates
  import opened Sequences

  /** What the certificate factory does with a certificate list: its encoding, or one of two exceptions. */
  datatype PathEncoding =
    | Encoded(bytes: Bytes)
    | EncodingFailure      // CertificateEncodingException
    | CertificateFailure   // any other CertificateException

  /** The chain in array order: as given, or reversed. */
  function Arrange<T>(l: seq<T>, reverse: bool): (r: seq<T>)
    ensures |r| == |l|
  {
    if reverse then Reversed(l) else l
  }

  /** The array slot the i-th certificate of an n-long path is written to. */
  function Slot(i: int, n: int, reverse: bool): int {
    if reverse then n - 1 - i else i
  }

  /** Every slot is written exactly once: Slot maps 0..n-1 onto itself and undoes itself. */
  lemma SlotBijection(n: nat, reverse: bool)
    ensures forall i :: 0 <= i < n ==> 0 <= Slot(i, n, reverse) < n && Slot(Slot(i, n, reverse), n, reverse) == i
    ensures forall i, j :: 0 <= i < n && 0 <= j < n && Slot(i, n, reverse) == Slot(j, n, reverse) ==> i == j
  {
  }

  /** Slot k of the arranged chain holds the certificate that was written to it. */
  lemma ArrangeAt<T>(l: seq<T>, reverse: bool, k: int)
    requires 0 <= k < |l|
    ensures Arrange(l, reverse)[k] == l[Slot(k, |l|, reverse)]
  {
    if reverse {
      ReversedAt(l, k);
    }
  }

  /** Decoding and then encoding with the same flag restores the order of the chain. */
  lemma ArrangeRoundTrip<T>(l: seq<T>, reverse: bool)
    ensures Arrange(Arrange(l, reverse), reverse) == l
  {
    if reverse {
      ReversedInvolution(l);
    }
  }

  /** Arranging only reorders the chain. */
  lemma ArrangePermutation<T>(l: seq<T>, reverse: bool)
    ensures multiset(Arrange(l, reverse)) == multiset(l)
  {
    if reverse {
      ReversedPermutation(l);
    }
  }

  /**
   * getX509Certificates: parses the path; a parse failure is SECURITY_TOKEN_UNAVAILABLE
   * "parseError". Otherwise an array of the path's length is filled, walking the path once,
   * with the certificate the iterator yields at step i written to Slot(i).
   */
  method GetX509Certificates(data: Bytes, reverse: bool, generateCertPath: Bytes -> Option<seq<X509Certificate>>)
    returns (r: Result<array<X509Certificate>, SecurityError>)
    ensures generateCertPath(data).None? <==> r.Failure?
    ensures r.Failure? ==> r.error == Raise(SecurityTokenUnavailable, "parseError")
    ensures r.Success? ==> r.value[..] == Arrange(generateCertPath(data).value, reverse)
  {
    var path := generateCertPath(data);
    if path.None? {
      return Failure(Raise(SecurityTokenUnavailable, "parseError"));
    }
    var l := path.value;
    var n := |l|;
    var certs := new X509Certificate[n];
    var next := 0;  // the iterator's position in l
    for i := 0 to n
      invariant next == i
      invariant forall j :: 0 <= j < i ==> certs[Slot(j, n, reverse)] == l[j]
    {
      certs[if reverse then n - 1 - i else i] := l[next];
      next := next + 1;
    }
    forall k | 0 <= k < n
      ensures certs[k] == Arrange(l, reverse)[k]
    {
      SlotBijection(n, reverse);
      ArrangeAt(l, reverse, k);
      assert certs[Slot(Slot(k, n, reverse), n, reverse)] == l[Slot(k, n, reverse)];
    }
    r := Success(certs);
  }

  /**
   * getCertificateData: builds the list for the path encoder, appending each certificate in
   * turn or, with the reverse flag, inserting it at the front, then encodes it. An encoding
   * failure is "encodeError" and any other certificate failure "parseError", both
   * SECURITY_TOKEN_UNAVAILABLE.
   */
  method GetCertificateData(reverse: bool, certs: array<X509Certificate>, encode: seq<X509Certificate> -> PathEncoding)
    returns (r: Result<Bytes, SecurityError>)
    ensures match encode(Arrange(certs[..], reverse))
      case Encoded(bytes) => r == Success(bytes)
      case EncodingFailure => r == Failure(Raise(SecurityTokenUnavailable, "encodeError"))
      case CertificateFailure => r == Failure(Raise(SecurityTokenUnavailable, "parseError"))
  {
    var list: seq<X509Certificate> := [];
    for i := 0 to certs.Length
      invariant list == Arrange(certs[..i], reverse)
    {
      assert certs[..i + 1] == certs[..i] + [certs[i]];
      if reverse {
        ReversedSnoc(certs[..i], certs[i]);
        list := [certs[i]] + list;
      } else {
        list := list + [certs[i]];
      }
    }
    assert certs[..certs.Length] == certs[..];
    var encoded := encode(list);
    match encoded
    case Encoded(bytes) => r := Success(bytes);
    case EncodingFailure => r := Failure(Raise(SecurityTokenUnavailable, "encodeError"));
    case CertificateFailure => r := Failure(Raise(SecurityTokenUnavailable, "parseError"));
  }

  /**
   * Decoding certificate data and encoding the array again with the same flag hands the
   * encoder exactly the path that was parsed, in the parsed order.
   */
  method Reencode(data: Bytes, reverse: bool, generateCertPath: Bytes -> Option<seq<X509Certificate>>,
                  encode: seq<X509Certificate> -> PathEncoding)
    returns (r: Result<Bytes, SecurityError>)
    ensures generateCertPath(data).None? ==> r == Failure(Raise(SecurityTokenUnavailable, "parseError"))
    ensures generateCertPath(data).Some? && encode(generateCertPath(data).value).Encoded? ==>
      r == Success(encode(generateCertPath(data).value).bytes)
  {
    var certs := GetX509Certificates(data, reverse, generateCertPath);
    if certs.Failure? {
      return Failure(certs.error);
    }
    ArrangeRoundTrip(generateCertPath(data).value, reverse);
    r := GetCertificateData(reverse, certs.value, encode);
  }
}
