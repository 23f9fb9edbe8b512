/**
 * The assertion state for an AlgorithmSuite policy assertion (WS-SecurityPolicy 1.2,
 * sections 6.1 and 7.1): each AlgorithmSuite event names a key-usage role and the algorithm
 * URI used in it; the state compares the URI with the one the policy expects for that role.
 */
module AlgorithmSuiteAssertion {
  import opened Wrappers
  import opened SecurityEvents

  /** The algorithm-suite type that a named suite (Basic256, ...) stands for. */
  datatype AlgorithmSuiteType = AlgorithmSuiteType(
    digest: string,
    encryption: string,
    symmetricKeyWrap: string,
    asymmetricKeyWrap: string,
    encryptionKeyDerivation: string,
    signatureKeyDerivation: string)

  /**
   * The AlgorithmSuite assertion as parsed from the policy. A None field (Java null) means
   * the policy states no expectation for that role; c14n, soapNormType, strType and
   * xPathType hold the URI value of the corresponding enumeration constant.
   */
  datatype AlgorithmSuite = AlgorithmSuite(
    algorithmSuiteType: Option<AlgorithmSuiteType>,
    symmetricSignature: Option<string>,
    asymmetricSignature: Option<string>,
    computedKey: Option<string>,
    c14n: Option<string>,
    soapNormType: Option<string>,
    strType: Option<string>,
    xPathType: Option<string>)

  /** Whether a role is checked against a field of the algorithm-suite type. */
  predicate IsSuiteTypeRole(u: KeyUsage) {
    u == Dig || u == Enc || u == SymKeyWrap || u == AsymKeyWrap || u == EncKD || u == SigKD
  }

  /** Whether a role is checked against a field of the assertion itself. */
  predicate IsDirectRole(u: KeyUsage) {
    u == SymSig || u == AsymSig || u == CompKey || u == C14n || u == SoapNorm || u == StrTrans || u == XPath
  }

  /** The role's name at the head of the violation message; None for a role the state does not handle. */
  function RoleText(u: KeyUsage): (r: Option<string>)
    ensures r.Some? <==> IsSuiteTypeRole(u) || IsDirectRole(u)
  {
    match u
    case SymSig => Some("Symmetric signature")
    case AsymSig => Some("Asymmetric signature")
    case Dig => Some("Digest")
    case Enc => Some("Encryption")
    case SymKeyWrap => Some("Symmetric key wrap")
    case AsymKeyWrap => Some("Asymmetric key wrap")
    case CompKey => Some("Computed key")
    case EncKD => Some("Encryption key derivation")
    case SigKD => Some("Signature key derivation")
    case C14n => Some("C14N")
    case SoapNorm => Some("Soap normalization")
    case StrTrans => Some("STR transformation")
    case XPath => Some("XPath")
    case OtherUsage(_) => None
  }

  /** The URI the policy expects for role `u`, or None when it declares no expectation. */
  function Expected(suite: AlgorithmSuite, u: KeyUsage): (r: Option<string>)
    ensures r.Some? ==> RoleText(u).Some?
    ensures IsSuiteTypeRole(u) ==> (r.Some? <==> suite.algorithmSuiteType.Some?)
  {
    var t := suite.algorithmSuiteType;
    match u
    case SymSig => suite.symmetricSignature
    case AsymSig => suite.asymmetricSignature
    case Dig => if t.Some? then Some(t.value.digest) else None
    case Enc => if t.Some? then Some(t.value.encryption) else None
    case SymKeyWrap => if t.Some? then Some(t.value.symmetricKeyWrap) else None
    case AsymKeyWrap => if t.Some? then Some(t.value.asymmetricKeyWrap) else None
    case CompKey => suite.computedKey
    case EncKD => if t.Some? then Some(t.value.encryptionKeyDerivation) else None
    case SigKD => if t.Some? then Some(t.value.signatureKeyDerivation) else None
    case C14n => suite.c14n
    case SoapNorm => suite.soapNormType
    case StrTrans => suite.strType
    case XPath => suite.xPathType
    case OtherUsage(_) => None
  }

  /** The event's algorithm differs from an expectation the policy declares for the event's role. */
  predicate Violates(suite: AlgorithmSuite, e: SecurityEvent)
    requires e.AlgorithmSuiteEvent?
  {
    var x := Expected(suite, e.keyUsage);
    x.Some? && x.value != e.algorithmUri
  }

  /** "<role> algorithm <uri> does not meet policy" */
  function ViolationMessage(e: SecurityEvent): (m: string)
    requires e.AlgorithmSuiteEvent? && RoleText(e.keyUsage).Some?
    ensures |m| > |e.algorithmUri|
  {
    RoleText(e.keyUsage).value + " algorithm " + e.algorithmUri + " does not meet policy"
  }

  /** The two fields an assertion state keeps. */
  datatype StateValue = StateValue(asserted: bool, errorMessage: Option<string>)

  /** The effect of one AlgorithmSuite event on the state. */
  function Step(s: StateValue, suite: AlgorithmSuite, e: SecurityEvent): (r: StateValue)
    requires e.AlgorithmSuiteEvent?
    ensures r.asserted ==> s.asserted
    ensures !Violates(suite, e) ==> r == s
    ensures Violates(suite, e) ==> !r.asserted && r.errorMessage == Some(ViolationMessage(e))
  {
    if Violates(suite, e) then StateValue(false, Some(ViolationMessage(e))) else s
  }

  predicate AllAlgorithmSuiteEvents(events: seq<SecurityEvent>) {
    forall i :: 0 <= i < |events| ==> events[i].AlgorithmSuiteEvent?
  }

  /** The state after the events have been asserted one after the other. */
  function Run(s: StateValue, suite: AlgorithmSuite, events: seq<SecurityEvent>): StateValue
    requires AllAlgorithmSuiteEvents(events)
    decreases |events|
  {
    if events == [] then s
    else Step(Run(s, suite, events[..|events| - 1]), suite, events[|events| - 1])
  }

  /** No event in the sequence violates the policy. */
  predicate AllMatch(suite: AlgorithmSuite, events: seq<SecurityEvent>)
    requires AllAlgorithmSuiteEvents(events)
  {
    forall i :: 0 <= i < |events| ==> !Violates(suite, events[i])
  }

  /** After any sequence of events, `asserted` is its initial value and "every event matched". */
  lemma {:induction false} RunAsserted(s: StateValue, suite: AlgorithmSuite, events: seq<SecurityEvent>)
    requires AllAlgorithmSuiteEvents(events)
    ensures Run(s, suite, events).asserted == (s.asserted && AllMatch(suite, events))
    decreases |events|
  {
    if events != [] {
      var init := events[..|events| - 1];
      RunAsserted(s, suite, init);
      assert forall i :: 0 <= i < |init| ==> init[i] == events[i];
    }
  }

  /** The verdict does not depend on the order in which the events arrive. */
  lemma RunOrderIndependent(s: StateValue, suite: AlgorithmSuite, a: seq<SecurityEvent>, b: seq<SecurityEvent>)
    requires AllAlgorithmSuiteEvents(a) && AllAlgorithmSuiteEvents(b)
    requires multiset(a) == multiset(b)
    ensures Run(s, suite, a).asserted == Run(s, suite, b).asserted
  {
    RunAsserted(s, suite, a);
    RunAsserted(s, suite, b);
    forall i | 0 <= i < |a| ensures exists j :: 0 <= j < |b| && b[j] == a[i] {
      assert a[i] in multiset(b);
    }
    forall j | 0 <= j < |b| ensures exists i :: 0 <= i < |a| && a[i] == b[j] {
      assert b[j] in multiset(a);
    }
  }

  /** Events that all match leave the whole state, message included, as it was. */
  lemma {:induction false} RunAllMatch(s: StateValue, suite: AlgorithmSuite, events: seq<SecurityEvent>)
    requires AllAlgorithmSuiteEvents(events) && AllMatch(suite, events)
    ensures Run(s, suite, events) == s
    decreases |events|
  {
    if events != [] {
      RunAllMatch(s, suite, events[..|events| - 1]);
    }
  }

  /** The error message is that of the last violating event. */
  lemma {:induction false} RunLastViolation(s: StateValue, suite: AlgorithmSuite, events: seq<SecurityEvent>, k: nat)
    requires AllAlgorithmSuiteEvents(events)
    requires k < |events| && Violates(suite, events[k])
    requires forall j :: k < j < |events| ==> !Violates(suite, events[j])
    ensures !Run(s, suite, events).asserted
    ensures Run(s, suite, events).errorMessage == Some(ViolationMessage(events[k]))
    decreases |events|
  {
    if k < |events| - 1 {
      RunLastViolation(s, suite, events[..|events| - 1], k);
    }
  }

  /** The assertion state is only interested in AlgorithmSuite events. */
  function GetSecurityEventType(): (r: seq<Event>)
    ensures |r| == 1 && forall k :: k in r <==> k == Event.AlgorithmSuite
  {
    [Event.AlgorithmSuite]
  }

  /** AlgorithmSuiteAssertionState: the sticky `asserted` flag and the last error message. */
  class AlgorithmSuiteAssertionState {
    const assertion: AlgorithmSuite
    var asserted: bool
    var errorMessage: Option<string>

    constructor (assertion: AlgorithmSuite, asserted: bool)
      ensures this.assertion == assertion && this.asserted == asserted && errorMessage == None
    {
      this.assertion := assertion;
      this.asserted := asserted;
      errorMessage := None;
    }

    function State(): StateValue
      reads this
    {
      StateValue(asserted, errorMessage)
    }

    /** Dispatches on the event's key usage; a mismatch clears `asserted` and records the message. */
    method AssertEvent(e: SecurityEvent) returns (r: bool)
      requires e.AlgorithmSuiteEvent?
      modifies this
      ensures State() == Step(old(State()), assertion, e)
      ensures asserted == (old(asserted) && !Violates(assertion, e))
      ensures errorMessage == if Violates(assertion, e) then Some(ViolationMessage(e)) else old(errorMessage)
      ensures r == asserted
    {
      var expected := Expected(assertion, e.keyUsage);
      if expected.Some? && expected.value != e.algorithmUri {
        asserted := false;
        errorMessage := Some(RoleText(e.keyUsage).value + " algorithm " + e.algorithmUri + " does not meet policy");
      }
      r := asserted;
    }
  }

  /** A policy expecting rsa-sha256 for symmetric signatures rejects rsa-sha1 and accepts rsa-sha256. */
  lemma SymmetricSignatureExample(suite: AlgorithmSuite, s: StateValue)
    requires suite.symmetricSignature == Some("http://www.w3.org/2001/04/xmldsig-more#rsa-sha256")
    ensures !Step(s, suite, AlgorithmSuiteEvent(SymSig, "http://www.w3.org/2000/09/xmldsig#rsa-sha1")).asserted
    ensures Step(s, suite, AlgorithmSuiteEvent(SymSig, "http://www.w3.org/2001/04/xmldsig-more#rsa-sha256")) == s
  {
  }
}
