/**
 * The verdicts of the policy enforcer for a SignedElements or ContentEncryptedElements
 * assertion (sections 4.1.2 and 4.2.3 of WS-SecurityPolicy 1.2) with a single policy
 * alternative whose XPath /b:a selects the element {http://example.org}a. Other elements may
 * also be signed or encrypted. An event saying that the required element is not protected
 * is rejected as soon as it is registered.
 */
module PolicyEnforcement {
  import opened Wrappers
  import opened Errors
  import opened Xml
  import opened SecurityEvents

  /** The two element-protection assertions. */
  datatype ElementsAssertion = SignedElements | ContentEncryptedElements

  /** The state of the assertion in the one alternative. */
  datatype AssertionStatus = Unasserted | Asserted | Violated

  /** The element the XPath /b:a, with b bound to http://example.org, selects. */
  const REQUIRED_ELEMENT := QName("http://example.org", "a")

  /** The event kinds the assertion is interested in. */
  function InterestedIn(assertion: ElementsAssertion): (r: set<Event>)
    ensures |r| == 1
    ensures assertion == SignedElements ==> r == {SignedElement}
    ensures assertion == ContentEncryptedElements ==> r == {ContentEncrypted}
  {
    if assertion == SignedElements then {SignedElement} else {ContentEncrypted}
  }

  /** The event is of the assertion's kind and is about the required element. */
  predicate AboutRequired(assertion: ElementsAssertion, e: SecurityEvent) {
    match e
    case SignedElementEvent(element, _) => assertion == SignedElements && element == Some(REQUIRED_ELEMENT)
    case ContentEncryptedElementEvent(element, _) => assertion == ContentEncryptedElements && element == Some(REQUIRED_ELEMENT)
    case _ => false
  }

  /** The protection flag of an element event: signed, or encrypted. */
  predicate Protected(e: SecurityEvent)
    requires e.SignedElementEvent? || e.ContentEncryptedElementEvent?
  {
    if e.SignedElementEvent? then e.signed else e.encrypted
  }

  /** The required element arrives unprotected: registration fails at once. */
  predicate Rejects(assertion: ElementsAssertion, e: SecurityEvent) {
    AboutRequired(assertion, e) && !Protected(e)
  }

  function ElementName(q: QName): string {
    "{" + q.namespaceUri + "}" + q.localPart
  }

  /** The exception registration raises: its cause is a policy violation naming the element. */
  function ViolationFor(e: SecurityEvent): SecurityError
    requires e.SignedElementEvent? || e.ContentEncryptedElementEvent?
    requires e.element.Some?
  {
    WSSecurityException(InvalidSecurity, None, [], Some(PolicyViolation(ElementName(e.element.value))))
  }

  /** The exception doFinal raises when the alternative is not satisfied. */
  function FinalViolation(assertion: ElementsAssertion): SecurityError {
    WSSecurityException(InvalidSecurity, None, [],
      Some(PolicyViolation(ElementName(REQUIRED_ELEMENT) + (if assertion == SignedElements then " not signed" else " not encrypted"))))
  }

  /** One registration: only events about the required element change the state; a violation is final. */
  function Step(assertion: ElementsAssertion, s: AssertionStatus, e: SecurityEvent): (r: AssertionStatus)
    ensures !AboutRequired(assertion, e) ==> r == s
    ensures Rejects(assertion, e) ==> r == Violated
    ensures s == Violated ==> r == Violated
  {
    if !AboutRequired(assertion, e) || s == Violated then s
    else if Protected(e) then Asserted
    else Violated
  }

  /** The state after the events, registered in order, from Unasserted. */
  function Run(assertion: ElementsAssertion, events: seq<SecurityEvent>): AssertionStatus
    decreases |events|
  {
    if events == [] then Unasserted
    else Step(assertion, Run(assertion, events[..|events| - 1]), events[|events| - 1])
  }

  /** The events about the required element, in order. */
  function Relevant(assertion: ElementsAssertion, events: seq<SecurityEvent>): (r: seq<SecurityEvent>)
    ensures forall e :: e in r ==> AboutRequired(assertion, e)
    decreases |events|
  {
    if events == [] then []
    else
      var e := events[|events| - 1];
      Relevant(assertion, events[..|events| - 1]) + (if AboutRequired(assertion, e) then [e] else [])
  }

  /** Events about other elements, or of the other kind, are ignored: extra elements are allowed. */
  lemma {:induction false} RunIgnoresOthers(assertion: ElementsAssertion, events: seq<SecurityEvent>)
    ensures Run(assertion, events) == Run(assertion, Relevant(assertion, events))
    decreases |events|
  {
    if events != [] {
      var init := events[..|events| - 1];
      var e := events[|events| - 1];
      RunIgnoresOthers(assertion, init);
      var r := Relevant(assertion, events);
      if AboutRequired(assertion, e) {
        assert r[..|r| - 1] == Relevant(assertion, init);
      } else {
        assert r == Relevant(assertion, init);
      }
    }
  }

  /**
   * The verdict of a sequence of registrations: violated iff the required element arrived
   * unprotected at least once; asserted iff it arrived protected and never unprotected.
   */
  lemma {:induction false} RunVerdict(assertion: ElementsAssertion, events: seq<SecurityEvent>)
    ensures Run(assertion, events) == Violated <==> exists i :: 0 <= i < |events| && Rejects(assertion, events[i])
    ensures Run(assertion, events) == Asserted <==>
      && (exists i :: 0 <= i < |events| && AboutRequired(assertion, events[i]) && Protected(events[i]))
      && (forall i :: 0 <= i < |events| ==> !Rejects(assertion, events[i]))
    decreases |events|
  {
    if events != [] {
      var init := events[..|events| - 1];
      var last := |events| - 1;
      RunVerdict(assertion, init);
      assert forall i :: 0 <= i < |init| ==> init[i] == events[i];
      if Run(assertion, init) == Violated {
        var i :| 0 <= i < |init| && Rejects(assertion, init[i]);
        assert Rejects(assertion, events[i]);
      }
      if Run(assertion, init) == Asserted {
        var i :| 0 <= i < |init| && AboutRequired(assertion, init[i]) && Protected(init[i]);
        assert AboutRequired(assertion, events[i]) && Protected(events[i]);
      }
      if Run(assertion, events) == Asserted && !AboutRequired(assertion, events[last]) {
        var i :| 0 <= i < |init| && AboutRequired(assertion, init[i]) && Protected(init[i]);
        assert AboutRequired(assertion, events[i]) && Protected(events[i]);
      }
    }
  }

  /** A violation survives whatever is registered after it. */
  lemma {:induction false} ViolationIsFinal(assertion: ElementsAssertion, events: seq<SecurityEvent>, more: seq<SecurityEvent>)
    requires Run(assertion, events) == Violated
    ensures Run(assertion, events + more) == Violated
    decreases |more|
  {
    if more == [] {
      assert events + more == events;
    } else {
      assert (events + more)[..|events + more| - 1] == events + more[..|more| - 1];
      ViolationIsFinal(assertion, events, more[..|more| - 1]);
    }
  }

  /**
   * A SignedElementSecurityEvent or ContentEncryptedElementSecurityEvent: its kind and flag
   * are fixed at construction, its element is set afterwards and can be set again.
   */
  class ElementSecurityEvent {
    const kind: Event
    const flag: bool
    var element: Option<QName>

    constructor (kind: Event, flag: bool)
      requires kind == SignedElement || kind == ContentEncrypted
      ensures this.kind == kind && this.flag == flag && element.None?
    {
      this.kind := kind;
      this.flag := flag;
      element := None;
    }

    predicate Valid()
    {
      kind == SignedElement || kind == ContentEncrypted
    }

    method SetElement(q: QName)
      modifies this
      ensures element == Some(q)
    {
      element := Some(q);
    }

    /** The event as it stands now. */
    function Current(): (r: SecurityEvent)
      reads this
      requires Valid()
      ensures KindOf(r) == kind && (r.SignedElementEvent? || r.ContentEncryptedElementEvent?)
      ensures r.element == element && Protected(r) == flag
    {
      if kind == SignedElement then SignedElementEvent(element, flag) else ContentEncryptedElementEvent(element, flag)
    }
  }

  /** The enforcer over the one alternative; it keeps the events as they were when registered. */
  class PolicyEnforcer {
    const assertion: ElementsAssertion
    var status: AssertionStatus
    var registered: seq<SecurityEvent>

    predicate Valid()
      reads this
    {
      status == Run(assertion, registered)
    }

    constructor (assertion: ElementsAssertion)
      ensures Valid() && this.assertion == assertion && registered == [] && status == Unasserted
    {
      this.assertion := assertion;
      status := Unasserted;
      registered := [];
    }

    /**
     * registerSecurityEvent: the event is judged on its element at this moment; an event the
     * assertion is not interested in is passed over, and the required element unprotected is
     * rejected with a policy violation.
     */
    method RegisterSecurityEvent(e: ElementSecurityEvent) returns (outcome: Outcome<SecurityError>)
      requires Valid() && e.Valid()
      modifies this
      ensures Valid()
      ensures registered == old(registered) + [e.Current()]
      ensures status == Step(assertion, old(status), e.Current())
      ensures outcome.Fail? <==> Rejects(assertion, e.Current())
      ensures outcome.Fail? ==> outcome.error == ViolationFor(e.Current())
                                && outcome.error.cause == Some(PolicyViolation(ElementName(REQUIRED_ELEMENT)))
    {
      var current := e.Current();
      registered := registered + [current];
      assert registered[..|registered| - 1] == old(registered);
      outcome := Pass;
      if KindOf(current) in InterestedIn(assertion) && current.element == Some(REQUIRED_ELEMENT) {
        if Protected(current) {
          if status != Violated {
            status := Asserted;
          }
        } else {
          status := Violated;
          outcome := Fail(ViolationFor(current));
        }
      }
    }

    /** doFinal: the alternative is satisfied iff the assertion is asserted. */
    method DoFinal() returns (outcome: Outcome<SecurityError>)
      requires Valid()
      ensures outcome.Pass? <==> status == Asserted
      ensures outcome.Fail? ==> outcome.error == FinalViolation(assertion)
    {
      if status == Asserted {
        outcome := Pass;
      } else {
        outcome := Fail(FinalViolation(assertion));
      }
    }
  }

  function EventKind(assertion: ElementsAssertion): Event {
    if assertion == SignedElements then SignedElement else ContentEncrypted
  }

  const SOAP_BODY := QName("http://schemas.xmlsoap.org/soap/envelope/", "Body")

  /**
   * testPolicy: one event object, protected, set in turn to soap:Body, b:a and an unrelated
   * element, is registered three times without complaint, and doFinal succeeds.
   */
  method PolicyAccepted(assertion: ElementsAssertion) returns (registrations: seq<Outcome<SecurityError>>, verdict: Outcome<SecurityError>)
    ensures registrations == [Pass, Pass, Pass] && verdict == Pass
  {
    var enforcer := new PolicyEnforcer(assertion);
    var event := new ElementSecurityEvent(EventKind(assertion), true);
    event.SetElement(SOAP_BODY);
    var first := enforcer.RegisterSecurityEvent(event);
    event.SetElement(REQUIRED_ELEMENT);
    var second := enforcer.RegisterSecurityEvent(event);
    event.SetElement(QName("http://example.com", "b"));
    var third := enforcer.RegisterSecurityEvent(event);
    registrations := [first, second, third];
    verdict := enforcer.DoFinal();
  }

  /**
   * testPolicyMultipleAssertionEventsNegative: soap:Body protected is accepted; a new event
   * saying b:a is not protected is rejected at registration, with a policy violation as cause.
   */
  method UnprotectedRequiredRejected(assertion: ElementsAssertion) returns (first: Outcome<SecurityError>, second: Outcome<SecurityError>)
    ensures first == Pass
    ensures second.Fail? && second.error.WSSecurityException? && second.error.cause.Some?
    ensures second.error.cause.value.PolicyViolation?
  {
    var enforcer := new PolicyEnforcer(assertion);
    var event := new ElementSecurityEvent(EventKind(assertion), true);
    event.SetElement(SOAP_BODY);
    first := enforcer.RegisterSecurityEvent(event);
    event := new ElementSecurityEvent(EventKind(assertion), false);
    event.SetElement(REQUIRED_ELEMENT);
    second := enforcer.RegisterSecurityEvent(event);
  }
}
