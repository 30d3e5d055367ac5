/**
 * What each event does to the component, and what holds over any sequence of events:
 * the initialisation gate, the bootstrap outcomes, the classification of a confirmation
 * and the navigation that follows it.
 */
module PaymentProperties {
  import opened Wrappers
  import opened PaymentState

  // ---------------------------------------------------------------------------------
  // Credential intake and the initialisation gate
  // ---------------------------------------------------------------------------------

  /** `tryInitStripe` starts a bootstrap exactly when the gate is open, and otherwise changes nothing. */
  lemma GateStartsIffOpen(s: State)
    ensures TryInit(s).initStarts == s.initStarts + 1 <==> GateOpen(s)
    ensures TryInit(s).inFlightInits == s.inFlightInits + 1 <==> GateOpen(s)
    ensures GateOpen(s) ==> TryInit(s).isLoading
    ensures !GateOpen(s) ==> TryInit(s) == s
  {
  }

  /** A truthy key is stored and the gate is tried; an error records its message and drops the spinner. */
  lemma PublicKeyDeliveryEffect(s: State, r: WireResponse)
    ensures var s' := WiredPublicKey(s, r);
      && (Truthy(r.data) ==>
            && s'.publicKey == r.data && s'.clientSecret == s.clientSecret
            && (s'.initStarts == s.initStarts + 1 <==> Truthy(s.clientSecret) && s.cardElement.None?)
            && (s'.initStarts == s.initStarts ==> s' == s.(publicKey := r.data)))
      && (!Truthy(r.data) && r.error ==>
            && s'.initError == Some(PublicKeyFetchError) && !s'.isLoading
            && s'.publicKey == s.publicKey && s'.clientSecret == s.clientSecret
            && s'.initStarts == s.initStarts)
      && (!Truthy(r.data) && !r.error ==> s' == s)
  {
  }

  /** The PaymentIntent delivery mirrors the key delivery, on `clientSecret`. */
  lemma PaymentIntentDeliveryEffect(s: State, r: WireResponse)
    ensures var s' := WiredPaymentIntent(s, r);
      && (Truthy(r.data) ==>
            && s'.clientSecret == r.data && s'.publicKey == s.publicKey
            && (s'.initStarts == s.initStarts + 1 <==> Truthy(s.publicKey) && s.cardElement.None?)
            && (s'.initStarts == s.initStarts ==> s' == s.(clientSecret := r.data)))
      && (!Truthy(r.data) && r.error ==>
            && s'.initError == Some(PaymentIntentFetchError) && !s'.isLoading
            && s'.publicKey == s.publicKey && s'.clientSecret == s.clientSecret
            && s'.initStarts == s.initStarts)
      && (!Truthy(r.data) && !r.error ==> s' == s)
  {
  }

  /** Whichever credential arrives first, the bootstrap starts once, on the second delivery. */
  lemma EitherOrderStartsOnce(key: string, secret: string, result: Option<string>)
    requires key != "" && secret != ""
    ensures var s0 := Initial(result);
      var k := WireResponse(Some(key), false);
      var c := WireResponse(Some(secret), false);
      && WiredPublicKey(s0, k).initStarts == 0
      && WiredPaymentIntent(s0, c).initStarts == 0
      && WiredPaymentIntent(WiredPublicKey(s0, k), c).initStarts == 1
      && WiredPublicKey(WiredPaymentIntent(s0, c), k).initStarts == 1
  {
  }

  // ---------------------------------------------------------------------------------
  // Bootstrap completion
  // ---------------------------------------------------------------------------------

  /** Every outcome drops the spinner; each leaves its own combination of fields. */
  lemma CompletionEffect(s: State, o: InitOutcome)
    requires s.inFlightInits > 0
    ensures var s' := CompleteInit(s, o);
      && !s'.isLoading
      && s'.inFlightInits == s.inFlightInits - 1
      && s'.publicKey == s.publicKey && s'.clientSecret == s.clientSecret
      && (o.LoadFailed? ==>
            s'.initError == Some(ScriptLoadError) && s'.cardElement == s.cardElement
            && s'.stripe == s.stripe && s'.card == s.card)
      && (o.TargetMissing? ==>
            s'.initError == s.initError && s'.cardElement == s.cardElement
            && s'.stripe == s.stripe && s'.card == s.card && s'.cardErrors == s.cardErrors)
      && (o.Mounted? ==>
            s'.cardElement == Some(o.target) && s'.stripe == Some(o.stripe)
            && s'.card == Some(o.card) && s'.cardErrors == o.errorSlot
            && s'.initError == s.initError)
  {
  }

  /** After a mount the gate is shut: trying it again is a no-op. */
  lemma MountedClosesGate(s: State, o: InitOutcome)
    requires s.inFlightInits > 0 && o.Mounted?
    ensures !GateOpen(CompleteInit(s, o))
    ensures TryInit(CompleteInit(s, o)) == CompleteInit(s, o)
  {
  }

  /**
   * A missing mount target leaves `cardElement` unset, so when both credentials are held the
   * next truthy delivery of either one starts a second bootstrap.
   */
  lemma MissingTargetReopensGate(s: State, key: string, secret: string)
    requires s.inFlightInits > 0 && s.cardElement.None?
    requires Truthy(s.publicKey) && Truthy(s.clientSecret) && key != "" && secret != ""
    ensures var s' := CompleteInit(s, TargetMissing);
      && s'.cardElement.None? && s'.stripe == s.stripe && s'.card == s.card
      && WiredPublicKey(s', WireResponse(Some(key), false)).initStarts == s.initStarts + 1
      && WiredPaymentIntent(s', WireResponse(Some(secret), false)).initStarts == s.initStarts + 1
  {
  }

  /**
   * The gate tests `cardElement`, which only a completed mount sets: a re-delivered secret
   * while Stripe.js is still loading starts a second, concurrent bootstrap.
   */
  lemma RedeliveryDuringLoadStartsTwice(key: string, secret: string, secret2: string)
    requires key != "" && secret != "" && secret2 != ""
    ensures var t := [
        PublicKeyDelivered(WireResponse(Some(key), false)),
        PaymentIntentDelivered(WireResponse(Some(secret), false)),
        PaymentIntentDelivered(WireResponse(Some(secret2), false))];
      && Admissible(Initial(None), t)
      && Run(Initial(None), t).initStarts == 2 && Run(Initial(None), t).inFlightInits == 2
  {
    var s0 := Initial(None);
    var e1 := PublicKeyDelivered(WireResponse(Some(key), false));
    var e2 := PaymentIntentDelivered(WireResponse(Some(secret), false));
    var e3 := PaymentIntentDelivered(WireResponse(Some(secret2), false));
    var s1 := Step(s0, e1);
    var s2 := Step(s1, e2);
    var s3 := Step(s2, e3);
    assert s2.initStarts == 1 && s3.initStarts == 2 && s3.inFlightInits == 2;
    assert [e1, e2, e3][1..] == [e2, e3];
    assert [e2, e3][1..] == [e3];
    assert Admissible(s3, []) && Run(s3, []) == s3;
    assert Admissible(s2, [e3]) && Run(s2, [e3]) == s3;
    assert Admissible(s1, [e2, e3]) && Run(s1, [e2, e3]) == s3;
  }

  // ---------------------------------------------------------------------------------
  // Card changes, payment and navigation
  // ---------------------------------------------------------------------------------

  /** The error slot shows the widget's error message, or nothing once the error clears. */
  lemma CardChangeEffect(s: State, ch: CardChange)
    ensures var s' := HandleCardChange(s, ch);
      && (s.cardErrors.None? ==> s' == s)
      && (s.cardErrors.Some? ==>
            && s'.errorText == (if ch.error.Some? then ch.error.value else "")
            && s' == s.(errorText := s'.errorText))
  {
  }

  /** A click shows the loader; a confirmation is pending only when a Stripe client exists. */
  lemma PaymentRequestEffect(s: State)
    ensures var s' := RequestPayment(s);
      && s'.showLoader
      && s'.inFlightPayments == s.inFlightPayments + (if s.stripe.Some? then 1 else 0)
      && s'.navigations == s.navigations
  {
  }

  /**
   * A settled confirmation hides the loader and is followed by exactly one "next" event on
   * every branch, unless a declined payment meets a missing error slot (the write to it throws).
   */
  lemma SettlementNavigatesOnce(s: State, c: Confirmation)
    requires s.inFlightPayments > 0
    ensures var s' := Settle(s, c);
      && !s'.showLoader
      && s'.inFlightPayments == s.inFlightPayments - 1
      && s'.navigations == s.navigations + (if c.Declined? && s.cardErrors.None? then 0 else 1)
  {
  }

  /** The field values each kind of confirmation leaves behind, when it navigates. */
  lemma SettlementFields(s: State, c: Confirmation)
    requires s.inFlightPayments > 0
    requires c.Declined? ==> s.cardErrors.Some?
    ensures var s' := Settle(s, c);
      && (c.Declined? ==>
            s'.message == Some(MessageError) && s'.statusCode == Some(c.errorMessage)
            && s'.errorText == c.errorMessage && s'.result == s.result)
      && (c.Intent? && IsSuccessStatus(c.status) ==>
            s'.message == Some(MessageSuccess) && s'.statusCode == Some(StatusOk)
            && s'.result == Some(PaymentSuccess) && s'.errorText == s.errorText)
      && (c.Intent? && !IsSuccessStatus(c.status) ==>
            s'.message == s.message && s'.statusCode == Some(c.status)
            && s'.result == Some(PaymentFailed) && s'.errorText == s.errorText)
  {
  }

  /** When it does not throw, `pay` writes exactly the fields `Classify` selects, and nothing else. */
  lemma RecordFollowsClassification(s: State, c: Confirmation)
    requires s.inFlightPayments > 0 && !ClassificationThrows(s, c)
    ensures var k := Classify(c);
      RecordConfirmation(s, c) ==
        s.(showLoader := false, inFlightPayments := s.inFlightPayments - 1,
           errorText := Overwrite(s.errorText, k.errorText),
           message := OverwriteOpt(s.message, k.message),
           statusCode := Some(k.statusCode),
           result := OverwriteOpt(s.result, k.result))
  {
  }

  // ---------------------------------------------------------------------------------
  // Properties of every run
  // ---------------------------------------------------------------------------------

  lemma StepPreservesInvariant(s: State, e: Event)
    requires Invariant(s) && Enabled(s, e)
    ensures Invariant(Step(s, e))
  {
  }

  /**
   * Every state reached from a valid one is valid: in particular a bootstrap has only ever
   * started with both credentials held, and a confirmation or a navigation implies a client.
   */
  lemma {:induction false} InvariantHoldsOnEveryRun(s: State, t: seq<Event>)
    requires Invariant(s) && Admissible(s, t)
    ensures Invariant(Run(s, t))
    decreases |t|
  {
    if t != [] {
      StepPreservesInvariant(s, t[0]);
      InvariantHoldsOnEveryRun(Step(s, t[0]), t[1..]);
    }
  }

  lemma InitialIsValid(result: Option<string>)
    ensures Invariant(Initial(result)) && !GateOpen(Initial(result))
  {
  }

  /** Once a card is mounted no event ever starts another bootstrap, and the mount stays. */
  lemma {:induction false} MountKeepsGateClosed(s: State, t: seq<Event>)
    requires s.cardElement.Some? && Admissible(s, t)
    ensures Run(s, t).initStarts == s.initStarts
    ensures Run(s, t).cardElement.Some?
    decreases |t|
  {
    if t != [] {
      MountKeepsGateClosed(Step(s, t[0]), t[1..]);
    }
  }

  /** The number of events in `t` that deliver a truthy client secret. */
  function SecretDeliveries(t: seq<Event>): nat {
    if t == [] then 0
    else (if t[0].PaymentIntentDelivered? && Truthy(t[0].response.data) then 1 else 0) + SecretDeliveries(t[1..])
  }

  /** The number of events in `t` that deliver a truthy publishable key. */
  function KeyDeliveries(t: seq<Event>): nat {
    if t == [] then 0
    else (if t[0].PublicKeyDelivered? && Truthy(t[0].response.data) then 1 else 0) + KeyDeliveries(t[1..])
  }

  /** Until a client secret arrives nothing starts, however many keys or errors are delivered. */
  lemma {:induction false} NoStartWithoutSecret(s: State, t: seq<Event>)
    requires !Truthy(s.clientSecret) && Admissible(s, t) && SecretDeliveries(t) == 0
    ensures Run(s, t).initStarts == s.initStarts
    ensures !Truthy(Run(s, t).clientSecret)
    decreases |t|
  {
    if t != [] {
      NoStartWithoutSecret(Step(s, t[0]), t[1..]);
    }
  }

  /** Until a publishable key arrives nothing starts, however many secrets or errors are delivered. */
  lemma {:induction false} NoStartWithoutKey(s: State, t: seq<Event>)
    requires !Truthy(s.publicKey) && Admissible(s, t) && KeyDeliveries(t) == 0
    ensures Run(s, t).initStarts == s.initStarts
    ensures !Truthy(Run(s, t).publicKey)
    decreases |t|
  {
    if t != [] {
      NoStartWithoutKey(Step(s, t[0]), t[1..]);
    }
  }

  /** The number of pay-button clicks in `t`. */
  function PaymentRequests(t: seq<Event>): nat {
    if t == [] then 0
    else (if t[0].PaymentRequested? then 1 else 0) + PaymentRequests(t[1..])
  }

  /** Each "next" event answers one click: navigations plus pending confirmations never outgrow the clicks. */
  lemma {:induction false} NavigationsBoundedByRequests(s: State, t: seq<Event>)
    requires Admissible(s, t)
    ensures Run(s, t).navigations + Run(s, t).inFlightPayments
            <= s.navigations + s.inFlightPayments + PaymentRequests(t)
    decreases |t|
  {
    if t != [] {
      NavigationsBoundedByRequests(Step(s, t[0]), t[1..]);
    }
  }

  /**
   * Each truthy credential delivery starts at most one bootstrap, and when neither credential
   * is held yet the first delivery starts none.
   */
  lemma {:induction false} StartsBoundedByDeliveries(s: State, t: seq<Event>)
    requires Admissible(s, t)
    ensures Run(s, t).initStarts
            + (if !Truthy(s.publicKey) && !Truthy(s.clientSecret) && KeyDeliveries(t) + SecretDeliveries(t) > 0
               then 1 else 0)
            <= s.initStarts + KeyDeliveries(t) + SecretDeliveries(t)
    decreases |t|
  {
    if t != [] {
      StartsBoundedByDeliveries(Step(s, t[0]), t[1..]);
    }
  }

  /**
   * Whatever the order and whatever else happens in between (errors, card changes, clicks,
   * completions), one truthy delivery of each credential starts at most one bootstrap, and
   * exactly one once both credentials are held.
   */
  lemma OneDeliveryEachStartsOnce(result: Option<string>, t: seq<Event>)
    requires Admissible(Initial(result), t) && KeyDeliveries(t) <= 1 && SecretDeliveries(t) <= 1
    ensures var s := Run(Initial(result), t);
      s.initStarts == if Truthy(s.publicKey) && Truthy(s.clientSecret) then 1 else 0
  {
    InitialIsValid(result);
    StartsBoundedByDeliveries(Initial(result), t);
    InvariantHoldsOnEveryRun(Initial(result), t);
  }
}
