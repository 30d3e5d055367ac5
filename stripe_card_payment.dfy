/**
 * The Lightning web component itself: its fields are updated in place. Every method is
 * proved to move the fields exactly as the corresponding function of `PaymentState` says;
 * the constructor and the six event handlers also establish or keep `PaymentState.Invariant`.
 * The inner steps (`TryInitStripe`, `InitStripe`, `Pay`, `RecordConfirmation`, `HandleNext`)
 * do not keep it on their own.
 */
module CardPaymentComponent {
  import opened Wrappers
  import opened PaymentState
  import PaymentProperties

  class StripeCardPayment {
    var publicKey: Option<string>
    var clientSecret: Option<string>
    var initError: Option<string>
    var isLoading: bool
    var stripe: Option<Handle>
    var cardElement: Option<Handle>
    var card: Option<Handle>
    var cardErrors: Option<Handle>
    var errorText: string          // text content of the `.card-errors` element
    var message: Option<string>
    var statusCode: Option<string>
    var result: Option<string>
    var showLoader: bool
    // the runtime around the component
    var initStarts: nat            // how many times `initStripe` has run
    var inFlightInits: nat         // bootstraps whose Stripe.js promise has not settled
    var inFlightPayments: nat      // confirmations whose promise has not settled
    var navigations: nat           // "next" events dispatched to the flow

    /** The abstract value of the component. */
    function Snapshot(): State
      reads this
    {
      State(publicKey, clientSecret, initError, isLoading, stripe, cardElement, card, cardErrors,
            errorText, message, statusCode, result, showLoader,
            initStarts, inFlightInits, inFlightPayments, navigations)
    }

    ghost predicate Valid()
      reads this
    {
      Invariant(Snapshot())
    }

    constructor (hostResult: Option<string>)
      ensures Valid() && Snapshot() == Initial(hostResult)
    {
      publicKey, clientSecret, initError, isLoading := None, None, None, false;
      stripe, cardElement, card, cardErrors := None, None, None, None;
      errorText, message, statusCode, result, showLoader := "", None, None, hostResult, false;
      initStarts, inFlightInits, inFlightPayments, navigations := 0, 0, 0, 0;
    }

    /** Delivery of the publishable key (or of its fetch error). */
    method WiredPublicKey(r: WireResponse)
      requires Valid()
      modifies this
      ensures Valid()
      ensures Snapshot() == PaymentState.WiredPublicKey(old(Snapshot()), r)
    {
      if r.data.Some? && r.data.value != "" {
        publicKey := r.data;
        TryInitStripe();
      } else if r.error {
        initError := Some(PublicKeyFetchError);
        isLoading := false;
      }
      PaymentProperties.StepPreservesInvariant(old(Snapshot()), PublicKeyDelivered(r));
    }

    /** Delivery of the PaymentIntent client secret (or of its creation error). */
    method WiredCreatePaymentIntent(r: WireResponse)
      requires Valid()
      modifies this
      ensures Valid()
      ensures Snapshot() == PaymentState.WiredPaymentIntent(old(Snapshot()), r)
    {
      if r.data.Some? && r.data.value != "" {
        clientSecret := r.data;
        TryInitStripe();
      } else if r.error {
        initError := Some(PaymentIntentFetchError);
        isLoading := false;
      }
      PaymentProperties.StepPreservesInvariant(old(Snapshot()), PaymentIntentDelivered(r));
    }

    method TryInitStripe()
      modifies this
      ensures Snapshot() == TryInit(old(Snapshot()))
    {
      if clientSecret.Some? && clientSecret.value != "" && publicKey.Some? && publicKey.value != ""
         && cardElement.None? {
        InitStripe();
      }
    }

    /** The synchronous start of `initStripe`: the spinner goes up and Stripe.js starts loading. */
    method InitStripe()
      modifies this
      ensures Snapshot() == StartInit(old(Snapshot()))
    {
      isLoading := true;
      initStarts := initStarts + 1;
      inFlightInits := inFlightInits + 1;
    }

    /** The continuation of one pending `initStripe`, given how it ended. */
    method CompleteInitStripe(outcome: InitOutcome)
      requires Valid() && inFlightInits > 0
      modifies this
      ensures Valid()
      ensures Snapshot() == CompleteInit(old(Snapshot()), outcome)
    {
      inFlightInits := inFlightInits - 1;
      match outcome {
      case LoadFailed =>
        initError := Some(ScriptLoadError);
        isLoading := false;
      case TargetMissing =>
        isLoading := false;
      case Mounted(target, client, widget, slot) =>
        stripe := Some(client);
        cardElement := Some(target);
        card := Some(widget);
        cardErrors := slot;
        isLoading := false;
      }
      PaymentProperties.StepPreservesInvariant(old(Snapshot()), InitCompleted(outcome));
    }

    method HandleCardChange(ch: CardChange)
      requires Valid()
      modifies this
      ensures Valid()
      ensures Snapshot() == PaymentState.HandleCardChange(old(Snapshot()), ch)
    {
      if cardErrors.Some? {
        errorText := if ch.error.Some? then ch.error.value else "";
      }
      PaymentProperties.StepPreservesInvariant(old(Snapshot()), CardChanged(ch));
    }

    method HandlePayment()
      requires Valid()
      modifies this
      ensures Valid()
      ensures Snapshot() == RequestPayment(old(Snapshot()))
    {
      showLoader := true;
      Pay();
      PaymentProperties.StepPreservesInvariant(old(Snapshot()), PaymentRequested);
    }

    /** Calls `confirmCardPayment`, which throws when there is no Stripe client. */
    method Pay()
      modifies this
      ensures Snapshot() == old(Snapshot()).(inFlightPayments :=
                old(inFlightPayments) + if old(stripe).Some? then 1 else 0)
    {
      if stripe.Some? {
        inFlightPayments := inFlightPayments + 1;
      }
    }

    /** The continuation chain of one pending confirmation: record the outcome, then navigate. */
    method SettleConfirmation(c: Confirmation)
      requires Valid() && inFlightPayments > 0
      modifies this
      ensures Valid()
      ensures Snapshot() == Settle(old(Snapshot()), c)
    {
      var threw := RecordConfirmation(c);
      if !threw {
        HandleNext();
      }
      PaymentProperties.StepPreservesInvariant(old(Snapshot()), ConfirmationSettled(c));
    }

    /** The first continuation: classify the result; `threw` when the error slot is missing. */
    method RecordConfirmation(c: Confirmation) returns (threw: bool)
      requires inFlightPayments > 0
      modifies this
      ensures threw == ClassificationThrows(old(Snapshot()), c)
      ensures Snapshot() == PaymentState.RecordConfirmation(old(Snapshot()), c)
    {
      inFlightPayments := inFlightPayments - 1;
      showLoader := false;
      threw := false;
      match c {
      case Declined(m) =>
        if cardErrors.None? {
          threw := true;  // writing the text of a missing element throws
          return;
        }
        errorText := m;
        message := Some(MessageError);
        statusCode := Some(m);
      case Intent(status) =>
        if status == "succeeded" || status == "requires_capture" {
          message := Some(MessageSuccess);
          statusCode := Some(StatusOk);
          result := Some(PaymentSuccess);
        } else {
          statusCode := Some(status);
          result := Some(PaymentFailed);
        }
      }
    }

    method HandleNext()
      modifies this
      ensures Snapshot() == Navigate(old(Snapshot()))
    {
      navigations := navigations + 1;
    }
  }
}
