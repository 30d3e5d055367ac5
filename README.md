# Stripe card payment component: a Dafny model

This project models `stripeCardPayment`, a Lightning web component that sits as one
step of a Salesforce flow and takes a card payment through Stripe. The component:

- receives two credentials from Apex wire adapters: the publishable key and the client
  secret of a PaymentIntent;
- starts the Stripe.js bootstrap once both credentials are held and no card element is
  mounted yet;
- mounts the card widget, and shows the widget's validation errors in a `.card-errors`
  element;
- confirms the payment and classifies the result into `message`, `statusCode` and
  `result`;
- dispatches the flow's "next" navigation event.

The model is an event-driven state machine. These are the events:

- `PublicKeyDelivered`: one delivery of the publishable-key wire;
- `PaymentIntentDelivered`: one delivery of the PaymentIntent wire;
- `InitCompleted`: one settlement of the Stripe.js load. Its outcome is that loading
  failed, that the mount target was missing, or that the card was mounted with opaque
  handles;
- `CardChanged`: one card `change` event;
- `PaymentRequested`: one click on the pay button;
- `ConfirmationSettled`: one settlement of `confirmCardPayment`. It carries either an
  error message or a PaymentIntent status.

The project has four modules:

- `PaymentState` (`payment_state.dfy`) holds the component's fields as a `State` value,
  with one pure function per handler.
- `PaymentProperties` (`payment_properties.dfy`) holds the properties of single events and
  of whole event sequences.
- `CardPaymentComponent` (`stripe_card_payment.dfy`) holds the class `StripeCardPayment`.
  Its fields are updated in place, handler by handler. Every method is proved to change the
  fields exactly as the matching `PaymentState` function says. The constructor establishes
  `PaymentState.Invariant`, and the six event handlers (`WiredPublicKey`,
  `WiredCreatePaymentIntent`, `CompleteInitStripe`, `HandleCardChange`, `HandlePayment`,
  `SettleConfirmation`) keep it. The inner steps (`TryInitStripe`, `InitStripe`, `Pay`,
  `RecordConfirmation`, `HandleNext`) are only proved to compute their `PaymentState`
  function; on their own they need not keep the invariant.
- `Wrappers` (`wrappers.dfy`) holds `Option`, which stands for a field that may still be
  `undefined`.

Four counters describe the runtime around the component:

- `initStarts`: how many times `initStripe` has run;
- `inFlightInits`: how many Stripe.js loads are still pending;
- `inFlightPayments`: how many confirmations are still pending;
- `navigations`: how many "next" events have been dispatched.

A completion event is only possible while something of its kind is pending.

JavaScript truthiness is written out. A string field counts as set when it is defined and
non-empty (`Truthy`). A handle counts as set when it is present.

What the code does, where a design-level reading of the component would expect otherwise:

- The bootstrap is not at most once. The gate tests `cardElement`, and only a completed
  mount sets it. A second truthy wire delivery while Stripe.js is still loading therefore
  starts a second bootstrap (`RedeliveryDuringLoadStartsTwice`).
- A missing mount target is not recorded as a failure. It leaves `initError` untouched and
  `cardElement` unset, so the next truthy delivery of either credential starts the bootstrap
  again (`MissingTargetReopensGate`).
- A declined confirmation still navigates to the next flow step.
- A status that is neither `succeeded` nor `requires_capture` leaves `message` at its
  previous value.
- On a declined confirmation the error text is written through `cardErrors`. When the
  `.card-errors` lookup returned nothing, that write throws, and the chain stops before
  `handleNext`. The model keeps this path (`ClassificationThrows`) instead of assuming the
  element is always present.

## Model

| member | source | states |
|---|---|---|
| `PaymentState.Classify` | force-app/main/default/lwc/stripeCardPayment/stripeCardPayment.js:135-147 | Total classification of a confirmation. A declined payment, and only that, writes message 'error' and the error text. 'succeeded' or 'requires_capture', and only these, give 'success', '200' and 'Payment success'. Any other status keeps `message` and gives the status and 'Payment failed'. |
| `PaymentProperties.RecordFollowsClassification` | force-app/main/default/lwc/stripeCardPayment/stripeCardPayment.js:132-149 | When it does not throw, the first continuation writes exactly the fields `Classify` selects, hides the loader, and leaves everything else unchanged. |
| `PaymentProperties.GateStartsIffOpen` | force-app/main/default/lwc/stripeCardPayment/stripeCardPayment.js:55-59 | `tryInitStripe` starts a bootstrap (and raises `isLoading`) if and only if both credentials are truthy and `cardElement` is unset. Otherwise it changes nothing. |
| `PaymentProperties.PublicKeyDeliveryEffect` | force-app/main/default/lwc/stripeCardPayment/stripeCardPayment.js:29-39 | Truthy data sets `publicKey` and then runs the gate, which starts a bootstrap iff the secret is held and no card is mounted. An error sets the key-fetch message, clears `isLoading`, and keeps both credentials. A delivery with neither changes nothing. |
| `PaymentProperties.PaymentIntentDeliveryEffect` | force-app/main/default/lwc/stripeCardPayment/stripeCardPayment.js:41-53 | The same as the key delivery, for `clientSecret`, with the PaymentIntent-creation message. |
| `PaymentProperties.StartsBoundedByDeliveries` | force-app/main/default/lwc/stripeCardPayment/stripeCardPayment.js:29-62 | Over any sequence of events, each truthy credential delivery starts at most one bootstrap. When neither credential is held yet, the first delivery starts none. |
| `PaymentProperties.OneDeliveryEachStartsOnce` | force-app/main/default/lwc/stripeCardPayment/stripeCardPayment.js:29-62 | From a fresh component, in any order and with any other events in between, one truthy delivery of each credential starts exactly one bootstrap once both are held, and none before. |
| `PaymentProperties.EitherOrderStartsOnce` | force-app/main/default/lwc/stripeCardPayment/stripeCardPayment.js:29-59 | From a fresh component, a single credential starts nothing. Key then secret, or secret then key, starts exactly one bootstrap. |
| `PaymentProperties.NoStartWithoutSecret` | force-app/main/default/lwc/stripeCardPayment/stripeCardPayment.js:41-59 | Until a truthy client secret is delivered, no sequence of events starts a bootstrap. |
| `PaymentProperties.NoStartWithoutKey` | force-app/main/default/lwc/stripeCardPayment/stripeCardPayment.js:29-59 | Until a truthy publishable key is delivered, no sequence of events starts a bootstrap. |
| `PaymentProperties.CompletionEffect` | force-app/main/default/lwc/stripeCardPayment/stripeCardPayment.js:66-109 | Every outcome clears `isLoading` and keeps the credentials. A load failure sets the Stripe.js message and leaves `cardElement`, `stripe` and `card` unchanged. A missing target leaves them and `initError` unchanged. A mount sets `cardElement`, `stripe`, `card` and `cardErrors`. |
| `PaymentProperties.MountedClosesGate` | force-app/main/default/lwc/stripeCardPayment/stripeCardPayment.js:55-76 | After a mount the gate is closed, and trying it is a no-op. |
| `PaymentProperties.MountKeepsGateClosed` | force-app/main/default/lwc/stripeCardPayment/stripeCardPayment.js:55-76 | Once a card element is mounted, no sequence of events starts another bootstrap, and the element stays set. |
| `PaymentProperties.MissingTargetReopensGate` | force-app/main/default/lwc/stripeCardPayment/stripeCardPayment.js:66-73 | A missing mount target leaves `cardElement`, `stripe` and `card` as they were. The next truthy key delivery, or the next truthy secret delivery, then starts another bootstrap. |
| `PaymentProperties.RedeliveryDuringLoadStartsTwice` | force-app/main/default/lwc/stripeCardPayment/stripeCardPayment.js:44-62 | Key, secret, then a second secret before Stripe.js has loaded: two bootstraps are started and both are pending. |
| `PaymentProperties.CardChangeEffect` | force-app/main/default/lwc/stripeCardPayment/stripeCardPayment.js:112-116 | With an error slot, its text becomes the event's error message, or '' when there is no error. Without a slot, nothing changes. |
| `PaymentProperties.PaymentRequestEffect` | force-app/main/default/lwc/stripeCardPayment/stripeCardPayment.js:118-126 | A click shows the loader. A confirmation becomes pending exactly when a Stripe client exists. |
| `PaymentProperties.SettlementNavigatesOnce` | force-app/main/default/lwc/stripeCardPayment/stripeCardPayment.js:132-162 | A settled confirmation hides the loader and dispatches exactly one "next" event on every branch, the declined one included. The one exception is a decline met by a missing error slot. |
| `PaymentProperties.SettlementFields` | force-app/main/default/lwc/stripeCardPayment/stripeCardPayment.js:132-149 | The values left behind by each branch. Declined: 'error', the message as status code and as error text, `result` unchanged. Success: 'success', '200', 'Payment success'. Other status: `message` unchanged, the status, 'Payment failed'. |
| `PaymentProperties.NavigationsBoundedByRequests` | force-app/main/default/lwc/stripeCardPayment/stripeCardPayment.js:118-162 | Over any sequence of events, navigations plus pending confirmations never exceed the number of pay clicks. |
| `PaymentProperties.StepPreservesInvariant` | force-app/main/default/lwc/stripeCardPayment/stripeCardPayment.js:29-153 | Every handler keeps the invariant. Some bootstrap has started exactly when both credentials are held. `stripe`, `cardElement` and `card` are set together. A pending confirmation or a navigation implies a Stripe client. |
| `PaymentProperties.InvariantHoldsOnEveryRun` | force-app/main/default/lwc/stripeCardPayment/stripeCardPayment.js:29-153 | The invariant holds after any admissible sequence of events. |
| `PaymentProperties.InitialIsValid` | force-app/main/default/lwc/stripeCardPayment/stripeCardPayment.js:9-26 | A fresh component satisfies the invariant, and its gate is closed. |
| `CardPaymentComponent.StripeCardPayment.constructor` | force-app/main/default/lwc/stripeCardPayment/stripeCardPayment.js:9-26 | All fields start unset or false, except `result`, which the host supplies. |
| `CardPaymentComponent.StripeCardPayment.WiredPublicKey` | force-app/main/default/lwc/stripeCardPayment/stripeCardPayment.js:29-39 | The handler updates the fields as `PaymentState.WiredPublicKey` does, and keeps the invariant. |
| `CardPaymentComponent.StripeCardPayment.WiredCreatePaymentIntent` | force-app/main/default/lwc/stripeCardPayment/stripeCardPayment.js:41-53 | The handler updates the fields as `PaymentState.WiredPaymentIntent` does, and keeps the invariant. |
| `CardPaymentComponent.StripeCardPayment.TryInitStripe` | force-app/main/default/lwc/stripeCardPayment/stripeCardPayment.js:55-59 | The new state is `TryInit` of the old one. |
| `CardPaymentComponent.StripeCardPayment.InitStripe` | force-app/main/default/lwc/stripeCardPayment/stripeCardPayment.js:61-65 | The synchronous start sets `isLoading` and adds one started bootstrap and one pending bootstrap. |
| `CardPaymentComponent.StripeCardPayment.CompleteInitStripe` | force-app/main/default/lwc/stripeCardPayment/stripeCardPayment.js:66-109 | The continuation updates the fields as `CompleteInit` does for the given outcome, and keeps the invariant. |
| `CardPaymentComponent.StripeCardPayment.HandleCardChange` | force-app/main/default/lwc/stripeCardPayment/stripeCardPayment.js:112-116 | The handler updates the error text as `PaymentState.HandleCardChange` does. |
| `CardPaymentComponent.StripeCardPayment.HandlePayment` | force-app/main/default/lwc/stripeCardPayment/stripeCardPayment.js:118-121 | The new state is `RequestPayment` of the old one. |
| `CardPaymentComponent.StripeCardPayment.Pay` | force-app/main/default/lwc/stripeCardPayment/stripeCardPayment.js:123-131 | A confirmation becomes pending only when a Stripe client exists. Nothing else changes. |
| `CardPaymentComponent.StripeCardPayment.RecordConfirmation` | force-app/main/default/lwc/stripeCardPayment/stripeCardPayment.js:132-149 | The first continuation, as `PaymentState.RecordConfirmation`. It reports that it threw exactly when a decline meets a missing error slot. |
| `CardPaymentComponent.StripeCardPayment.SettleConfirmation` | force-app/main/default/lwc/stripeCardPayment/stripeCardPayment.js:132-153 | The whole chain is `Settle`: record the outcome, then navigate unless the record step threw. It keeps the invariant. |
| `CardPaymentComponent.StripeCardPayment.HandleNext` | force-app/main/default/lwc/stripeCardPayment/stripeCardPayment.js:159-162 | Exactly one navigation event is added. |

## Left out

- `loadScript`, `window.Stripe`, `elements().create`, `mount` and `card.on` are foreign SDK and DOM calls. They appear only as the `InitOutcome` of a completion and as opaque `Handle`s.
- An exception thrown by an SDK call after the target check is not modelled; the model has only the three outcomes load failure, missing target and mounted. Such an exception reaches the `catch` (which sets the Stripe.js message and clears `isLoading`) with a partial state:
  - if `window.Stripe` throws (line 75), nothing has been written;
  - if `elements()` or `create` throws (lines 96-97), `stripe` and `cardElement` are set and `card` is not;
  - if `mount` throws (line 98), `stripe`, `cardElement` and `card` are set and `cardErrors` is not.
  In the last two cases the gate stays closed for good. The invariant's clauses that `stripe`, `cardElement` and `card` are set together hold only because these paths are left out.
- `template.querySelector` is a DOM lookup. It is modelled as the outcome's target, and as the optional `errorSlot` handle.
- The card style object at lines 78-93 is opaque SDK configuration and is never interpreted.
- `amount` only parameterises the Apex wire. Its effect is the PaymentIntent delivery itself.
- The `@wire` transport and promise scheduling are not modelled directly. Each wire delivery and each promise settlement is an event, applied in any order the counters admit.
- `console.error`, `event.preventDefault` and the `FlowNavigationNextEvent`/`dispatchEvent` mechanics are left out. Navigation is counted in `navigations`.
- The arguments `pay` passes to `confirmCardPayment` (the client secret, the card, `setup_future_usage`) are left out. They go to the SDK and do not affect the component's state.
- A confirmation result that has neither `error` nor `paymentIntent` is not modelled. The SDK's contract rules it out.
- The number of `change` listeners (one per mounted card) is not tracked. Any card change is one `CardChanged` event.
- `showModal` and `closeModal` only reset a flag.
- `paymentConfirmationModal.js` is not part of this model. It is a presentational shell with no logic.
