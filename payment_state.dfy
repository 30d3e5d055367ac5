/**
 * The state of the card-payment component and the effect of every event it reacts to,
 * as pure functions. The component is event driven: two wire deliveries (the publishable
 * key and the PaymentIntent client secret), the completion of the Stripe.js bootstrap,
 * card-change notifications from the mounted widget, a click on the pay button and the
 * settlement of the confirmation promise. The browser, the Apex backend and the Stripe
 * SDK appear only as the payloads of these events and as opaque handles.
 */
module PaymentState {
  import opened Wrappers

  /** An opaque reference to a DOM element or an SDK object (always truthy when present). */
  type Handle = nat

  const PublicKeyFetchError: string := "Erreur récupération clé publique Stripe"
  const PaymentIntentFetchError: string := "Erreur création PaymentIntent Stripe"
  const ScriptLoadError: string := "Erreur lors du chargement de Stripe.js"

  const MessageError: string := "error"
  const MessageSuccess: string := "success"
  const StatusOk: string := "200"
  const PaymentSuccess: string := "Payment success"
  const PaymentFailed: string := "Payment failed"

  /** The `{ data, error }` record a wire adapter hands to its handler. */
  datatype WireResponse = WireResponse(data: Option<string>, error: bool)

  /** How the asynchronous part of `initStripe` ends. */
  datatype InitOutcome =
    | LoadFailed                  // loadScript rejected
    | TargetMissing               // no `.card-element` in the template
    | Mounted(target: Handle, stripe: Handle, card: Handle, errorSlot: Option<Handle>)
                                  // client built, card created and mounted on `target`;
                                  // `errorSlot` is what the `.card-errors` lookup returned

  /** A `change` event of the card widget: the message of its `error`, when it has one. */
  datatype CardChange = CardChange(error: Option<string>)

  /** What `confirmCardPayment` resolves to. */
  datatype Confirmation =
    | Declined(errorMessage: string)   // `result.error` is set
    | Intent(status: string)           // `result.paymentIntent.status`

  datatype Event =
    | PublicKeyDelivered(response: WireResponse)
    | PaymentIntentDelivered(response: WireResponse)
    | InitCompleted(outcome: InitOutcome)
    | CardChanged(change: CardChange)
    | PaymentRequested
    | ConfirmationSettled(confirmation: Confirmation)

  /**
   * The component's fields. `errorText` is the text content of the `.card-errors` element.
   * The last four fields describe the runtime around the component: how many times
   * `initStripe` has started, how many of those bootstraps and how many confirmations are
   * still pending, and how many flow-navigation "next" events were dispatched.
   */
  datatype State = State(
    publicKey: Option<string>,
    clientSecret: Option<string>,
    initError: Option<string>,
    isLoading: bool,
    stripe: Option<Handle>,
    cardElement: Option<Handle>,
    card: Option<Handle>,
    cardErrors: Option<Handle>,
    errorText: string,
    message: Option<string>,
    statusCode: Option<string>,
    result: Option<string>,
    showLoader: bool,
    initStarts: nat,
    inFlightInits: nat,
    inFlightPayments: nat,
    navigations: nat)

  /** A freshly created component; `result` is the value the host flow passed in. */
  function Initial(result: Option<string>): State {
    State(None, None, None, false, None, None, None, None, "", None, None, result, false, 0, 0, 0, 0)
  }

  /** JavaScript truthiness of a string field: defined and non-empty. */
  predicate Truthy(s: Option<string>) {
    s.Some? && s.value != ""
  }

  /** The condition `tryInitStripe` tests before calling `initStripe`. */
  predicate GateOpen(s: State) {
    Truthy(s.clientSecret) && Truthy(s.publicKey) && s.cardElement.None?
  }

  /** The synchronous part of `initStripe`: raise the spinner and start loading Stripe.js. */
  function StartInit(s: State): State {
    s.(isLoading := true, initStarts := s.initStarts + 1, inFlightInits := s.inFlightInits + 1)
  }

  function TryInit(s: State): State {
    if GateOpen(s) then StartInit(s) else s
  }

  function WiredPublicKey(s: State, r: WireResponse): State {
    if Truthy(r.data) then TryInit(s.(publicKey := r.data))
    else if r.error then s.(initError := Some(PublicKeyFetchError), isLoading := false)
    else s
  }

  function WiredPaymentIntent(s: State, r: WireResponse): State {
    if Truthy(r.data) then TryInit(s.(clientSecret := r.data))
    else if r.error then s.(initError := Some(PaymentIntentFetchError), isLoading := false)
    else s
  }

  /** The `then`/`catch` continuation of `initStripe`, for one pending bootstrap. */
  function CompleteInit(s: State, o: InitOutcome): State
    requires s.inFlightInits > 0
  {
    var s0 := s.(inFlightInits := s.inFlightInits - 1, isLoading := false);
    match o
    case LoadFailed => s0.(initError := Some(ScriptLoadError))
    case TargetMissing => s0
    case Mounted(target, stripe, card, slot) =>
      s0.(stripe := Some(stripe), cardElement := Some(target), card := Some(card), cardErrors := slot)
  }

  function HandleCardChange(s: State, ch: CardChange): State {
    if s.cardErrors.None? then s
    else s.(errorText := match ch.error case Some(m) => m case None => "")
  }

  /**
   * `handlePayment`: the loader is shown, then `pay` calls `this.stripe.confirmCardPayment`.
   * Without a Stripe client that call throws, so no confirmation is pending afterwards.
   */
  function RequestPayment(s: State): State {
    var s1 := s.(showLoader := true);
    if s1.stripe.None? then s1 else s1.(inFlightPayments := s1.inFlightPayments + 1)
  }

  /** The statuses `pay` treats as a successful payment. */
  predicate IsSuccessStatus(status: string) {
    status == "succeeded" || status == "requires_capture"
  }

  /**
   * The field writes a confirmation result causes; `None` leaves the field as it was.
   * `statusCode` is written on every branch.
   */
  datatype Settlement = Settlement(
    errorText: Option<string>, message: Option<string>, statusCode: string, result: Option<string>)

  /** The classification `pay` applies to a confirmation result. */
  function Classify(c: Confirmation): (r: Settlement)
    ensures r.errorText.Some? <==> c.Declined?
    ensures r.result.None? <==> c.Declined?
    ensures r.message == Some(MessageError) <==> c.Declined?
    ensures r.message == Some(MessageSuccess) <==> c.Intent? && IsSuccessStatus(c.status)
    ensures r.result == Some(PaymentSuccess) <==> c.Intent? && IsSuccessStatus(c.status)
    ensures r.message.None? <==> c.Intent? && !IsSuccessStatus(c.status)
    ensures r.result == Some(PaymentFailed) <==> c.Intent? && !IsSuccessStatus(c.status)
    ensures c.Declined? ==> r.errorText == Some(c.errorMessage) && r.statusCode == c.errorMessage
    ensures c.Intent? && IsSuccessStatus(c.status) ==> r.statusCode == StatusOk
    ensures c.Intent? && !IsSuccessStatus(c.status) ==> r.statusCode == c.status
  {
    match c
    case Declined(m) => Settlement(Some(m), Some(MessageError), m, None)
    case Intent(status) =>
      if IsSuccessStatus(status) then Settlement(None, Some(MessageSuccess), StatusOk, Some(PaymentSuccess))
      else Settlement(None, None, status, Some(PaymentFailed))
  }

  function Overwrite(current: string, w: Option<string>): string {
    match w case Some(v) => v case None => current
  }

  function OverwriteOpt(current: Option<string>, w: Option<string>): Option<string> {
    if w.Some? then w else current
  }

  /** `handleNext`: one flow-navigation "next" event. */
  function Navigate(s: State): State {
    s.(navigations := s.navigations + 1)
  }

  /**
   * On a declined payment `pay` writes the error text through `this.cardErrors`; when that
   * lookup found nothing the write throws and the rest of the promise chain is skipped.
   */
  predicate ClassificationThrows(s: State, c: Confirmation) {
    c.Declined? && s.cardErrors.None?
  }

  /** The first continuation of `confirmCardPayment`: hide the loader and record the outcome. */
  function RecordConfirmation(s: State, c: Confirmation): State
    requires s.inFlightPayments > 0
  {
    var s1 := s.(showLoader := false, inFlightPayments := s.inFlightPayments - 1);
    match c
    case Declined(m) =>
      if s1.cardErrors.None? then s1
      else s1.(errorText := m, message := Some(MessageError), statusCode := Some(m))
    case Intent(status) =>
      if IsSuccessStatus(status) then
        s1.(message := Some(MessageSuccess), statusCode := Some(StatusOk), result := Some(PaymentSuccess))
      else
        s1.(statusCode := Some(status), result := Some(PaymentFailed))
  }

  /** The whole chain: record the outcome, then (unless that threw) `handleNext`. */
  function Settle(s: State, c: Confirmation): State
    requires s.inFlightPayments > 0
  {
    var s1 := RecordConfirmation(s, c);
    if ClassificationThrows(s, c) then s1 else Navigate(s1)
  }

  /** A completion can only happen for something that is pending. */
  predicate Enabled(s: State, e: Event) {
    match e
    case InitCompleted(_) => s.inFlightInits > 0
    case ConfirmationSettled(_) => s.inFlightPayments > 0
    case _ => true
  }

  function Step(s: State, e: Event): State
    requires Enabled(s, e)
  {
    match e
    case PublicKeyDelivered(r) => WiredPublicKey(s, r)
    case PaymentIntentDelivered(r) => WiredPaymentIntent(s, r)
    case InitCompleted(o) => CompleteInit(s, o)
    case CardChanged(ch) => HandleCardChange(s, ch)
    case PaymentRequested => RequestPayment(s)
    case ConfirmationSettled(c) => Settle(s, c)
  }

  /** Every event of `t`, applied in order from `s`, is enabled when it occurs. */
  predicate Admissible(s: State, t: seq<Event>)
    decreases |t|
  {
    t == [] || (Enabled(s, t[0]) && Admissible(Step(s, t[0]), t[1..]))
  }

  function Run(s: State, t: seq<Event>): State
    requires Admissible(s, t)
    decreases |t|
  {
    if t == [] then s else Run(Step(s, t[0]), t[1..])
  }

  /** Facts that hold in every state reachable from `Initial`. */
  predicate Invariant(s: State) {
    && (s.initStarts > 0 <==> Truthy(s.publicKey) && Truthy(s.clientSecret))
    && s.inFlightInits <= s.initStarts
    && (s.isLoading ==> s.initStarts > 0)
    && (s.cardElement.Some? <==> s.stripe.Some?)
    && (s.cardElement.Some? <==> s.card.Some?)
    && (s.cardElement.Some? ==> s.initStarts > 0)
    && (s.inFlightPayments > 0 || s.navigations > 0 ==> s.stripe.Some?)
  }
}
