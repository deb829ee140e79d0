/**
 * The ticket purchase dialog of src/components/BuyTicketDialog.tsx.
 *
 * `handleBuyTicket` checks the wallet, parses the typed number with
 * `parseInt` and checks it is in 0..999999. Then, with the `isEncrypting`
 * flag raised, it awaits in turn:
 *  - the gateway's initialization;
 *  - the encryption of the number;
 *  - the ticket purchase.
 * The first failure raises one error toast and skips the rest; `finally`
 * lowers the flag. `PurchaseSpec` gives the whole attempt as a value and
 * `AttemptEvents` the toasts, flag changes and calls it makes, in order.
 * The class `Dialog` holds the component state. It runs an attempt one await
 * at a time: its `suspended` field says where the attempt is waiting, so
 * `handleClose` and the input can be driven between the steps.
 */
module BuyTicket {

  import opened Wrappers
  import opened Ecma
  import Fhe
  import Hex

  /** The largest lottery number the dialog accepts. */
  const MaxLotteryNumber: int := 999999

  /** The number check of handleBuyTicket (line 41): not NaN, and within 0..999999. */
  predicate ValidLotteryNumber(n: JsNumber) {
    n.Int? && 0 <= n.i <= MaxLotteryNumber
  }

  /** `isConnected && address`: a connected wallet with an address (undefined and "" are falsy). */
  predicate HasAccount(isConnected: bool, address: Option<string>) {
    isConnected && address.Some? && address.value != ""
  }

  datatype ToastKind = ToastInfo | ToastSuccess | ToastError

  /** What a toast says. */
  datatype Notice =
    | ConnectWallet
    | InvalidNumber
    | Initializing
    | EncryptingNumber
    | NumberEncrypted
    | TransactionSubmitted
    | BuyFailed(message: string)

  function NoticeText(n: Notice): string {
    match n
    case ConnectWallet => "Please connect your wallet"
    case InvalidNumber => "Please enter a valid lottery number (0-999999)"
    case Initializing => "Initializing FHE encryption..."
    case EncryptingNumber => "Encrypting your lottery number... \U{1F512}"
    case NumberEncrypted => "Number encrypted! Submitting transaction..."
    case TransactionSubmitted => "Transaction submitted! Waiting for confirmation..."
    case BuyFailed(message) => "Failed to buy ticket: " + message
  }

  /** The error toast of a failed attempt shows a fixed prefix and then the error's own message. */
  lemma FailureToastCarriesMessage(message: string)
    ensures var text := NoticeText(BuyFailed(message));
      |text| == 22 + |message| && text[..22] == "Failed to buy ticket: " && text[22..] == message
  {
  }

  /** What the dialog does that can be seen from outside: toasts, flag changes, calls it makes. */
  datatype Event =
    | Toast(kind: ToastKind, notice: Notice)
    | EncryptingSet(on: bool)
    | CalledInitialize
    | CalledEncrypt(value: nat, contract: string, user: string)
    | CalledBuyTicket(roundId: nat, handle: string, proof: string)
    | CalledOnClose

  /** How one purchase attempt ended, with what it had read and computed by then. */
  datatype Attempt =
    | NotConnected
    | RejectedNumber
    | InitializeFailed(number: nat, user: string, error: Fhe.FheError)
    | EncryptFailed(number: nat, user: string, error: Fhe.FheError)
    | SubmitFailed(number: nat, user: string, payload: Fhe.Payload, reason: string)
    | Submitted(number: nat, user: string, payload: Fhe.Payload)

  /** An attempt, and what it left in the gateway. */
  datatype Purchase = Purchase(attempt: Attempt, gateway: Fhe.GatewayState, gatewayCalls: seq<Fhe.BackendCall>)

  /** handleBuyTicket (lines 34-74) as a value. `submitted` is how the awaited `buyTicket` settled. */
  function PurchaseSpec(gs: Fhe.GatewayState, text: string, isConnected: bool, address: Option<string>,
                        initEnv: Fhe.Env, encryptEnv: Fhe.Env, submitted: Result<(), string>, contract: string): Purchase
  {
    if !HasAccount(isConnected, address) then Purchase(NotConnected, gs, [])
    else
      var n := ParseInt(text);
      if !ValidLotteryNumber(n) then Purchase(RejectedNumber, gs, [])
      else ContinueSpec(gs, n.i as nat, address.value, initEnv, encryptEnv, submitted, contract)
  }

  /** handleBuyTicket after validation (lines 46-73): initialize, then encrypt and submit. */
  function ContinueSpec(gs: Fhe.GatewayState, number: nat, user: string,
                        initEnv: Fhe.Env, encryptEnv: Fhe.Env, submitted: Result<(), string>, contract: string): Purchase
  {
    var init := Fhe.InitializeSpec(gs, initEnv, None);
    if init.result.Failure? then Purchase(InitializeFailed(number, user, init.result.error), init.state, init.calls)
    else
      var rest := EncryptAndSubmitSpec(init.state, number, user, encryptEnv, submitted, contract);
      Purchase(rest.attempt, rest.gateway, init.calls + rest.gatewayCalls)
  }

  /** handleBuyTicket once initializeFHE has resolved (lines 56-73). */
  function EncryptAndSubmitSpec(gs: Fhe.GatewayState, number: nat, user: string,
                                encryptEnv: Fhe.Env, submitted: Result<(), string>, contract: string): Purchase
  {
    var enc := Fhe.EncryptUint32Spec(gs, encryptEnv, Int(number), contract, user);
    if enc.result.Failure? then Purchase(EncryptFailed(number, user, enc.result.error), enc.state, enc.calls)
    else
      match submitted
      case Failure(why) => Purchase(SubmitFailed(number, user, enc.result.value, why), enc.state, enc.calls)
      case Success(_) => Purchase(Submitted(number, user, enc.result.value), enc.state, enc.calls)
  }

  lemma AppendAssoc<T>(a: seq<T>, b: seq<T>, c: seq<T>)
    ensures a + b + c == a + (b + c)
  {
  }

  /** The flag goes up, the first toast, and initializeFHE is called. */
  function Started(): seq<Event> {
    [EncryptingSet(true), Toast(ToastInfo, Initializing), CalledInitialize]
  }

  /** Initialization is done; the number is handed to encryptUint32. */
  function EncryptStarted(number: nat, user: string, contract: string): seq<Event> {
    [Toast(ToastInfo, EncryptingNumber), CalledEncrypt(number, contract, user)]
  }

  /** Encryption is done; the payload is handed to buyTicket. */
  function SubmitStarted(roundId: nat, payload: Fhe.Payload): seq<Event> {
    [Toast(ToastSuccess, NumberEncrypted), CalledBuyTicket(roundId, payload.handle, payload.proof)]
  }

  /** The catch and the finally: one error toast, then the flag goes down. */
  function Aborted(message: string): seq<Event> {
    [Toast(ToastError, BuyFailed(message)), EncryptingSet(false)]
  }

  /** The last toast of a successful attempt, then the flag goes down. */
  function Finished(): seq<Event> {
    [Toast(ToastInfo, TransactionSubmitted), EncryptingSet(false)]
  }

  /** Everything an attempt shows and calls, in order. */
  function AttemptEvents(a: Attempt, roundId: nat, contract: string): seq<Event> {
    match a
    case NotConnected => [Toast(ToastError, ConnectWallet)]
    case RejectedNumber => [Toast(ToastError, InvalidNumber)]
    case _ => Started() + ProgressEvents(a, roundId, contract)
  }

  /** What an attempt past validation shows and calls once initializeFHE has been called. */
  function ProgressEvents(a: Attempt, roundId: nat, contract: string): seq<Event> {
    match a
    case NotConnected => []
    case RejectedNumber => []
    case InitializeFailed(_, _, e) => Aborted(Fhe.ErrorMessage(e))
    case _ => EncryptStarted(a.number, a.user, contract) + SubmitEvents(a, roundId)
  }

  /** What an attempt shows and calls once encryptUint32 has been called. */
  function SubmitEvents(a: Attempt, roundId: nat): seq<Event> {
    match a
    case EncryptFailed(_, _, e) => Aborted(Fhe.ErrorMessage(e))
    case SubmitFailed(_, _, p, why) => SubmitStarted(roundId, p) + Aborted(why)
    case Submitted(_, _, p) => SubmitStarted(roundId, p) + Finished()
    case _ => []
  }

  predicate IsErrorToast(e: Event) {
    e.Toast? && e.kind == ToastError
  }

  predicate IsCall(e: Event) {
    e.CalledInitialize? || e.CalledEncrypt? || e.CalledBuyTicket?
  }

  /** How many error toasts `events` shows. */
  function ErrorToasts(events: seq<Event>): nat {
    if events == [] then 0
    else ErrorToasts(events[..|events| - 1]) + (if IsErrorToast(events[|events| - 1]) then 1 else 0)
  }

  /** The calls among `events`, in order. */
  function Calls(events: seq<Event>): seq<Event> {
    if events == [] then []
    else Calls(events[..|events| - 1]) + (if IsCall(events[|events| - 1]) then [events[|events| - 1]] else [])
  }

  lemma {:induction false} ErrorToastsAppend(a: seq<Event>, b: seq<Event>)
    ensures ErrorToasts(a + b) == ErrorToasts(a) + ErrorToasts(b)
  {
    if b == [] {
      assert a + b == a;
    } else {
      assert (a + b)[..|a + b| - 1] == a + b[..|b| - 1];
      ErrorToastsAppend(a, b[..|b| - 1]);
    }
  }

  lemma {:induction false} CallsAppend(a: seq<Event>, b: seq<Event>)
    ensures Calls(a + b) == Calls(a) + Calls(b)
  {
    if b == [] {
      assert a + b == a;
    } else {
      assert (a + b)[..|a + b| - 1] == a + b[..|b| - 1];
      CallsAppend(a, b[..|b| - 1]);
    }
  }

  lemma PieceCounts(number: nat, user: string, contract: string, roundId: nat, payload: Fhe.Payload, message: string)
    ensures ErrorToasts(Started()) == 0 && Calls(Started()) == [CalledInitialize]
    ensures ErrorToasts(EncryptStarted(number, user, contract)) == 0
         && Calls(EncryptStarted(number, user, contract)) == [CalledEncrypt(number, contract, user)]
    ensures ErrorToasts(SubmitStarted(roundId, payload)) == 0
         && Calls(SubmitStarted(roundId, payload)) == [CalledBuyTicket(roundId, payload.handle, payload.proof)]
    ensures ErrorToasts(Aborted(message)) == 1 && Calls(Aborted(message)) == []
    ensures ErrorToasts(Finished()) == 0 && Calls(Finished()) == []
  {
    assert Started()[..2][..1] == [EncryptingSet(true)];
    assert Started()[..2] == [EncryptingSet(true), Toast(ToastInfo, Initializing)];
    assert EncryptStarted(number, user, contract)[..1] == [Toast(ToastInfo, EncryptingNumber)];
    assert SubmitStarted(roundId, payload)[..1] == [Toast(ToastSuccess, NumberEncrypted)];
    assert Aborted(message)[..1] == [Toast(ToastError, BuyFailed(message))];
    assert Finished()[..1] == [Toast(ToastInfo, TransactionSubmitted)];
  }

  /** The error toasts of the part of an attempt after initializeFHE is called. */
  lemma ProgressErrorToasts(a: Attempt, roundId: nat, contract: string)
    requires !a.NotConnected? && !a.RejectedNumber?
    ensures ErrorToasts(ProgressEvents(a, roundId, contract)) == if a.Submitted? then 0 else 1
  {
    match a
    case InitializeFailed(_, _, e) =>
      PieceCounts(0, "", contract, roundId, Fhe.Payload("", ""), Fhe.ErrorMessage(e));
    case EncryptFailed(n, u, e) =>
      PieceCounts(n, u, contract, roundId, Fhe.Payload("", ""), Fhe.ErrorMessage(e));
      ErrorToastsAppend(EncryptStarted(n, u, contract), Aborted(Fhe.ErrorMessage(e)));
    case SubmitFailed(n, u, p, why) =>
      PieceCounts(n, u, contract, roundId, p, why);
      ErrorToastsAppend(SubmitStarted(roundId, p), Aborted(why));
      ErrorToastsAppend(EncryptStarted(n, u, contract), SubmitStarted(roundId, p) + Aborted(why));
    case Submitted(n, u, p) =>
      PieceCounts(n, u, contract, roundId, p, "");
      ErrorToastsAppend(SubmitStarted(roundId, p), Finished());
      ErrorToastsAppend(EncryptStarted(n, u, contract), SubmitStarted(roundId, p) + Finished());
  }

  /** The calls of the part of an attempt after initializeFHE is called. */
  lemma ProgressCalls(a: Attempt, roundId: nat, contract: string)
    requires !a.NotConnected? && !a.RejectedNumber?
    ensures Calls(ProgressEvents(a, roundId, contract)) == match a
      case NotConnected => []
      case RejectedNumber => []
      case InitializeFailed(_, _, _) => []
      case EncryptFailed(n, u, _) => [CalledEncrypt(n, contract, u)]
      case SubmitFailed(n, u, p, _) => [CalledEncrypt(n, contract, u), CalledBuyTicket(roundId, p.handle, p.proof)]
      case Submitted(n, u, p) => [CalledEncrypt(n, contract, u), CalledBuyTicket(roundId, p.handle, p.proof)]
  {
    match a
    case InitializeFailed(_, _, e) =>
      PieceCounts(0, "", contract, roundId, Fhe.Payload("", ""), Fhe.ErrorMessage(e));
    case EncryptFailed(n, u, e) =>
      PieceCounts(n, u, contract, roundId, Fhe.Payload("", ""), Fhe.ErrorMessage(e));
      CallsAppend(EncryptStarted(n, u, contract), Aborted(Fhe.ErrorMessage(e)));
    case SubmitFailed(n, u, p, why) =>
      PieceCounts(n, u, contract, roundId, p, why);
      CallsAppend(SubmitStarted(roundId, p), Aborted(why));
      CallsAppend(EncryptStarted(n, u, contract), SubmitStarted(roundId, p) + Aborted(why));
    case Submitted(n, u, p) =>
      PieceCounts(n, u, contract, roundId, p, "");
      CallsAppend(SubmitStarted(roundId, p), Finished());
      CallsAppend(EncryptStarted(n, u, contract), SubmitStarted(roundId, p) + Finished());
  }

  /** Every attempt that fails, for whatever reason, shows exactly one error toast; a successful one shows none. */
  lemma ExactlyOneErrorToast(a: Attempt, roundId: nat, contract: string)
    ensures ErrorToasts(AttemptEvents(a, roundId, contract)) == if a.Submitted? then 0 else 1
  {
    if a.NotConnected? {
      assert [Toast(ToastError, ConnectWallet)][..0] == [];
    } else if a.RejectedNumber? {
      assert [Toast(ToastError, InvalidNumber)][..0] == [];
    } else {
      PieceCounts(0, "", contract, roundId, Fhe.Payload("", ""), "");
      ProgressErrorToasts(a, roundId, contract);
      ErrorToastsAppend(Started(), ProgressEvents(a, roundId, contract));
    }
  }

  /** The calls run strictly in the order initializeFHE, encryptUint32(number, contract, address),
      buyTicket(roundId, handle, proof); a failure at one call skips all later ones. */
  lemma CallsInOrder(a: Attempt, roundId: nat, contract: string)
    ensures var calls := Calls(AttemptEvents(a, roundId, contract));
      match a
      case NotConnected => calls == []
      case RejectedNumber => calls == []
      case InitializeFailed(_, _, _) => calls == [CalledInitialize]
      case EncryptFailed(n, u, _) => calls == [CalledInitialize, CalledEncrypt(n, contract, u)]
      case SubmitFailed(n, u, p, _) =>
        calls == [CalledInitialize, CalledEncrypt(n, contract, u), CalledBuyTicket(roundId, p.handle, p.proof)]
      case Submitted(n, u, p) =>
        calls == [CalledInitialize, CalledEncrypt(n, contract, u), CalledBuyTicket(roundId, p.handle, p.proof)]
  {
    if a.NotConnected? {
      assert [Toast(ToastError, ConnectWallet)][..0] == [];
    } else if a.RejectedNumber? {
      assert [Toast(ToastError, InvalidNumber)][..0] == [];
    } else {
      StartedThenProgressCalls(a, roundId, contract);
      ProgressCalls(a, roundId, contract);
    }
  }

  /** Past validation, the calls of an attempt are initializeFHE followed by the calls after it. */
  lemma StartedThenProgressCalls(a: Attempt, roundId: nat, contract: string)
    requires !a.NotConnected? && !a.RejectedNumber?
    ensures Calls(AttemptEvents(a, roundId, contract)) == [CalledInitialize] + Calls(ProgressEvents(a, roundId, contract))
  {
    PieceCounts(0, "", contract, roundId, Fhe.Payload("", ""), "");
    CallsAppend(Started(), ProgressEvents(a, roundId, contract));
  }

  /** The busy flag brackets the attempt: once validation passes it is raised first and lowered last,
      on success and on failure, and nothing else touches it in between; an attempt stopped by
      validation never raises it. */
  lemma BusyFlagBracketsAttempt(a: Attempt, roundId: nat, contract: string)
    ensures var e := AttemptEvents(a, roundId, contract);
      if a.NotConnected? || a.RejectedNumber? then
        forall k :: 0 <= k < |e| ==> !e[k].EncryptingSet?
      else
        |e| >= 2 && e[0] == EncryptingSet(true) && e[|e| - 1] == EncryptingSet(false)
        && forall k :: 0 < k < |e| - 1 ==> !e[k].EncryptingSet?
  {
  }

  /** The attempt stops before the gateway exactly when there is no account or the number is invalid;
      then the gateway is untouched. */
  lemma StopsBeforeGateway(gs: Fhe.GatewayState, text: string, isConnected: bool, address: Option<string>,
                           initEnv: Fhe.Env, encryptEnv: Fhe.Env, submitted: Result<(), string>, contract: string)
    ensures var p := PurchaseSpec(gs, text, isConnected, address, initEnv, encryptEnv, submitted, contract);
      (p.attempt == NotConnected <==> !HasAccount(isConnected, address))
      && (p.attempt == RejectedNumber <==> HasAccount(isConnected, address) && !ValidLotteryNumber(ParseInt(text)))
      && (p.attempt.NotConnected? || p.attempt.RejectedNumber? ==> p.gateway == gs && p.gatewayCalls == [])
  {
  }

  /** Every number the dialog accepts is in the uint32 range. */
  lemma ValidNumberIsUint32(n: JsNumber)
    requires ValidLotteryNumber(n)
    ensures !Fhe.OutOfUint32Range(n)
  {
  }

  /** Every attempt past validation works on the parsed number and the account's address; in
      particular the gateway's range error cannot arise on this path. */
  lemma PurchaseUsesParsedNumber(gs: Fhe.GatewayState, text: string, isConnected: bool, address: Option<string>,
                                 initEnv: Fhe.Env, encryptEnv: Fhe.Env, submitted: Result<(), string>, contract: string)
    ensures var a := PurchaseSpec(gs, text, isConnected, address, initEnv, encryptEnv, submitted, contract).attempt;
      (!a.NotConnected? && !a.RejectedNumber? ==>
        ParseInt(text) == Int(a.number) && a.number <= MaxLotteryNumber && address == Some(a.user))
      && (a.EncryptFailed? ==> a.error != Fhe.OutOfRange)
  {
    if HasAccount(isConnected, address) && ValidLotteryNumber(ParseInt(text)) {
      ValidNumberIsUint32(ParseInt(text));
    }
  }

  /** A submitted ticket carries the hex of the first handle and of the proof that the encryption of the
      parsed number returned, for the checksummed contract and user addresses. */
  lemma SubmittedPayload(gs: Fhe.GatewayState, text: string, isConnected: bool, address: Option<string>,
                         initEnv: Fhe.Env, encryptEnv: Fhe.Env, submitted: Result<(), string>, contract: string)
    requires PurchaseSpec(gs, text, isConnected, address, initEnv, encryptEnv, submitted, contract).attempt.Submitted?
    ensures var p := PurchaseSpec(gs, text, isConnected, address, initEnv, encryptEnv, submitted, contract);
      var a := p.attempt;
      p.gateway.instance.Some?
      && encryptEnv.getAddress(contract).Success? && encryptEnv.getAddress(a.user).Success?
      && var out := encryptEnv.encrypt(p.gateway.instance.value, encryptEnv.getAddress(contract).value,
                                       encryptEnv.getAddress(a.user).value, Int(a.number));
      out.Success? && out.value.handles.Some? && out.value.handles.value != [] && out.value.inputProof.Some?
      && Hex.FromHex(a.payload.handle) == Some(out.value.handles.value[0])
      && Hex.FromHex(a.payload.proof) == Some(out.value.inputProof.value)
  {
    var init := Fhe.InitializeSpec(gs, initEnv, None);
    var n := ParseInt(text);
    Fhe.EncryptSuccess(init.state, encryptEnv, Int(n.i as nat), contract, address.value);
  }

  /** Where a running attempt is waiting. */
  datatype Suspended =
    | Idle
    | AtInitialize(number: nat, user: string)
    | AtEncrypt(number: nat, user: string)
    | AtSubmit(payload: Fhe.Payload)

  /** The dialog for one round (lines 27-177). */
  class Dialog {
    const roundId: nat
    /** CONTRACTS.FHELottery, the lottery contract's address. */
    const contract: string
    var lotteryNumber: string
    var isEncrypting: bool
    var suspended: Suspended
    /** Everything the dialog has shown and called so far. */
    ghost var events: seq<Event>

    /** The flag is up exactly while an attempt is under way. */
    ghost predicate Valid()
      reads this
    {
      isEncrypting <==> !suspended.Idle?
    }

    constructor (roundId: nat, contract: string)
      ensures Valid() && this.roundId == roundId && this.contract == contract
      ensures lotteryNumber == "" && !isEncrypting && suspended == Idle && events == []
    {
      this.roundId, this.contract := roundId, contract;
      lotteryNumber, isEncrypting, suspended := "", false, Idle;
      events := [];
    }

    /** The buy button (line 153) is disabled exactly when the input is empty, a transaction is pending or
        confirming, an attempt is under way, or no wallet is connected. */
    predicate BuyDisabled(isPending: bool, isConfirming: bool, isConnected: bool)
      reads this
    {
      lotteryNumber == "" || isPending || isEncrypting || isConfirming || !isConnected
    }

    /** The buy button's label (lines 156-171). */
    function BuyLabel(isPending: bool, isConfirming: bool): (text: string)
      reads this
      ensures text == "Encrypting..." <==> isEncrypting
      ensures text == "Buying..." <==> !isEncrypting && (isPending || isConfirming)
      ensures text == "Buy Encrypted Ticket" <==> !isEncrypting && !isPending && !isConfirming
    {
      if isEncrypting then "Encrypting..."
      else if isPending || isConfirming then "Buying..."
      else "Buy Encrypted Ticket"
    }

    /** The Cancel button and the number input (lines 117 and 147) share this rule. */
    predicate InputLocked(isPending: bool, isConfirming: bool)
      reads this
    {
      isPending || isEncrypting || isConfirming
    }

    /** An enabled buy button can start an attempt: none is under way, and the input is not empty. */
    lemma EnabledBuyCanStart(isPending: bool, isConfirming: bool, isConnected: bool)
      requires !BuyDisabled(isPending, isConfirming, isConnected)
      ensures Valid() ==> suspended.Idle?
      ensures !isEncrypting && lotteryNumber != "" && isConnected
      ensures BuyLabel(isPending, isConfirming) == "Buy Encrypted Ticket"
    {
    }

    /** The number input (line 116): a disabled input takes no typing. */
    method Input(value: string, isPending: bool, isConfirming: bool)
      requires Valid()
      modifies this
      ensures Valid()
      ensures lotteryNumber == if old(InputLocked(isPending, isConfirming)) then old(lotteryNumber) else value
      ensures isEncrypting == old(isEncrypting) && suspended == old(suspended) && events == old(events)
    {
      if !InputLocked(isPending, isConfirming) {
        lotteryNumber := value;
      }
    }

    /** handleClose (lines 77-82), run by Cancel and by the dialog's own close request (line 93). */
    method HandleClose(isPending: bool) returns (closed: bool)
      requires Valid()
      modifies this
      ensures Valid()
      ensures closed <==> !isPending && !old(isEncrypting)
      ensures closed ==> lotteryNumber == "" && events == old(events) + [CalledOnClose]
      ensures !closed ==> lotteryNumber == old(lotteryNumber) && events == old(events)
      ensures isEncrypting == old(isEncrypting) && suspended == old(suspended)
    {
      closed := !isPending && !isEncrypting;
      if closed {
        lotteryNumber := "";
        events := events + [CalledOnClose];
      }
    }

    /** handleBuyTicket up to its first await (lines 35-51). The button that runs it is disabled
        while an attempt is under way. */
    method BeginBuy(isConnected: bool, address: Option<string>)
      requires Valid() && !isEncrypting
      modifies this
      ensures Valid() && lotteryNumber == old(lotteryNumber)
      ensures !HasAccount(isConnected, address) ==>
        !isEncrypting && events == old(events) + [Toast(ToastError, ConnectWallet)]
      ensures HasAccount(isConnected, address) && !ValidLotteryNumber(ParseInt(lotteryNumber)) ==>
        !isEncrypting && events == old(events) + [Toast(ToastError, InvalidNumber)]
      ensures HasAccount(isConnected, address) && ValidLotteryNumber(ParseInt(lotteryNumber)) ==>
        suspended == AtInitialize(ParseInt(lotteryNumber).i, address.value) && events == old(events) + Started()
    {
      if !isConnected || address.None? || address.value == "" {
        events := events + [Toast(ToastError, ConnectWallet)];
        return;
      }
      var number := ParseInt(lotteryNumber);
      if number.NaN? || number.i < 0 || number.i > MaxLotteryNumber {
        events := events + [Toast(ToastError, InvalidNumber)];
        return;
      }
      isEncrypting := true;
      suspended := AtInitialize(number.i, address.value);
      events := events + Started();
    }

    /** initializeFHE settles (lines 51-60): on to the encryption, or abort. */
    method ResumeInitialize(gateway: Fhe.Gateway, env: Fhe.Env) returns (r: Result<Fhe.Instance, Fhe.FheError>)
      requires Valid() && suspended.AtInitialize? && gateway.Valid()
      modifies this, gateway
      ensures Valid() && gateway.Valid() && lotteryNumber == old(lotteryNumber)
      ensures var init := Fhe.InitializeSpec(old(gateway.State()), env, None);
        r == init.result && gateway.State() == init.state && gateway.calls == old(gateway.calls) + init.calls
      ensures r.Failure? ==>
        suspended == Idle && !isEncrypting && events == old(events) + Aborted(Fhe.ErrorMessage(r.error))
      ensures r.Success? ==>
        suspended == AtEncrypt(old(suspended.number), old(suspended.user))
        && events == old(events) + EncryptStarted(old(suspended.number), old(suspended.user), contract)
    {
      r := gateway.InitializeFhe(env, None);
      if r.Failure? {
        Abort(Fhe.ErrorMessage(r.error));
        return;
      }
      suspended := AtEncrypt(suspended.number, suspended.user);
      events := events + EncryptStarted(suspended.number, suspended.user, contract);
    }

    /** encryptUint32 settles (lines 56-65): on to the purchase, or abort. */
    method ResumeEncrypt(gateway: Fhe.Gateway, env: Fhe.Env) returns (r: Result<Fhe.Payload, Fhe.FheError>)
      requires Valid() && suspended.AtEncrypt? && gateway.Valid()
      modifies this, gateway
      ensures Valid() && gateway.Valid() && lotteryNumber == old(lotteryNumber)
      ensures var enc := Fhe.EncryptUint32Spec(old(gateway.State()), env, Int(old(suspended.number)), contract, old(suspended.user));
        r == enc.result && gateway.State() == enc.state && gateway.calls == old(gateway.calls) + enc.calls
      ensures r.Failure? ==>
        suspended == Idle && !isEncrypting && events == old(events) + Aborted(Fhe.ErrorMessage(r.error))
      ensures r.Success? ==>
        suspended == AtSubmit(r.value) && events == old(events) + SubmitStarted(roundId, r.value)
    {
      r := gateway.EncryptUint32(env, Int(suspended.number), contract, suspended.user);
      if r.Failure? {
        Abort(Fhe.ErrorMessage(r.error));
        return;
      }
      suspended := AtSubmit(r.value);
      events := events + SubmitStarted(roundId, r.value);
    }

    /** buyTicket settles (lines 65-73): the attempt ends either way. */
    method ResumeSubmit(submitted: Result<(), string>)
      requires Valid() && suspended.AtSubmit?
      modifies this
      ensures Valid() && lotteryNumber == old(lotteryNumber) && suspended == Idle && !isEncrypting
      ensures events == old(events) + if submitted.Failure? then Aborted(submitted.error) else Finished()
    {
      if submitted.Failure? {
        Abort(submitted.error);
        return;
      }
      isEncrypting := false;
      suspended := Idle;
      events := events + Finished();
    }

    /** The catch and finally blocks (lines 68-73). */
    method Abort(message: string)
      modifies this
      ensures lotteryNumber == old(lotteryNumber) && suspended == Idle && !isEncrypting
      ensures events == old(events) + Aborted(message)
    {
      isEncrypting := false;
      suspended := Idle;
      events := events + Aborted(message);
    }

    /** A whole attempt, with no other handler run between its steps, is the attempt PurchaseSpec describes. */
    method HandleBuyTicket(gateway: Fhe.Gateway, isConnected: bool, address: Option<string>,
                           initEnv: Fhe.Env, encryptEnv: Fhe.Env, submitted: Result<(), string>) returns (attempt: Attempt)
      requires Valid() && !isEncrypting && gateway.Valid()
      modifies this, gateway
      ensures Valid() && gateway.Valid() && !isEncrypting && lotteryNumber == old(lotteryNumber)
      ensures var p := PurchaseSpec(old(gateway.State()), old(lotteryNumber), isConnected, address,
                                    initEnv, encryptEnv, submitted, contract);
        attempt == p.attempt && gateway.State() == p.gateway && gateway.calls == old(gateway.calls) + p.gatewayCalls
      ensures events == old(events) + AttemptEvents(attempt, roundId, contract)
    {
      BeginBuy(isConnected, address);
      if !isEncrypting {
        attempt := if HasAccount(isConnected, address) then RejectedNumber else NotConnected;
        return;
      }
      assert PurchaseSpec(old(gateway.State()), old(lotteryNumber), isConnected, address, initEnv, encryptEnv, submitted, contract)
          == ContinueSpec(old(gateway.State()), suspended.number, suspended.user, initEnv, encryptEnv, submitted, contract);
      attempt := RunAttempt(gateway, initEnv, encryptEnv, submitted);
      AppendAssoc(old(events), Started(), ProgressEvents(attempt, roundId, contract));
    }

    /** The attempt from its first await to its end (lines 51-73). */
    method RunAttempt(gateway: Fhe.Gateway, initEnv: Fhe.Env, encryptEnv: Fhe.Env, submitted: Result<(), string>)
      returns (attempt: Attempt)
      requires Valid() && suspended.AtInitialize? && gateway.Valid()
      modifies this, gateway
      ensures Valid() && gateway.Valid() && !isEncrypting && lotteryNumber == old(lotteryNumber)
      ensures var p := ContinueSpec(old(gateway.State()), old(suspended.number), old(suspended.user),
                                    initEnv, encryptEnv, submitted, contract);
        attempt == p.attempt && gateway.State() == p.gateway && gateway.calls == old(gateway.calls) + p.gatewayCalls
      ensures !attempt.NotConnected? && !attempt.RejectedNumber?
      ensures events == old(events) + ProgressEvents(attempt, roundId, contract)
    {
      var number, user := suspended.number, suspended.user;
      var fhe := ResumeInitialize(gateway, initEnv);
      if fhe.Failure? {
        attempt := InitializeFailed(number, user, fhe.error);
        return;
      }
      ghost var callsAfterInit := gateway.calls;
      attempt := EncryptAndSubmit(gateway, encryptEnv, submitted);
      AppendAssoc(old(gateway.calls), callsAfterInit[|old(gateway.calls)|..], gateway.calls[|callsAfterInit|..]);
      AppendAssoc(old(events), EncryptStarted(number, user, contract), SubmitEvents(attempt, roundId));
    }

    /** The attempt from the encryption to its end (lines 56-73). */
    method EncryptAndSubmit(gateway: Fhe.Gateway, encryptEnv: Fhe.Env, submitted: Result<(), string>)
      returns (attempt: Attempt)
      requires Valid() && suspended.AtEncrypt? && gateway.Valid()
      modifies this, gateway
      ensures Valid() && gateway.Valid() && !isEncrypting && lotteryNumber == old(lotteryNumber)
      ensures var p := EncryptAndSubmitSpec(old(gateway.State()), old(suspended.number), old(suspended.user),
                                            encryptEnv, submitted, contract);
        attempt == p.attempt && gateway.State() == p.gateway && gateway.calls == old(gateway.calls) + p.gatewayCalls
      ensures attempt.EncryptFailed? || attempt.SubmitFailed? || attempt.Submitted?
      ensures attempt.number == old(suspended.number) && attempt.user == old(suspended.user)
      ensures events == old(events) + SubmitEvents(attempt, roundId)
    {
      var number, user := suspended.number, suspended.user;
      var payload := ResumeEncrypt(gateway, encryptEnv);
      if payload.Failure? {
        attempt := EncryptFailed(number, user, payload.error);
        return;
      }
      ghost var encrypted := events;
      ResumeSubmit(submitted);
      if submitted.Failure? {
        attempt := SubmitFailed(number, user, payload.value, submitted.error);
        AppendAssoc(old(events), SubmitStarted(roundId, payload.value), Aborted(submitted.error));
      } else {
        attempt := Submitted(number, user, payload.value);
        AppendAssoc(old(events), SubmitStarted(roundId, payload.value), Finished());
      }
    }
  }
}
