/** The signer provider of src/provider-keeper-mobile/ProviderKeeperMobile.ts:
    stored connect options, the logged-in user, the authentication events it
    has triggered, and the rules by which it signs or refuses. */
module KeeperMobile {
  import opened Wrappers
  import opened JsStrings

  /** The user the signer library sees: an address and a public key. */
  datatype UserData = UserData(address: JsString, publicKey: JsString)

  /** `ConnectOptions`: the network byte and the node the fee is asked from. */
  datatype ConnectOptions = ConnectOptions(networkByte: int, nodeUrl: JsString)

  /** The events the provider triggers on its emitter, with their payloads. */
  datatype AuthEvent = Login(user: UserData) | Logout

  /** The event names a handler may be registered for. */
  datatype EventName = LoginEvent | LogoutEvent

  /** A handler, known by the reference the emitter keys it by. */
  datatype Handler = Handler(id: nat)

  /** Why a promise was rejected: a bare string, or an `Error` with a message. */
  datatype Rejection = Reason(text: JsString) | ErrorObject(message: JsString)

  /** One payment attached to an invoke-script transaction. */
  datatype Payment = Payment(assetId: Option<JsString>, amount: int)

  /** The fields of a `SignerTx` that the provider looks at or sets; the rest
      are carried along unread. A fee is the number the caller gave, or absent. */
  datatype SignerTx = SignerTx(
    txType: int,
    fee: Option<int>,
    payment: Option<seq<Payment>>,
    senderPublicKey: Option<JsString>,
    otherFields: map<JsString, JsString>)

  /** A call the provider makes to the fee calculator: the node and the transaction. */
  datatype FeeCall = FeeCall(nodeUrl: JsString, tx: SignerTx)

  /** `calculateFee(nodeUrl, tx)`: a request to a node, settled with the
      transaction carrying its fee or rejected. */
  type FeeCalculator = (JsString, SignerTx) -> Result<SignerTx, Rejection>

  /** `TRANSACTION_TYPE.INVOKE_SCRIPT`. */
  const INVOKE_SCRIPT: int := 16

  /** `'W'.charCodeAt(0)`, the mainnet network byte. */
  const DEFAULT_NETWORK_BYTE: int := 'W' as int

  /** The code units of "https://nodes.wavesnodes.com", the mainnet node. */
  const DEFAULT_NODE_URL: JsString := [
      0x68, 0x74, 0x74, 0x70, 0x73, 0x3A, 0x2F, 0x2F, 0x6E, 0x6F, 0x64, 0x65, 0x73, 0x2E,
      0x77, 0x61, 0x76, 0x65, 0x73, 0x6E, 0x6F, 0x64, 0x65, 0x73, 0x2E, 0x63, 0x6F, 0x6D]

  const DEFAULT_OPTIONS: ConnectOptions := ConnectOptions(DEFAULT_NETWORK_BYTE, DEFAULT_NODE_URL)

  /** The user login sets: address and public key both empty. */
  const PLACEHOLDER_USER: UserData := UserData([], [])

  const MULTIPLE_SIGNATURE_NOT_SUPPORTED: Rejection :=
    ErrorObject(Utf16("Multiple signature not supported"))
  const SIGN_MESSAGE_NOT_SUPPORTED: Rejection := Reason(Utf16("signMessage not supported"))
  const SIGN_TYPED_DATA_NOT_SUPPORTED: Rejection := Reason(Utf16("signTypedData not supported"))

  /** The data signMessage takes: a string or a number, or nothing. */
  datatype MessageData = Text(text: JsString) | Number(number: int)

  /** One entry of the typed data signTypedData takes. */
  datatype TypedData = TypedData(typeName: JsString, key: JsString, value: JsString)

  /** JavaScript's `!fee` for a numeric fee: absent or zero. */
  predicate FeeIsFalsy(fee: Option<int>) {
    fee == None || fee == Some(0)
  }

  class ProviderKeeperMobile {
    var user: Option<UserData>
    var options: ConnectOptions
    /** The events triggered on the emitter so far, oldest first. */
    var events: seq<AuthEvent>

    /** The user field agrees with the last event the subscribers were told
        of: set to the login payload after a login, cleared after a logout or
        before any event; and every login event carries the placeholder user. */
    ghost predicate Valid()
      reads this
    {
      && (forall i :: 0 <= i < |events| ==> events[i].Login? ==> events[i].user == PLACEHOLDER_USER)
      && user == (if events != [] && events[|events| - 1].Login? then Some(events[|events| - 1].user) else None)
    }

    /** A fresh provider: no user, mainnet options, no event yet. */
    constructor ()
      ensures Valid()
      ensures user == None && options == DEFAULT_OPTIONS && events == []
    {
      user := None;
      options := DEFAULT_OPTIONS;
      events := [];
    }

    /** `on(event, handler)`: registers the handler and returns the provider. */
    method On(event: EventName, handler: Handler) returns (self: ProviderKeeperMobile)
      ensures self == this
    {
      self := this;
    }

    /** `once(event, handler)`: registers a one-shot handler and returns the provider. */
    method Once(event: EventName, handler: Handler) returns (self: ProviderKeeperMobile)
      ensures self == this
    {
      self := this;
    }

    /** `off(event, handler)`: removes the handler and returns the provider. */
    method Off(event: EventName, handler: Handler) returns (self: ProviderKeeperMobile)
      ensures self == this
    {
      self := this;
    }

    /** `connect(options)`: stores the options and changes nothing else. */
    method Connect(newOptions: ConnectOptions)
      requires Valid()
      modifies this
      ensures Valid()
      ensures options == newOptions
      ensures user == old(user) && events == old(events)
    {
      options := newOptions;
    }

    /** `login()`: sets the placeholder user, triggers one login event carrying
        it and resolves with it. */
    method Login() returns (loggedIn: UserData)
      requires Valid()
      modifies this
      ensures Valid()
      ensures loggedIn == PLACEHOLDER_USER && user == Some(loggedIn)
      ensures events == old(events) + [AuthEvent.Login(loggedIn)]
      ensures options == old(options)
    {
      user := Some(PLACEHOLDER_USER);
      loggedIn := user.value;
      events := events + [AuthEvent.Login(loggedIn)];
    }

    /** `logout()`: clears the user, whether or not one was set, and triggers
        one logout event. */
    method Logout()
      requires Valid()
      modifies this
      ensures Valid()
      ensures user == None
      ensures events == old(events) + [AuthEvent.Logout]
      ensures options == old(options)
    {
      user := None;
      events := events + [AuthEvent.Logout];
    }

    /** `signMessage(data)`: rejects, whatever the data. */
    function SignMessage(data: Option<MessageData>): (r: Result<JsString, Rejection>)
      ensures r.Failure? && r.error == SIGN_MESSAGE_NOT_SUPPORTED
    {
      Failure(SIGN_MESSAGE_NOT_SUPPORTED)
    }

    /** `signTypedData(data)`: rejects, whatever the data. */
    function SignTypedData(data: seq<TypedData>): (r: Result<JsString, Rejection>)
      ensures r.Failure? && r.error == SIGN_TYPED_DATA_NOT_SUPPORTED
    {
      Failure(SIGN_TYPED_DATA_NOT_SUPPORTED)
    }

    /** `_publicKeyPromise()`: the sender key found in the session; no session
        is consulted yet, so there is none. */
    function PublicKey(): (publicKey: Option<JsString>)
      ensures publicKey.None?
    {
      None
    }

    /** The fee calculation `_txWithFee(tx)` asks for, if any: only for an
        invoke-script transaction whose fee is falsy, and then with the stored
        node and a copy of the transaction whose payment defaults to no
        payments and whose sender key is the one `_publicKeyPromise` gives. */
    function FeeRequest(tx: SignerTx): (call: Option<FeeCall>)
      reads this
      ensures call.Some? <==> tx.txType == INVOKE_SCRIPT && (tx.fee == None || tx.fee == Some(0))
      ensures call.Some? ==>
        && call.value.nodeUrl == options.nodeUrl
        && call.value.tx.payment == Some(if tx.payment.Some? then tx.payment.value else [])
        && call.value.tx.senderPublicKey == None
        && call.value.tx.txType == tx.txType && call.value.tx.fee == tx.fee
        && call.value.tx.otherFields == tx.otherFields
    {
      if tx.txType == INVOKE_SCRIPT && FeeIsFalsy(tx.fee) then
        Some(FeeCall(options.nodeUrl, tx.(payment := Some(tx.payment.GetOr([])), senderPublicKey := PublicKey())))
      else
        None
    }

    /** `_txWithFee(tx)`: the transaction itself when no fee calculation is
        asked for, otherwise whatever the calculator settles with. */
    function TxWithFee(tx: SignerTx, calculateFee: FeeCalculator): (r: Result<SignerTx, Rejection>)
      reads this
      ensures !(tx.txType == INVOKE_SCRIPT && FeeIsFalsy(tx.fee)) ==> r == Success(tx)
      ensures tx.txType == INVOKE_SCRIPT && FeeIsFalsy(tx.fee) ==>
        r == calculateFee(options.nodeUrl, FeeRequest(tx).value.tx)
    {
      match FeeRequest(tx)
      case None => Success(tx)
      case Some(call) => calculateFee(call.nodeUrl, call.tx)
    }

    /** `sign(toSign)`: exactly one transaction is signed (here: passed through
        `_txWithFee` and returned); any other number is refused before the
        fee calculator is reached. */
    function Sign(toSign: seq<SignerTx>, calculateFee: FeeCalculator): (r: Result<SignerTx, Rejection>)
      reads this
      ensures |toSign| != 1 ==> r == Failure(MULTIPLE_SIGNATURE_NOT_SUPPORTED)
      ensures |toSign| == 1 && !(toSign[0].txType == INVOKE_SCRIPT && FeeIsFalsy(toSign[0].fee)) ==>
        r == Success(toSign[0])
      ensures |toSign| == 1 ==> r == TxWithFee(toSign[0], calculateFee)
    {
      if |toSign| == 1 then TxWithFee(toSign[0], calculateFee)
      else Failure(MULTIPLE_SIGNATURE_NOT_SUPPORTED)
    }
  }
}
