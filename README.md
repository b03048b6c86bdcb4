# Keeper Mobile signer provider — Dafny model

This project models the core of `provider-keeper-mobile`, the adapter that lets
the Waves signer library talk to the Keeper Mobile wallet:

- the chain and account identifier helpers of
  `src/provider-keeper-mobile/utils.ts` (`networkCode`, `chainId`,
  `sameChainAccount`), written as functions over JavaScript strings, and
- the `ProviderKeeperMobile` class of
  `src/provider-keeper-mobile/ProviderKeeperMobile.ts`, written as a Dafny
  class with the fields `user`, `options` and `events`. `events` is the log of
  authentication events the provider has triggered on its emitter.

JavaScript strings are sequences of UTF-16 code units, so they are modelled as
`seq<CodeUnit>` with `CodeUnit = 0 .. 0xFFFF` (module `JsStrings`), not as Dafny
`string`. `String.fromCharCode` reduces its argument modulo 2^16 (ToUint16).
`NetworkCode` writes this reduction out, so the network byte is an unbounded
`int`. `String.prototype.split` with the one-unit separator `':'` is the
recursive function `Split`. `Join` is its inverse, and `Split`'s contract states
that joining the fields gives back the input.

The accounts `sameChainAccount(nb)` accepts are characterised without `split`
by `IsChainAccount`: `"waves:"`, then the network code, then either nothing or
`':'` and anything. The contract of `SameChainAccount` states that the closure
accepts exactly these accounts. `AccountFieldsMatch` is the closure's body, the
split-and-compare test, and `AcceptedIsChainAccount` and `ChainAccountAccepted`
prove the two directions for it.
One consequence is that for the network byte 58 (`':'`), `chainId` is
`"waves::"`. Split on `':'`, that gives `"waves"`, `""` and `""`, so
`sameChainAccount(58)` accepts nothing, not even its own chain id.
`ChainIdRoundTrip` therefore holds for every network code except `':'`, and
`ColonNetworkAcceptsNothing` states the exception. Waves network bytes are
letters, so this case does not arise in practice.

Promises become `Result` values: `Success` is a resolved promise and `Failure` a
rejected one. A `Rejection` is either a bare string (`Promise.reject('…')`) or
an `Error` object (`new Error('…')`), since the source uses both. `calculateFee`
asks a node for the fee over the network, so it is a parameter of type
`FeeCalculator`. `FeeRequest` states exactly which call `_txWithFee` makes to
it: the node URL and the transaction copy.

This version of the class opens no WalletConnect session. `login` sets a
placeholder user with an empty address and public key, and `logout` always
succeeds. `sign` accepts exactly one transaction. That transaction goes through
`_txWithFee` and is returned as a single transaction rather than an array.

## Model

| member | source | states |
|---|---|---|
| JsStrings.Split | src/provider-keeper-mobile/utils.ts:11 | `account.split(':')`: at least one field, no field contains the separator, and the fields joined with the separator give back the string |
| JsStrings.SplitNoSeparator | src/provider-keeper-mobile/utils.ts:11 | a string without `':'` splits into itself alone, so the destructured second field is absent |
| JsStrings.SplitAtFirst | src/provider-keeper-mobile/utils.ts:11 | the first field is everything before the first `':'`, and the rest is split independently |
| Utils.NetworkCode | src/provider-keeper-mobile/utils.ts:1-3 | `String.fromCharCode(nb)` is a single code unit, equal to `nb` for `nb` in 0..65535 |
| Utils.NetworkCodeSame | src/provider-keeper-mobile/utils.ts:1-3 | two network bytes give the same code exactly when they agree modulo 2^16 |
| Utils.ChainId | src/provider-keeper-mobile/utils.ts:5-7 | the chain id has length 7: `"waves:"` followed by the network code |
| Utils.SameChainAccount | src/provider-keeper-mobile/utils.ts:9-14 | the returned closure accepts an account exactly when it is `"waves:"` + code, then nothing or `':'` and anything, with a code other than `':'` |
| Utils.AcceptedIsChainAccount | src/provider-keeper-mobile/utils.ts:11-12 | every account whose first `':'`-field is `"waves"` and whose second field exists and equals the network code is `"waves:"` + code, optionally followed by `':'` and anything, and the code is not `':'` |
| Utils.ChainAccountAccepted | src/provider-keeper-mobile/utils.ts:11-12 | every account of that shape passes the split-and-compare test |
| Utils.ChainIdRoundTrip | src/provider-keeper-mobile/utils.ts:1-14 | `sameChainAccount(nb)(chainId(nb))` holds whenever the network code is not `':'` |
| Utils.ColonNetworkAcceptsNothing | src/provider-keeper-mobile/utils.ts:1-14 | for network code `':'` the chain id is `"waves::"` and no account at all is accepted |
| Utils.AcceptsAnyPublicKey | src/provider-keeper-mobile/utils.ts:9-14 | `chainId(nb) + ":" + pk` is accepted for every `pk`, including one with further `':'` |
| Utils.RejectsForeignNamespace | src/provider-keeper-mobile/utils.ts:11-12 | an account that does not begin with `"waves:"` is rejected |
| Utils.RejectsWithoutSeparator | src/provider-keeper-mobile/utils.ts:11-12 | an account with no `':'` is rejected |
| Utils.RejectsEmptyNetworkField | src/provider-keeper-mobile/utils.ts:11-12 | `"waves:"` with an empty second field is rejected |
| Utils.RejectsLongNetworkField | src/provider-keeper-mobile/utils.ts:11-12 | a second field of two or more units is rejected |
| Utils.ChainIdInjective | src/provider-keeper-mobile/utils.ts:1-14 | distinct network bytes in 0..65535 give distinct chain ids, and neither chain accepts the other's id |
| KeeperMobile.ProviderKeeperMobile.constructor | src/provider-keeper-mobile/ProviderKeeperMobile.ts:16-27 | a fresh provider has no user, options `NETWORK_BYTE = 87` (`'W'`) and `NODE_URL = "https://nodes.wavesnodes.com"`, and no event |
| KeeperMobile.ProviderKeeperMobile.On | src/provider-keeper-mobile/ProviderKeeperMobile.ts:29-36 | returns the provider itself |
| KeeperMobile.ProviderKeeperMobile.Once | src/provider-keeper-mobile/ProviderKeeperMobile.ts:38-45 | returns the provider itself |
| KeeperMobile.ProviderKeeperMobile.Off | src/provider-keeper-mobile/ProviderKeeperMobile.ts:47-54 | returns the provider itself |
| KeeperMobile.ProviderKeeperMobile.Connect | src/provider-keeper-mobile/ProviderKeeperMobile.ts:56-59 | the stored options become exactly the given ones; the user and the event log are unchanged |
| KeeperMobile.ProviderKeeperMobile.Login | src/provider-keeper-mobile/ProviderKeeperMobile.ts:61-70 | sets the user to `{address: "", publicKey: ""}`, returns that user, appends exactly one login event carrying it, and leaves the options alone |
| KeeperMobile.ProviderKeeperMobile.Logout | src/provider-keeper-mobile/ProviderKeeperMobile.ts:72-80 | clears the user whether or not one was set, appends exactly one logout event, and leaves the options alone |
| KeeperMobile.ProviderKeeperMobile.SignMessage | src/provider-keeper-mobile/ProviderKeeperMobile.ts:82-84 | rejects with `'signMessage not supported'` for every input, without touching any field |
| KeeperMobile.ProviderKeeperMobile.SignTypedData | src/provider-keeper-mobile/ProviderKeeperMobile.ts:86-88 | rejects with `'signTypedData not supported'` for every input, without touching any field |
| KeeperMobile.ProviderKeeperMobile.Sign | src/provider-keeper-mobile/ProviderKeeperMobile.ts:90-104 | any number of transactions other than one, including none, is rejected with `Error('Multiple signature not supported')` whatever the fee calculator does; a single transaction is returned unchanged unless it is an invoke script with a falsy fee |
| KeeperMobile.ProviderKeeperMobile.PublicKey | src/provider-keeper-mobile/ProviderKeeperMobile.ts:106-111 | no sender public key is found |
| KeeperMobile.ProviderKeeperMobile.FeeRequest | src/provider-keeper-mobile/ProviderKeeperMobile.ts:113-120 | a fee calculation is requested exactly for an invoke-script transaction whose fee is absent or 0; it goes to the stored `NODE_URL`, with a copy whose payment defaults to `[]`, whose sender key is unset, and whose other fields are unchanged |
| KeeperMobile.ProviderKeeperMobile.TxWithFee | src/provider-keeper-mobile/ProviderKeeperMobile.ts:113-121 | the transaction is returned unchanged when no fee is needed; otherwise the result is whatever the calculator settles with for that request |

## Left out

- `src/index.ts` is not part of this model. It holds the WalletConnect client set-up, pairing, session events, the QR modal, console output and the `window.api` global, and all of it is foreign SDK state.
- `src/provider-keeper-mobile/constants.ts` is not part of this model. It holds only static data: RPC method names, the storage key and page metadata.
- `calculateFee` is not defined in `utils.ts`, and it is a network call to a node. It is taken as a parameter (`FeeCalculator`) and may resolve or reject arbitrarily.
- The emitter's handler registry (`typed-ts-events`) is not modelled. `On`, `Once` and `Off` only return the provider, and the model does not track which handlers a triggered event reaches or that a `once` handler removes itself. The triggered events themselves are recorded in `events`.
- Promise scheduling is not modelled. Every operation runs to completion in one step, and concurrent calls are not modelled. In the source, `login` sets the user at once, but the `login` event and the returned user come in a later microtask. `logout` does more than that in its `.then` callback: it clears `user` and triggers the `logout` event there, so `provider.user` is still set right after `logout()` returns and is cleared only when the promise settles.
- Utils.NetworkCode: the network byte is an integer. `String.fromCharCode` of a fractional number, `NaN` or an infinity is not modelled.
- KeeperMobile.ProviderKeeperMobile.FeeRequest: the fee is an optional integer, and "falsy" means absent or 0. A fee given as a string, or `NaN`, is not modelled. A `senderPublicKey` property present with value `undefined` is not distinguished from an absent one.
- The fields of a transaction that the provider never reads (recipient, call, chain id, …) are carried as an uninterpreted map of strings.
- `sign` is declared to return an array but, through a cast, resolves with the single transaction. The model returns that transaction.
