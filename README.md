# FHE lottery front end: purchase flow, gateway and ticket views in Dafny

This project models the client-side logic of a lottery in which each ticket's number is encrypted
with fully homomorphic encryption (FHE) before it is sent to the ledger. It covers four pieces:

- **The encryption gateway** (`src/lib/fhe.ts`, module `Fhe`).
  - Three module variables: the cached FHE instance, an instance promise (declared and cleared,
    never assigned) and the once-only SDK-loading promise. They are the fields of class `Gateway`.
  - The operations `loadSdk`, `initializeFHE`, `encryptUint32`, `isFheInitialized` and
    `resetFheInstance`.
  - The uint32 range guard and the payload check `ensureHandlePayload`.
  - Everything outside the module is a parameter of type `Env`: the browser globals, how the
    script load settles, the SDK's `initSDK`, `createInstance` and encryption, and viem's
    `getAddress`.
  - Each operation is a function to a `Step` (its result, the new state and the external calls in
    order). The `Gateway` methods are proved to do what those functions say.
- **The purchase dialog** (`src/components/BuyTicketDialog.tsx`, module `BuyTicket`).
  - `handleBuyTicket` checks the wallet, then parses the input with `parseInt`. The parser is in
    module `Ecma` and follows section 19.2.5 of ECMA-262, with no radix given.
  - It checks that the number is in 0..999999, then awaits initialization, encryption and the
    ticket purchase in turn. The first failure raises one error toast and skips the rest.
  - The `isEncrypting` busy flag is always lowered again.
  - Class `Dialog` runs an attempt one await at a time, so `handleClose` and the input can be
    driven between the steps. It also derives the button rules.
- **The round cards** (`src/components/ActiveRounds.tsx`, module `ActiveRounds`).
  - Activity from the draw time and the current time; the badge, the labels, the winning-number
    and winner displays, and the display name.
  - The card's dialog toggle, and the list of round ids that `ActiveRounds` rebuilds.
- **The ticket list** (`src/components/MyTickets.tsx`, module `MyTickets`).
  - The status of each ticket and the `TKT-r-i` ids, which are distinct whenever no round lists an index twice.
  - The defaults for missing round data.
  - The concatenation of the lists of the five followed rounds, capped by the round count.

Module `Hex` gives viem's `toHex` on byte arrays and its inverse, so that the model can state that
the payload carries the bytes it was given. Module `Rounds` holds the round record that two
components share.

## Model

| member | source | states |
|---|---|---|
| Ecma.ParseInt | src/components/BuyTicketDialog.tsx:40 | the global parseInt with no radix, on integral results; what it returns is stated by the Ecma.ParseInt* lemmas below |
| Ecma.DecimalString | src/components/MyTickets.tsx:32 | `Number(n)` in a template literal: a non-empty string of decimal digits with no leading zero whose value is `n` |
| Ecma.DecimalStringInjective | src/components/MyTickets.tsx:32 | different numbers give different decimal strings |
| Ecma.TrimStartIsWhiteSpaceCut | src/components/BuyTicketDialog.tsx:40 | trimming removes exactly a leading run of white space and leaves a string that does not start with white space |
| Ecma.DigitPrefixIsLongest | src/components/BuyTicketDialog.tsx:40 | the digits parseInt reads are the longest prefix made only of digits of the radix |
| Ecma.ParseIntSkipsLeadingWhiteSpace | src/components/BuyTicketDialog.tsx:40 | leading white space of any length does not change what parseInt returns |
| Ecma.ParseIntReadsDecimalPrefix | src/components/BuyTicketDialog.tsx:40 | a leading run of decimal digits is read in full, and what follows it is ignored, unless the run is a lone `0` before `x`/`X` |
| Ecma.ParseIntSign | src/components/BuyTicketDialog.tsx:40 | a leading `+` is ignored and a leading `-` negates the result (NaN stays NaN) |
| Ecma.ParseIntDigits | src/components/BuyTicketDialog.tsx:40 | a digit string reads as its value, and with a `-` in front as its negation |
| Ecma.ParseIntDecimalString | src/components/BuyTicketDialog.tsx:40 | parseInt reads back every decimal string of a natural number, with or without a minus sign |
| Ecma.ParseIntNaN | src/components/BuyTicketDialog.tsx:40-41 | NaN exactly when no digit follows the white space, the sign and any `0x` prefix |
| Ecma.ParseIntIgnoresTrailingText | src/components/BuyTicketDialog.tsx:40 | "12abc" reads as 12 and "1e3" as 1 |
| Ecma.ParseIntLeadingSpaceAndSign | src/components/BuyTicketDialog.tsx:40 | " -7" reads as -7 |
| Ecma.ParseIntHexAndNaN | src/components/BuyTicketDialog.tsx:40 | "0x1F" reads as 31; "0x", "abc" and "" are NaN |
| Hex.ToHex | src/lib/fhe.ts:107-108 | `toHex` gives "0x" and then two lower-case hex digits per byte |
| Hex.ToHexRoundTrip | src/lib/fhe.ts:107-108 | the bytes can be read back from `toHex`'s result |
| Hex.ToHexInjective | src/lib/fhe.ts:107-108 | different byte arrays have different hex forms |
| Fhe.OutOfUint32Range | src/lib/fhe.ts:165 | the range guard, on which NaN passes; Fhe.Uint32RangeExact and Fhe.EncryptUint32Spec state its meaning |
| Fhe.LoadSdkSpec | src/lib/fhe.ts:30-93 | loadSdk as a function of the module state; Fhe.LoadSdkCreatesPromiseOnce and Fhe.FailedSdkLoadIsFinal state its contract, Fhe.Gateway.LoadSdk is proved equal to it |
| Fhe.InitializeSpec | src/lib/fhe.ts:115-155 | initializeFHE as a function of the module state; Fhe.InitializeCached, Fhe.InitializeIdempotent, Fhe.InitializeSuccessCalls, Fhe.InitializeCallsNoEncryption and Fhe.InitializeCreatesPromiseOnce state its contract |
| Fhe.AfterSdkLoad | src/lib/fhe.ts:139-154 | initSDK and then createInstance once the SDK has loaded; its contract is stated through Fhe.InitializeSpec's lemmas |
| Fhe.FirstProvider | src/lib/fhe.ts:124-132 | the chain of fallbacks over the providers: none exactly when every candidate is missing, otherwise the first one present |
| Fhe.EnsureHandlePayload | src/lib/fhe.ts:98-110 | fails with the no-handles error exactly when `handles` is not an array or is empty, and with the no-proof error exactly when handles are present but `inputProof` is missing; on success both fields start with "0x" and decode to `handles[0]` and to the proof |
| Fhe.LaterHandlesDropped | src/lib/fhe.ts:106-109 | only `handles[0]` matters: any handles after it do not change the result |
| Fhe.EncryptUint32Spec | src/lib/fhe.ts:165-167 | an integer outside [0, 2^32-1] fails with the range error, with no call made and the state unchanged; the range error arises for no other input |
| Fhe.Uint32RangeExact | src/lib/fhe.ts:165 | an integer passes the range check exactly when it is in [0, 4294967295] |
| Fhe.EncryptWith | src/lib/fhe.ts:171-182 | both addresses are checksummed before any encryption; if either is malformed, nothing is called; otherwise exactly one encryption call is made, with (contract, user) in that order; the module state is unchanged |
| Fhe.EncryptSuccess | src/lib/fhe.ts:160-189 | a successful encryptUint32 passed the range check and made exactly one encryption call, its last, using the cached instance and the checksummed contract and user addresses; the payload decodes to the first handle and to the proof that call returned |
| Fhe.InitializeCached | src/lib/fhe.ts:116-118 | with a cached instance, initializeFHE returns it and makes no call: no SDK load, no initSDK, no createInstance |
| Fhe.InitializeIdempotent | src/lib/fhe.ts:151-154 | after a successful initializeFHE the instance is cached (so isFheInitialized holds), and any further call returns it with no call made |
| Fhe.InitializeSuccessCalls | src/lib/fhe.ts:124-151 | a successful first initialization ended with initSDK and then createInstance on the first provider present, the argument taking precedence over the wallet globals; the instance is the one createInstance gave |
| Fhe.InitializeCallsNoEncryption | src/lib/fhe.ts:115-155 | initialization never encrypts |
| Fhe.LoadSdkCreatesPromiseOnce | src/lib/fhe.ts:40-92 | loadSdk creates the loading promise only while it is unset, and once it is set never replaces it |
| Fhe.InitializeCreatesPromiseOnce | src/lib/fhe.ts:139 | the same holds for initializeFHE |
| Fhe.EncryptCreatesPromiseOnce | src/lib/fhe.ts:170 | the same holds for encryptUint32 |
| Fhe.FailedSdkLoadIsFinal | src/lib/fhe.ts:40-92 | once the loading promise has rejected, every later loadSdk rejects with the same reason while the SDK is not on the page |
| Fhe.SdkLoadsAppend | src/lib/fhe.ts:41 | promise creations in two runs of calls add up |
| Fhe.Gateway.LoadSdk | src/lib/fhe.ts:30-93 | the method's result, new fields and new calls are those of the loadSdk function; it keeps the invariant that the promise exists exactly when it was created once |
| Fhe.Gateway.InitializeFhe | src/lib/fhe.ts:115-155 | the same for initializeFHE |
| Fhe.Gateway.CreateInstanceAfterLoad | src/lib/fhe.ts:139-154 | the same for the part after the SDK has loaded |
| Fhe.Gateway.EncryptUint32 | src/lib/fhe.ts:160-189 | the same for encryptUint32 |
| Fhe.Gateway.EncryptWithInstance | src/lib/fhe.ts:171-188 | the same for the part after the instance is at hand |
| Fhe.Gateway.ResetFheInstance | src/lib/fhe.ts:201-204 | the instance and the instance promise are cleared, so isFheInitialized is false; the SDK-loading promise is kept |
| Fhe.Gateway.IsFheInitialized | src/lib/fhe.ts:194-196 | true exactly when an instance is cached; Fhe.InitializeIdempotent shows it holds after a successful initialization and Fhe.Gateway.ResetFheInstance that it is false after a reset |
| Fhe.Gateway.constructor | src/lib/fhe.ts:23-25 | all three variables start unset |
| BuyTicket.HasAccount | src/components/BuyTicketDialog.tsx:35 | a connected wallet with a non-empty address; BuyTicket.StopsBeforeGateway states what its failure does |
| BuyTicket.ValidLotteryNumber | src/components/BuyTicketDialog.tsx:41 | not NaN and within 0..999999; BuyTicket.StopsBeforeGateway and BuyTicket.ValidNumberIsUint32 state its contract |
| BuyTicket.PurchaseSpec | src/components/BuyTicketDialog.tsx:34-74 | a whole attempt as a value; BuyTicket.StopsBeforeGateway, BuyTicket.PurchaseUsesParsedNumber and BuyTicket.SubmittedPayload state its contract, BuyTicket.Dialog.HandleBuyTicket is proved equal to it |
| BuyTicket.ContinueSpec | src/components/BuyTicketDialog.tsx:46-73 | the attempt after validation; BuyTicket.Dialog.RunAttempt is proved equal to it |
| BuyTicket.EncryptAndSubmitSpec | src/components/BuyTicketDialog.tsx:56-73 | the attempt after initialization; BuyTicket.Dialog.EncryptAndSubmit is proved equal to it |
| BuyTicket.AttemptEvents | src/components/BuyTicketDialog.tsx:34-74 | the toasts, flag changes and calls of an attempt, in order; BuyTicket.CallsInOrder, BuyTicket.ExactlyOneErrorToast and BuyTicket.BusyFlagBracketsAttempt state its contract |
| BuyTicket.FailureToastCarriesMessage | src/components/BuyTicketDialog.tsx:70 | the error toast shows "Failed to buy ticket: " followed by exactly the error's message |
| BuyTicket.StopsBeforeGateway | src/components/BuyTicketDialog.tsx:35-44 | the attempt stops with "not connected" exactly when there is no connected account, and with "invalid number" exactly when there is one but the parsed number is NaN or outside 0..999999; in both cases the gateway is untouched and nothing is called |
| BuyTicket.ValidNumberIsUint32 | src/components/BuyTicketDialog.tsx:41 | every number that passes the dialog's check passes the uint32 guard |
| BuyTicket.PurchaseUsesParsedNumber | src/components/BuyTicketDialog.tsx:40-60 | an attempt past validation uses the parsed number and the account's address, and its encryption can never fail with the range error |
| BuyTicket.CallsInOrder | src/components/BuyTicketDialog.tsx:51-70 | the calls are initializeFHE, then encryptUint32(number, contract, address), then buyTicket(roundId, handle, proof); a failure at one call skips every later one |
| BuyTicket.ExactlyOneErrorToast | src/components/BuyTicketDialog.tsx:34-70 | every failed attempt shows exactly one error toast, whatever the failure; a successful one shows none |
| BuyTicket.BusyFlagBracketsAttempt | src/components/BuyTicketDialog.tsx:47-73 | once validation passes, the flag is raised first and lowered last, on success and on failure, with no other change in between; an attempt stopped by validation never touches it |
| BuyTicket.SubmittedPayload | src/components/BuyTicketDialog.tsx:56-65 | a submitted ticket carries the hex of the first handle and of the proof that encrypting the parsed number returned, for the checksummed contract and user addresses |
| BuyTicket.ErrorToastsAppend | src/components/BuyTicketDialog.tsx:68-70 | error toasts in two runs of events add up |
| BuyTicket.CallsAppend | src/components/BuyTicketDialog.tsx:51-65 | the calls in two runs of events are the calls of each, in order |
| BuyTicket.Dialog.BuyLabel | src/components/BuyTicketDialog.tsx:156-171 | "Encrypting..." exactly while an attempt runs; otherwise "Buying..." exactly while a transaction is pending or confirming; otherwise "Buy Encrypted Ticket" |
| BuyTicket.Dialog.EnabledBuyCanStart | src/components/BuyTicketDialog.tsx:153 | an enabled buy button means no attempt is under way, the input is not empty, a wallet is connected and the label is the default one |
| BuyTicket.Dialog.Input | src/components/BuyTicketDialog.tsx:115-117 | typing replaces the number unless the input is disabled (pending, encrypting or confirming), and changes nothing else |
| BuyTicket.Dialog.HandleClose | src/components/BuyTicketDialog.tsx:77-82 | closes exactly when nothing is pending and no attempt is under way, clearing the input and calling onClose; otherwise nothing changes |
| BuyTicket.Dialog.BeginBuy | src/components/BuyTicketDialog.tsx:34-51 | without an account, or with an invalid number, exactly one error toast and no flag change; otherwise the flag goes up and the attempt waits on initializeFHE with the parsed number and the address |
| BuyTicket.Dialog.ResumeInitialize | src/components/BuyTicketDialog.tsx:51-56 | the gateway initializes as its specification says; a failure aborts (one error toast, flag down), a success moves on to encryption |
| BuyTicket.Dialog.ResumeEncrypt | src/components/BuyTicketDialog.tsx:56-65 | the gateway encrypts the parsed number for (contract, address); a failure aborts, a success hands the payload to buyTicket |
| BuyTicket.Dialog.ResumeSubmit | src/components/BuyTicketDialog.tsx:65-73 | the attempt ends either way with the flag down: a rejection shows one error toast, a success the "submitted" toast |
| BuyTicket.Dialog.Abort | src/components/BuyTicketDialog.tsx:68-73 | one error toast with the message, then the flag goes down |
| BuyTicket.Dialog.HandleBuyTicket | src/components/BuyTicketDialog.tsx:34-74 | a whole attempt gives the outcome, gateway state and gateway calls of the purchase specification, shows exactly that attempt's events, leaves the flag down and keeps the input |
| BuyTicket.Dialog.RunAttempt | src/components/BuyTicketDialog.tsx:51-73 | the same from the first await on |
| BuyTicket.Dialog.EncryptAndSubmit | src/components/BuyTicketDialog.tsx:56-73 | the same from the encryption on |
| BuyTicket.Dialog.constructor | src/components/BuyTicketDialog.tsx:31-32 | the input starts empty and the flag down |
| ActiveRounds.Deadline | src/components/ActiveRounds.tsx:36 | the deadline in milliseconds, NaN beyond a Date's range; ActiveRounds.ActiveExactly and ActiveRounds.FarFutureNeverActive state its effect |
| ActiveRounds.IsActive | src/components/ActiveRounds.tsx:37 | the activity rule; ActiveRounds.ActiveExactly, ActiveRounds.DrawnNeverActive and ActiveRounds.InactiveStaysInactive state its contract |
| ActiveRounds.ActiveExactly | src/components/ActiveRounds.tsx:36-37 | a round is active exactly when it is not drawn and `now < drawTime*1000` holds, with the deadline within a Date's range |
| ActiveRounds.DrawnNeverActive | src/components/ActiveRounds.tsx:37 | a drawn round is never active |
| ActiveRounds.InactiveStaysInactive | src/components/ActiveRounds.tsx:37 | a round that is not active stays inactive as time goes on |
| ActiveRounds.FarFutureNeverActive | src/components/ActiveRounds.tsx:36-37 | a deadline beyond a Date's range is an invalid date, so that round is never active |
| ActiveRounds.Badge | src/components/ActiveRounds.tsx:52 | exactly one of 'Drawn' (the round is drawn), 'Active' (it is active) and 'Closed' (neither) |
| ActiveRounds.BuyLabel | src/components/ActiveRounds.tsx:96 | 'Round Closed' exactly when drawn, 'Buy Ticket' exactly when active, 'Expired' otherwise |
| ActiveRounds.WinningNumberText | src/components/ActiveRounds.tsx:63 | '???' exactly when the round is not drawn or its number is 0; otherwise a decimal string that parseInt reads back as the number |
| ActiveRounds.WinnersShown | src/components/ActiveRounds.tsx:83-88 | the winner count is shown exactly for drawn rounds |
| ActiveRounds.DisplayName | src/components/ActiveRounds.tsx:44 | never empty (the title, also handed to the dialog at line 105): the name if there is one, otherwise "Round #" followed by a decimal string that reads back as the id |
| ActiveRounds.CardViewOf | src/components/ActiveRounds.tsx:13-106 | a loading card exactly when there is no round data; the dialog gets the card's title and id; the buy button is disabled exactly when the round is not active, and then the badge is not highlighted and the label is not 'Buy Ticket' |
| ActiveRounds.RoundCard.ClickBuy | src/components/ActiveRounds.tsx:93-94 | a click opens the dialog only on an active round, since a disabled button takes no clicks: after the click the card's view shows the dialog open exactly when it was open or the button it showed was enabled |
| ActiveRounds.RoundCard.CloseBuyDialog | src/components/ActiveRounds.tsx:103 | the dialog's onClose hides it |
| ActiveRounds.RoundCard.constructor | src/components/ActiveRounds.tsx:11 | the dialog starts hidden |
| ActiveRounds.RoundIds | src/components/ActiveRounds.tsx:118 | the ids are exactly 0, 1, ..., count-1, in order |
| ActiveRounds.RoundList.OnTotalRounds | src/components/ActiveRounds.tsx:115-121 | a nonzero count replaces the list with 0..count-1; a missing count or 0 leaves it unchanged; so the "no active rounds" message (line 133) stays exactly until a nonzero count arrives |
| ActiveRounds.RoundList.constructor | src/components/ActiveRounds.tsx:113 | the list starts empty |
| MyTickets.StatusTextInjective | src/components/MyTickets.tsx:134 | the badge shows the three statuses as three different texts (a trophy and 'Winner!' for a winning ticket) |
| MyTickets.Classify | src/components/MyTickets.tsx:30 | 'pending' exactly when not drawn; 'winner' exactly when drawn and isWinner holds; 'drawn' exactly when drawn and isWinner does not hold |
| MyTickets.TicketId | src/components/MyTickets.tsx:32 | `TKT-${round}-${index}`; MyTickets.TicketIdInjective states its contract |
| MyTickets.TicketIdInjective | src/components/MyTickets.tsx:32 | different (round, index) pairs give different ids, as the list keys at line 94 need |
| MyTickets.SplitAtDash | src/components/MyTickets.tsx:32 | two digit strings joined by a dash can be split apart again |
| MyTickets.TicketsFor | src/components/MyTickets.tsx:29-39 | one record per index, in order, each with its index and its id, the round, `encrypted` set, and the shared status and name |
| MyTickets.RoundTickets | src/components/MyTickets.tsx:18-44 | no records when the indices are missing; otherwise one per index, in order, with the status from (drawn, isWinner) and the round's name, 'Unknown' and not drawn when the round data is missing |
| MyTickets.RoundTicketsShareStatus | src/components/MyTickets.tsx:29-39 | all records of a round share the status, the round name and the round id |
| MyTickets.MissingRoundIsPending | src/components/MyTickets.tsx:27 | without round data every ticket of that round is pending and named 'Unknown' |
| MyTickets.ShownRounds | src/components/MyTickets.tsx:60-62 | the number of rounds shown is the count capped at 5, and 0 when the count is missing |
| MyTickets.Flatten | src/components/MyTickets.tsx:62 | `flat()` on a list of lists; MyTickets.FlattenMembership and MyTickets.FlattenDistinctIds state its contract |
| MyTickets.FlattenMembership | src/components/MyTickets.tsx:62 | an element is in the flattened list exactly when it is in one of the lists |
| MyTickets.PerRound | src/components/MyTickets.tsx:61 | the five per-round lists in round order, list r being round r's tickets |
| MyTickets.AllTickets | src/components/MyTickets.tsx:59 | empty without an address |
| MyTickets.AllTicketsMembership | src/components/MyTickets.tsx:51-62 | with an address, a ticket is listed exactly when it belongs to a round below min(count, 5); no round from 5 on ever appears |
| MyTickets.AllTicketsInRoundOrder | src/components/MyTickets.tsx:61-62 | one more round appends exactly that round's list at the end, so the rounds come in order |
| MyTickets.RoundTicketsDistinct | src/components/MyTickets.tsx:32 | a round whose indices do not repeat yields distinct ids, all tagged with that round |
| MyTickets.FlattenDistinctIds | src/components/MyTickets.tsx:62 | joining lists whose ids are distinct and tagged with their round gives distinct ids |
| MyTickets.AllTicketsDistinctIds | src/components/MyTickets.tsx:58-63 | when no round lists an index twice, every listed ticket has a distinct id, as the React list keys require |

## Left out

- The page and its timers are not modelled. This covers loadSdk's script tag, the polling with `setInterval`/`setTimeout` (fhe.ts lines 41-89) and its console output. `Env.sdkOnWindow` and `Env.scriptLoad` stand for their outcome: a load that settles with the SDK, or one that rejects with one of loadSdk's messages.
- The SDK, viem's `getAddress` and the wallets are foreign code. `initSDK`, `createInstance`, `createEncryptedInput`/`add32`/`encrypt` and `getAddress` are uninterpreted results in `Env` that may fail. EIP-55 checksumming needs Keccak-256, which is not modelled.
- `useLottery`'s `buyTicket` (a wrapper over wagmi's `writeContract`) is an abstract outcome, `submitted`; src/hooks/useLottery.ts is not part of this model. `isPending` and `isConfirming` are inputs. The wagmi reads (`useAccount`, `useRoundsCount`, `useRound`, `useUserTickets`, `useIsWinner`) are parameters.
- Fhe.Gateway.InitializeFhe: each await is modelled as settling at once, so two concurrent calls, each bootstrapping the SDK, are not modelled. The source has no single-flight guard: `fheInstancePromise` is never assigned. For the same reason, a second caller waiting on a still pending `sdkPromise` is not modelled.
- The `!sdk` check of initializeFHE (fhe.ts lines 140-142) is not modelled: loadSdk only resolves with `window.relayerSDK` once it is set.
- The SDK configuration object (`SepoliaConfig` spread with `network`) is not modelled. Only the provider it carries appears, in `CreateInstance(network)`.
- BuyTicket.Dialog.HandleBuyTicket: it runs one attempt with no other handler in between. Events arriving between the awaits are modelled by driving `BeginBuy`, `ResumeInitialize`, `ResumeEncrypt` and `ResumeSubmit` one at a time. A second `handleBuyTicket` while one is running is excluded, because the buy button is disabled then (line 153).
- BuyTicket.Dialog.ResumeSubmit: the failure branch may never be taken in the source. `buyTicket` returns the result of wagmi's `writeContract`, which may report a rejected signature through the hook's `error` instead of rejecting, and the attempt would then show "Transaction submitted!". The abstract `submitted` covers both outcomes.
- The delayed success toast and close after `isConfirmed` (BuyTicketDialog.tsx lines 85-90) are not modelled: they are a timer side effect. The rendering of toasts, the spinner texts and `toLocaleString` dates are presentation only.
- Numbers are exact integers. JavaScript's `Number` rounds above 2^53, so `Number(drawTime) * 1000`, `Number(ticketIdx)` and very long typed numbers are modelled without that rounding.
- Ecma.ParseInt covers the integral results of parseInt with no radix. Digit strings too long for a double are read exactly (see the previous line).
- BuyTicket.Dialog.BuyDisabled and BuyTicket.Dialog.InputLocked are the button rules (lines 117, 147, 153). They are predicates, and `EnabledBuyCanStart`, `Input` and the label's contract state what follows from them.

## Behaviour worth knowing

The model follows the code in each of these.

- `fheInstancePromise` is declared (fhe.ts line 24) and cleared (line 203) but never assigned, so concurrent `initializeFHE` calls each bootstrap. The model states the cache only after a completed initialization (`InitializeCached`, `InitializeIdempotent`).
- The number bound is the constant 0..999999 (BuyTicketDialog.tsx line 41), the same for every round (`MaxLotteryNumber`).
- Only the disabled buy button (line 153) keeps a second attempt from starting; there is no other lock (`BeginBuy` requires that the flag is down).
- The attempt ends when `buyTicket` settles (`ResumeSubmit`). Confirmation is only shown through `isConfirming` and `isConfirmed`, and nothing times out.
- The ticket list covers rounds 0 to 4 only (MyTickets.tsx lines 51-55), whatever the round count (`AllTicketsMembership`).
- An `inputProof` that is present but empty is truthy, so `ensureHandlePayload` accepts it (`EnsureHandlePayload` with `Some([])`).
- NaN passes `encryptUint32`'s range check, because every comparison with NaN is false (`OutOfUint32Range`). The dialog's own check rejects NaN first.
- A draw time whose milliseconds exceed 8.64e15 makes an invalid Date, whose `getTime()` is NaN, so such a round is never active (`FarFutureNeverActive`).
- `parseInt` reads "0x1F" as 31 and "1e3" as 1, and it accepts leading white space and a sign, so " 12abc" would read as 12. The field is an `<Input type="number">` (BuyTicketDialog.tsx line 113), and the browser clears a value that is not a valid number. So strings such as " 12abc" and "0x1F" do not reach `handleBuyTicket` that way; strings such as "1e3", "1.5" and "-0" do, and read as 1, 1 and -0.
- `resetFheInstance` keeps the SDK-loading promise, so a failed SDK load stays failed until the page is reloaded (`FailedSdkLoadIsFinal`).
