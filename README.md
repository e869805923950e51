# Wallet start-up hook (decrediton `useGetStarted`)

This project models the decision logic of the start-up hook of decrediton's
"Get started" page, `app/components/views/GetStartedPage/hooks.js`. The hook
wires a wallet start-up state machine into React, and its entry actions decide
which events go to that machine:

- **the mode resolver** `preStartDaemon`. It sends the first events from the
  command-line RPC options, the daemon-synced flag, the SPV flag and the
  pre-selected wallet;
- **the entry actions** `isAtStartingDaemon`, `isAtDaemonError`,
  `isAtConnectingDaemon`, `isAtCheckNetworkMatch`, `isAtSyncingDaemon`,
  `isAtChoosingWallet`, `isAtStartWallet` and `isSyncingRPC`. Each starts one
  asynchronous effect, and the effect's settlement decides what is sent;
- **the error normaliser** `getError`;
- **the sync-stage chain** in the page's effect, where the first of five
  status flags that is set selects the stage;
- **the navigation-link flag** `showNavLinks`, with the callbacks handed to the
  views that only send one event.

It is organised in these modules:

- `JsValues` has the JavaScript values the hook inspects. The error values an
  effect can reject with are `null`/`undefined`, strings, the loader's code
  constants, React elements, `Error` instances and other objects. The module
  also states the property reads as JavaScript does them: a read on
  `null`/`undefined` raises. It also has truthiness and
  `String.prototype.includes`.
- `StartupEvents` has the events, the calls into collaborators, and the
  *trace* (`seq<Action>`) that records both in order. `Sent` projects a trace
  onto its events.
- `ModeResolver`, `EffectHandlers`, `ErrorDisplay`, `SyncStage` and `NavLinks`
  describe each piece as pure functions, with lemmas stating what it sends.
  - An asynchronous effect's settlement is an input, `Ok(value)` or
    `Err(error)`.
  - A TypeError raised by a property read ends the trace with
    `TypeErrorRaised`.
- `GetStarted.GetStartedHook` is the hook as an object:
  - `outbox` holds everything sent and called;
  - `showNavLinks` is the flag, and the ghost `navHistory` records every
    setting of it.

  Each entry action is a method. It is proved to append exactly its model
  function's trace, and to keep `showNavLinks == NavAfter(navHistory)`.

Some of what the code does is easy to misread, and the model keeps it as written:

- The comment above `preStartDaemon` (lines 269-271) says only one of the
  choices is chosen. The code does not return after sending
  `START_CLI_REMOTE_DAEMON` (lines 283-287), so the synced/SPV event or the
  three mode starts still follow it.
- With SPV on, the resolver sends `CHOOSE_WALLET` or `SUBMIT_CHOOSE_WALLET`
  (lines 291-310). It reaches `START_SPV` only when the daemon is not synced
  and SPV is off, and `START_SPV` is then sent with `isSPV` false.
- The SPV sync's failure handler does not return after sending
  `WALLET_DISCOVERACCOUNTS_PASS` (lines 214-217), so a wrong private pass
  phrase also sends `ERROR_SYNCING_WALLET`. With `synced === true`, the handler
  goes on after its first `SHOW_SETTING_UP_WALLET` (lines 204-206), and a
  successful sync sends it a second time.
- The connect-failure guard reads `error.connected` and `error.error.includes`
  (lines 106-107). It raises when the error is `null`/`undefined`, or is not
  connected and has no `error` property, and then nothing is sent.
- The start-wallet failure handler tests `error.message` first when the
  wallet is unfinished (lines 174-177). The loader's codes are strings without
  a `message`, so for an unfinished wallet that test raises. The two
  pass-phrase cases (lines 184-192) are reached only for a finished wallet.
- The choosing-wallet handler passes the wallet itself to
  `submitChosenWallet` (line 138), which destructures a
  `{ selectedWallet, error }` record (line 370). A wallet has neither
  property, so that event carries neither.

## Model

| member | source | states |
|---|---|---|
| JsValues.Read | app/components/views/GetStartedPage/hooks.js:106-107 | a property read raises exactly on `null`/`undefined`; an `Error`'s `message` is its message string; strings, loader codes and elements have none of the properties read |
| JsValues.Includes | app/components/views/GetStartedPage/hooks.js:107-108 | `s.includes(sub)`: `sub` occurs in `s` at some index; `IncludesInfix` shows that any string with `sub` anywhere in it includes `sub` |
| JsValues.IncludesInfix | app/components/views/GetStartedPage/hooks.js:107-108 | `pre + sub + post` includes `sub`, for all strings |
| ErrorDisplay.GetError | app/components/views/GetStartedPage/hooks.js:237-258 | nothing is shown iff the error is falsy; an element is passed on as it is; an `Error` shows its message; exactly the other objects are stringified; a truthy primitive is returned unchanged |
| ErrorDisplay.GetErrorStable | app/components/views/GetStartedPage/hooks.js:237-267 | normalising what `getError` shows gives the same display again, for every error other than a plain object and an `Error` with an empty message |
| ErrorDisplay.EmptyMessageNotStable | app/components/views/GetStartedPage/hooks.js:247-249 | an `Error` with an empty message shows `""`, and that string normalised again shows nothing |
| ModeResolver.CliCredentials | app/components/views/GetStartedPage/hooks.js:276-282 | the remote credentials copy `rpcUser`, `rpcPass`, `rpcCert`, `rpcHost` and `rpcPort` field by field |
| ModeResolver.WalletChoice | app/components/views/GetStartedPage/hooks.js:295-309 | `SUBMIT_CHOOSE_WALLET` with the wallet and the flags exactly when a wallet is selected, otherwise `CHOOSE_WALLET` with nothing selected and the flags |
| ModeResolver.PreStartTrace | app/components/views/GetStartedPage/hooks.js:272-322 | the options are read first; then the remote event when RPC options are given, then two actions (the read and the wallet event) or the three mode starts; `PreStartReads`, `PreStartSent` and `PreStartTraceShape` state the rest |
| ModeResolver.PreStartReads | app/components/views/GetStartedPage/hooks.js:272-322 | the command-line options are read first, always; the selected wallet is read iff the daemon is synced or SPV is on; everything else the resolver does is a send |
| ModeResolver.ResolvedSent | app/components/views/GetStartedPage/hooks.js:291-321 | after the remote-daemon event, the resolver sends the one wallet event when synced or SPV, otherwise the three mode starts |
| ModeResolver.PreStartSent | app/components/views/GetStartedPage/hooks.js:272-322 | the events of the resolver's trace are the remote-daemon event, when RPC options are given, then what follows it |
| ModeResolver.PreStartRemoteChoice | app/components/views/GetStartedPage/hooks.js:275-310 | RPC options given, synced or SPV: the remote event, then the wallet event |
| ModeResolver.PreStartRemoteModes | app/components/views/GetStartedPage/hooks.js:275-321 | RPC options given, neither synced nor SPV: the remote event, then the three mode starts |
| ModeResolver.PreStartChoice | app/components/views/GetStartedPage/hooks.js:291-310 | no RPC options, synced or SPV: the wallet event alone |
| ModeResolver.PreStartModes | app/components/views/GetStartedPage/hooks.js:311-321 | no RPC options, neither synced nor SPV: the three mode starts alone |
| ModeResolver.PreStartRemoteFirst | app/components/views/GetStartedPage/hooks.js:275-287 | `START_CLI_REMOTE_DAEMON` comes first exactly when RPC options are given |
| ModeResolver.PreStartChoiceLast | app/components/views/GetStartedPage/hooks.js:291-310 | synced or SPV: the wallet event is last, `SUBMIT_CHOOSE_WALLET` iff a wallet is selected, and no mode start is sent |
| ModeResolver.PreStartModesLast | app/components/views/GetStartedPage/hooks.js:311-321 | otherwise the three mode starts end the events, in order, and no wallet event is sent |
| ModeResolver.PreStartTraceShape | app/components/views/GetStartedPage/hooks.js:272-322 | of those events, `START_CLI_REMOTE_DAEMON` comes first iff RPC options are present, and it does not stop there. Synced or SPV: one more event, `SUBMIT_CHOOSE_WALLET` iff a wallet is pre-selected, otherwise `CHOOSE_WALLET`, with no mode start. Otherwise it ends with `START_SPV`, `START_ADVANCED_DAEMON`, `START_REGULAR_DAEMON`, in that order |
| ModeResolver.CliRemoteThenMore | app/components/views/GetStartedPage/hooks.js:275-291 | with RPC options present, at least two events are sent, and the first carries the command-line credentials verbatim |
| GetStarted.GetStartedHook.PreStartDaemon | app/components/views/GetStartedPage/hooks.js:272-322 | the reads and sends, in order, are exactly the resolver's trace |
| GetStarted.GetStartedHook.SendRemote | app/components/views/GetStartedPage/hooks.js:275-287 | sends the remote-daemon event iff RPC options are given |
| GetStarted.GetStartedHook.Resolve | app/components/views/GetStartedPage/hooks.js:291-321 | reads the selected wallet and sends the wallet event when synced or SPV, otherwise sends the three mode starts |
| EffectHandlers.StartingDaemonTrace | app/components/views/GetStartedPage/hooks.js:68-81 | the daemon is started with the event's appdata, then exactly one event: `CONNECT_DAEMON` with what the start returned, or `ERROR_STARTING_DAEMON` with the error |
| GetStarted.GetStartedHook.IsAtStartingDaemon | app/components/views/GetStartedPage/hooks.js:68-81 | appends exactly that trace |
| EffectHandlers.DaemonErrorTrace | app/components/views/GetStartedPage/hooks.js:82-96 | no event or a falsy error: nothing; a missing payload raises; outside advanced mode the error page is scheduled and nothing is sent; in advanced mode exactly `START_ADVANCED_DAEMON` carrying the error, without the error page |
| GetStarted.GetStartedHook.IsAtDaemonError | app/components/views/GetStartedPage/hooks.js:82-96 | appends exactly that trace |
| EffectHandlers.ConnectFailure | app/components/views/GetStartedPage/hooks.js:104-117 | the error is replaced by the P-521 remediation message iff it is not connected and its `error` string contains `SSLV3_ALERT_HANDSHAKE_FAILURE`; otherwise it passes unchanged; the guard raises exactly on a nullish error or an unconnected one without `error` |
| EffectHandlers.HandshakeTextRewritten | app/components/views/GetStartedPage/hooks.js:105-116 | any error that is not connected and whose `error` string has `SSLV3_ALERT_HANDSHAKE_FAILURE` anywhere in it is replaced by the remediation message |
| EffectHandlers.HandshakeFailure | app/components/views/GetStartedPage/hooks.js:105-108 | the guard: not connected, an `error` string, and the handshake text in it; `ConnectFailure` proves the rewrite happens exactly when it holds |
| EffectHandlers.ConnectingDaemonTrace | app/components/views/GetStartedPage/hooks.js:97-119 | the connect is remote iff credentials came with the event; success sends exactly `SYNC_DAEMON`; failure sends exactly one `ERROR_CONNECTING_DAEMON` with the possibly rewritten error, or nothing when the guard raises |
| GetStarted.GetStartedHook.IsAtConnectingDaemon | app/components/views/GetStartedPage/hooks.js:97-119 | appends exactly that trace, evaluating the guard's reads in the source's order |
| EffectHandlers.CheckNetworkMatchTrace | app/components/views/GetStartedPage/hooks.js:120-126 | the check is called, then exactly `CHOOSE_WALLET` on success or `ERROR_NETWORK_DAEMON` with the error |
| GetStarted.GetStartedHook.IsAtCheckNetworkMatch | app/components/views/GetStartedPage/hooks.js:120-126 | appends exactly that trace |
| EffectHandlers.SyncingDaemonTrace | app/components/views/GetStartedPage/hooks.js:127-133 | the daemon sync is called, then exactly `CHECK_NETWORK_MATCH` on success or `ERROR_SYNCING_DAEMON` with the error |
| GetStarted.GetStartedHook.IsAtSyncingDaemon | app/components/views/GetStartedPage/hooks.js:127-133 | appends exactly that trace |
| EffectHandlers.WalletToSubmit | app/components/views/GetStartedPage/hooks.js:135 | the event's wallet takes precedence over the context's |
| EffectHandlers.ChoosingWalletTrace | app/components/views/GetStartedPage/hooks.js:134-150 | a wallet in the event or the context is handed to `submitChosenWallet` as it is, and the list is not fetched; no wallet and a stored listing error: nothing at all; otherwise the list is fetched once and exactly one event follows (`CHOOSE_WALLET` with the wallets, or `AVAILABLE_WALLET_ERROR`); the list is fetched iff neither holds |
| GetStarted.GetStartedHook.IsAtChoosingWallet | app/components/views/GetStartedPage/hooks.js:134-150 | appends exactly that trace; the nav links are set to shown iff the list is fetched, and are left alone otherwise |
| EffectHandlers.ChoosingWalletSubmitsNoWallet | app/components/views/GetStartedPage/hooks.js:134-139 | when a wallet is found, the one event sent is `SUBMIT_CHOOSE_WALLET` with no wallet and no error, because the handler passes the wallet where a record is destructured |
| StartupEvents.SubmissionOf | app/components/views/GetStartedPage/hooks.js:369-377 | the payload is the record's `selectedWallet` and `error`; a wallet passed in its place gives neither |
| GetStarted.GetStartedHook.SubmitChosenWallet | app/components/views/GetStartedPage/hooks.js:369-377 | sends one `SUBMIT_CHOOSE_WALLET` whose payload is destructured off the argument; for the view's record, its `selectedWallet` and `error` |
| EffectHandlers.StartedWalletEvent | app/components/views/GetStartedPage/hooks.js:157-171 | `WALLET_DISCOVERACCOUNTS_PASS` iff discovery is incomplete, there is no pass phrase, and the wallet is neither watching-only nor Trezor; `SYNC_RPC` otherwise |
| EffectHandlers.MissingDatabase | app/components/views/GetStartedPage/hooks.js:174-177 | a finished wallet never tests the message; on an unfinished one the test raises iff the error has no string `message`, and it holds exactly when that message contains "missing database file" |
| EffectHandlers.StartWalletFailureEvent | app/components/views/GetStartedPage/hooks.js:184-193 | the private-pass-phrase code gives `WALLET_DISCOVERACCOUNTS_PASS`, the public-pass-phrase code gives `WALLET_PUBPASS_INPUT`, any other error `ERROR` carrying it |
| EffectHandlers.StartWalletFailureAction | app/components/views/GetStartedPage/hooks.js:173-194 | the catch raises exactly when the message test raises, asks for wallet creation exactly when the message names the missing database file, and for a finished wallet sends the first matching case's event |
| EffectHandlers.UnfinishedWalletCodesRaise | app/components/views/GetStartedPage/hooks.js:173-192 | on an unfinished wallet, a loader code makes the message test raise; on the same wallet finished it gives `WALLET_DISCOVERACCOUNTS_PASS` or `WALLET_PUBPASS_INPUT` |
| EffectHandlers.StartWalletTrace | app/components/views/GetStartedPage/hooks.js:151-195 | no selected wallet: the read of its flags raises and nothing else happens; otherwise the wallet start comes first, followed by two actions on success and one on failure |
| EffectHandlers.StartWalletTraceShape | app/components/views/GetStartedPage/hooks.js:151-195 | no selected wallet raises before anything starts. Otherwise the wallet is started first. Success: `setSelectedWallet`, then exactly the started event. A failure sends exactly one event, the first matching case: wallet creation with `isNew` from `walletCreatedAsNew`, or the failure event. It raises when the message cannot be tested. The wallet is recorded as selected iff the start succeeded |
| EffectHandlers.StartWalletOkSent | app/components/views/GetStartedPage/hooks.js:156-171 | a successful start records the wallet as selected and then sends exactly the started event |
| EffectHandlers.StartWalletErrSent | app/components/views/GetStartedPage/hooks.js:173-194 | a failed start never records the wallet as selected, sends the failure action's event if it has one, and ends in a raise exactly when that action raises |
| GetStarted.GetStartedHook.IsAtStartWallet | app/components/views/GetStartedPage/hooks.js:151-195 | appends exactly that trace |
| GetStarted.GetStartedHook.StartWalletFailed | app/components/views/GetStartedPage/hooks.js:173-194 | the failure handler appends exactly the one failure action |
| GetStarted.GetStartedHook.OnShowCreateWallet | app/components/views/GetStartedPage/hooks.js:353-362 | sends one `SHOW_CREATE_WALLET` with the given `isNew` |
| GetStarted.GetStartedHook.OnSendError | app/components/views/GetStartedPage/hooks.js:334-336 | sends one `ERROR` carrying the error |
| EffectHandlers.SpvSyncSettled | app/components/views/GetStartedPage/hooks.js:208-218 | SPV sync success: `SHOW_SETTING_UP_WALLET`; failure: `ERROR_SYNCING_WALLET` last, preceded by `WALLET_DISCOVERACCOUNTS_PASS` iff the error is the private-pass-phrase code |
| EffectHandlers.RetryRpcSettled | app/components/views/GetStartedPage/hooks.js:220-233 | RPC retry: exactly one event: `SHOW_SETTING_UP_WALLET` on success, `WALLET_DISCOVERACCOUNTS_PASS` only for the private-pass-phrase code, `ERROR_SYNCING_WALLET` for any other failure |
| EffectHandlers.SyncingRpcTrace | app/components/views/GetStartedPage/hooks.js:196-234 | nothing at all exactly while a sync attempt is in flight; otherwise its one call comes right after the `SHOW_SETTING_UP_WALLET` sent when already synced |
| EffectHandlers.SyncingRpcSent | app/components/views/GetStartedPage/hooks.js:196-234 | a sync attempt in flight: nothing at all; otherwise `SHOW_SETTING_UP_WALLET` first when synced, and the handler goes on with the events of its one call's settlement |
| EffectHandlers.SyncingRpcSuccess | app/components/views/GetStartedPage/hooks.js:204-209 | success on either path sends `SHOW_SETTING_UP_WALLET`, twice when already synced |
| EffectHandlers.SyncingRpcFailure | app/components/views/GetStartedPage/hooks.js:210-233 | after `SHOW_SETTING_UP_WALLET` when already synced: on the full node only `WALLET_DISCOVERACCOUNTS_PASS` for the private-pass-phrase code, else `ERROR_SYNCING_WALLET`; on SPV `ERROR_SYNCING_WALLET` always, after `WALLET_DISCOVERACCOUNTS_PASS` for that code |
| EffectHandlers.SyncingRpcCallsOne | app/components/views/GetStartedPage/hooks.js:207-222 | the SPV path starts the SPV sync and never retries the RPC; the full-node path retries the RPC and never starts the SPV sync |
| GetStarted.GetStartedHook.IsSyncingRpc | app/components/views/GetStartedPage/hooks.js:196-234 | appends exactly the handler's trace |
| GetStarted.GetStartedHook.StartSync | app/components/views/GetStartedPage/hooks.js:207-233 | the one call and its settlement's events |
| GetStarted.GetStartedHook.SpvSyncSettle | app/components/views/GetStartedPage/hooks.js:209-218 | sends exactly the SPV settlement's events |
| GetStarted.GetStartedHook.RetryRpcSettle | app/components/views/GetStartedPage/hooks.js:221-233 | sends exactly the retry settlement's events |
| SyncStage.FirstSet | app/components/views/GetStartedPage/hooks.js:589-630 | the index of the first set flag, with every earlier flag clear; none only when no flag is set |
| SyncStage.SelectStage | app/components/views/GetStartedPage/hooks.js:589-630 | the rescan view is supplied iff the stage is "scanning blocks" |
| SyncStage.SelectStageIsFirstMatch | app/components/views/GetStartedPage/hooks.js:589-630 | the stage chosen is that of the first set flag among missing-cfilter fetch, header fetch, address discovery, rescan, synced; none when none is set |
| SyncStage.EarlierFlagWins | app/components/views/GetStartedPage/hooks.js:589-630 | a set flag hides every later one |
| NavLinks.NavFrom | app/components/views/GetStartedPage/hooks.js:59 | after a history of settings, the flag is the last setting's value, or unchanged with none |
| NavLinks.NavHiddenIffContinuedLast | app/components/views/GetStartedPage/hooks.js:59 | starting from `true`, the links are hidden iff the last setting came from `CONTINUE` |
| GetStarted.GetStartedHook.NavLinksHiddenIffContinued | app/components/views/GetStartedPage/hooks.js:59 | in the hook, `showNavLinks` is false iff the last setting came from sending `CONTINUE` |
| GetStarted.GetStartedHook.constructor | app/components/views/GetStartedPage/hooks.js:59 | nothing sent yet, links shown |
| GetStarted.GetStartedHook.SetShowNavLinks | app/components/views/GetStartedPage/hooks.js:149 | the flag takes the setting's value and the history records it |
| GetStarted.GetStartedHook.OnSendContinue | app/components/views/GetStartedPage/hooks.js:324-327 | sends `CONTINUE`, then hides the links |
| GetStarted.GetStartedHook.OnSendBack | app/components/views/GetStartedPage/hooks.js:329-332 | sends `BACK`, then shows the links |
| GetStarted.GetStartedHook.IsAtStartSpv | app/components/views/GetStartedPage/hooks.js:67 | entering SPV start-up continues at once, hiding the links |
| GetStarted.GetStartedHook.OnSendCreateWallet | app/components/views/GetStartedPage/hooks.js:338-341 | sends one `CREATE_WALLET` with the flag given |
| GetStarted.GetStartedHook.OnSendSetPassphrase | app/components/views/GetStartedPage/hooks.js:343-346 | sends one `SETPASSPHRASE` with the pass phrase |
| GetStarted.GetStartedHook.OnSendDiscoverAccountsPassInput | app/components/views/GetStartedPage/hooks.js:348-351 | sends one `WALLET_DISCOVERACCOUNTS_PASS` |
| GetStarted.GetStartedHook.OnShowReleaseNotes | app/components/views/GetStartedPage/hooks.js:364-367 | sends one `SHOW_RELEASE_NOTES` |
| GetStarted.GetStartedHook.SubmitRemoteCredentials | app/components/views/GetStartedPage/hooks.js:379-382 | sends one `SUBMIT_REMOTE` with the credentials |
| GetStarted.GetStartedHook.SubmitAppdataPath | app/components/views/GetStartedPage/hooks.js:384-387 | sends one `SUBMIT_APPDATA` with the path |
| GetStarted.GetStartedHook.OnShowTrezorConfig | app/components/views/GetStartedPage/hooks.js:389-392 | sends one `SHOW_TREZOR_CONFIG` |
| GetStarted.GetStartedHook.OnShowSettings | app/components/views/GetStartedPage/hooks.js:642-644 | sends one `SHOW_SETTINGS` |
| GetStarted.GetStartedHook.OnShowLogs | app/components/views/GetStartedPage/hooks.js:646 | sends one `SHOW_LOGS` |
| GetStarted.SpvStartStepsSend | app/components/views/GetStartedPage/hooks.js:134-377 | each step of a light-wallet start sends its one event: `CHOOSE_WALLET`, `CHOOSE_WALLET` with the list, the view's `SUBMIT_CHOOSE_WALLET` with the picked wallet, `SYNC_RPC`, `SHOW_SETTING_UP_WALLET` |
| GetStarted.SpvStartSends | app/components/views/GetStartedPage/hooks.js:134-377 | a light-wallet start with no RPC options and no pre-selected wallet sends, in order: `CHOOSE_WALLET`, `CHOOSE_WALLET` with the list, the user's `SUBMIT_CHOOSE_WALLET` with the picked wallet, `SYNC_RPC`, `SHOW_SETTING_UP_WALLET`. The steps are the resolver, the listing, the user's pick in the wallet list view, the wallet start with discovery complete and the SPV sync; the machine's choice of the next step is made by hand |
| GetStarted.SpvStartScenario | app/components/views/GetStartedPage/hooks.js:62-377 | the same start driven through the hook object sends those five events and leaves the links shown |

## Left out

- The state machine itself: its transitions, guards and context updates are
  defined in `stateMachines/GetStartedStateMachine`, which is not part of this
  model. Each entry action takes the event and context fields it reads as
  parameters.
- `isAtStartAdvancedDaemon` and `isAtLoadingConfig` (lines 65-66) do nothing
  and have no member.
- Rendering:
  - `getStateComponent`, the JSX, `setPageComponent` and the localised message
    texts (lines 394-584) are user interface;
  - a message element is an opaque tag, and so are the sync stages' text and
    animation.
- The collaborators from `useDaemonStartup` and `wallet.getCLIOptions` are
  foreign code. Their results are parameters: the options, the selected
  wallet, the flags, and each effect's settlement. Each call to one is
  recorded in the trace, including the two reads of the resolver.
- Promise scheduling:
  - each effect settles once, with a settlement given in advance;
  - a handler's synchronous part precedes its settlement's part;
  - interleaving with other handlers is not modelled;
  - the 500 ms `setTimeout` before `goToErrorPage` is the single action
    `ErrorPageScheduled`.
- A TypeError raised inside a settlement handler ends as an unhandled
  rejection. It is recorded as `TypeErrorRaised`, and nothing else follows.
- The result of `JSON.stringify` is not computed: `ShowJson` keeps the object
  it stringifies.
- `React.isValidElement`, `instanceof Error` and `lodash.isObject` are
  decided by the shape of the error value.
- `==` and `===` are not distinguished. The loader's two codes are string
  constants, compared by identity, and have none of the properties read.
- A string equal to one of the loader's codes is represented only as that
  code (`LoaderError`), never as `Text`; `Text` stands for every other string.
- JavaScript values are restricted:
  - values that are not strings, booleans or the shapes above (numbers,
    arrays) are not modelled;
  - whether a property is missing, a string or a boolean is all that matters;
  - `getDaemonSynced` and `synced` are booleans;
  - `onSendCreateWallet`'s argument is a boolean.
- OnShowCreateWallet: only `isNew` is passed. The master public key and the
  Trezor flag are sent as `undefined`, as the start-wallet handler leaves
  them.
- StartupEvents.SubmissionOf: a wallet is taken to have no `selectedWallet`
  and no `error` property, as its model has only a name, the watching-only,
  Trezor and finished flags. A wallet object that did carry them would pass
  them on.
- The scenario's steps are chosen by hand: which entry action the machine
  runs next, and that it stores the submitted wallet as `selectedWallet` in
  its context, belong to the state machine.
- The `error` and `availableWalletsError` memos (lines 259-267) only apply
  `getError` to the context's fields; they have no member of their own.
