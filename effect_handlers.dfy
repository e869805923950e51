/**
 * The state machine's entry actions in the start-up hook, each as the trace
 * of what it does: each asynchronous effect contributes its call, and its
 * given settlement decides what follows.
 */
module EffectHandlers {
  import opened JsValues
  import opened StartupEvents

  // ---------------------------------------------------------------- isAtStartingDaemon

  function StartingDaemonTrace(appdata: Option<string>, outcome: Outcome<Started>): (t: seq<Action>)
    ensures |t| == 2 && t[0] == StartDaemonCalled(appdata)
    // exactly one event: success connects, failure reports the start error
    ensures outcome.Ok? ==> Sent(t) == [ConnectDaemon(outcome.value)]
    ensures outcome.Err? ==> Sent(t) == [ErrorStartingDaemon(outcome.error)]
  {
    var e := match outcome
      case Ok(started) => ConnectDaemon(started)
      case Err(error) => ErrorStartingDaemon(error);
    SentOne(StartDaemonCalled(appdata));
    SentAppend([StartDaemonCalled(appdata)], [Send(e)]);
    SentOne(Send(e));
    [StartDaemonCalled(appdata), Send(e)]
  }

  // ---------------------------------------------------------------- isAtDaemonError

  /** The event that entered the error state: its `payload`, when it has one, holds `error`. */
  datatype DaemonErrorEvent = DaemonErrorEvent(payload: Option<ErrorValue>)

  function DaemonErrorTrace(event: Option<DaemonErrorEvent>, isAdvancedDaemon: bool): (t: seq<Action>)
    // no event, or one whose error is falsy: nothing happens
    ensures (event.None? || (event.value.payload.Some? && !Truthy(event.value.payload.value))) ==> t == []
    // destructuring a missing payload raises
    ensures event.Some? && event.value.payload.None? ==> t == [TypeErrorRaised]
    // an error outside advanced mode leaves the flow for the error page, sending nothing
    ensures event.Some? && event.value.payload.Some? && Truthy(event.value.payload.value) && !isAdvancedDaemon ==>
      t == [ErrorPageScheduled] && Sent(t) == []
    // an error in advanced mode returns to the advanced start-up, carrying the error
    ensures event.Some? && event.value.payload.Some? && Truthy(event.value.payload.value) && isAdvancedDaemon ==>
      Sent(t) == [StartAdvancedDaemon(AfterDaemonError(event.value.payload.value))] && ErrorPageScheduled !in t
  {
    match event
    case None => []
    case Some(DaemonErrorEvent(payload)) =>
      match payload
      case None => [TypeErrorRaised]
      case Some(error) =>
        if !Truthy(error) then []
        else if !isAdvancedDaemon then
          SentOne(ErrorPageScheduled);
          [ErrorPageScheduled]
        else
          SentOne(Send(StartAdvancedDaemon(AfterDaemonError(error))));
          [Send(StartAdvancedDaemon(AfterDaemonError(error)))]
  }

  // ---------------------------------------------------------------- isAtConnectingDaemon

  const SslHandshakeFailure := "SSLV3_ALERT_HANDSHAKE_FAILURE"

  /** The remediation message that replaces a P-521 handshake failure. */
  const P521Remediation := Element(P521CurveError)

  /** `!error.connected && error.error.includes && error.error.includes(SslHandshakeFailure)`, when it does not raise. */
  predicate HandshakeFailure(error: ErrorValue) {
    !error.Nullish? && !PropTruthy(Read(error, ConnectedField).value) &&
    Read(error, ErrorField).value.Str? && Includes(Read(error, ErrorField).value.s, SslHandshakeFailure)
  }

  /**
   * The error a failed connect reports, or `None` when evaluating the guard
   * raises: `error.connected` on a nullish error, or `error.error.includes`
   * on an error whose `error` property is undefined.
   */
  function ConnectFailure(error: ErrorValue): (r: Option<ErrorValue>)
    // rewritten to the remediation message iff the guard holds
    ensures r == Some(P521Remediation) <==> HandshakeFailure(error)
    // otherwise, when nothing raises, the error passes through unchanged
    ensures r.Some? && !HandshakeFailure(error) ==> r.value == error
    // the guard raises only on a nullish error, or a missing `error` on one not connected
    ensures r.None? <==>
      (error.Nullish? ||
       (!PropTruthy(Read(error, ConnectedField).value) && Read(error, ErrorField).value.Missing?))
  {
    match Read(error, ConnectedField)
    case None => None
    case Some(connected) =>
      if PropTruthy(connected) then Some(error)
      else
        match Read(error, ErrorField).value
        case Missing => None
        case Bool(_) => Some(error)
        case Str(s) => Some(if Includes(s, SslHandshakeFailure) then P521Remediation else error)
  }

  /** Any error text containing the handshake failure, on an error not connected, is rewritten. */
  lemma HandshakeTextRewritten(error: ErrorValue, pre: string, post: string)
    requires !error.Nullish? && !PropTruthy(Read(error, ConnectedField).value)
    requires Read(error, ErrorField).value == Str(pre + SslHandshakeFailure + post)
    ensures ConnectFailure(error) == Some(P521Remediation)
  {
    IncludesInfix(pre, SslHandshakeFailure, post);
  }

  function ConnectingDaemonTrace(remoteCredentials: Option<RemoteCredentials>, outcome: Outcome<()>): (t: seq<Action>)
    // the connect is remote exactly when remote credentials came with the event
    ensures |t| == 2 && t[0] == ConnectDaemonCalled(remoteCredentials, remoteCredentials.Some?)
    // success: exactly SYNC_DAEMON
    ensures outcome.Ok? ==> Sent(t) == [SyncDaemon]
    // failure: exactly one ERROR_CONNECTING_DAEMON with the (possibly rewritten) error, unless the guard raises
    ensures outcome.Err? && ConnectFailure(outcome.error).Some? ==>
      Sent(t) == [ErrorConnectingDaemon(ConnectFailure(outcome.error).value)]
    ensures outcome.Err? && ConnectFailure(outcome.error).None? ==>
      Sent(t) == [] && EndsInRaise(t)
  {
    var call := ConnectDaemonCalled(remoteCredentials, remoteCredentials.Some?);
    var rest := match outcome
      case Ok(_) => Send(SyncDaemon)
      case Err(error) =>
        match ConnectFailure(error)
        case None => TypeErrorRaised
        case Some(reported) => Send(ErrorConnectingDaemon(reported));
    SentOne(call);
    SentOne(rest);
    SentAppend([call], [rest]);
    [call, rest]
  }

  // ---------------------------------------------------------------- isAtCheckNetworkMatch

  function CheckNetworkMatchTrace(outcome: Outcome<()>): (t: seq<Action>)
    ensures |t| == 2 && t[0] == CheckNetworkMatchCalled
    ensures outcome.Ok? ==> Sent(t) == [ChooseWallet(NetworkMatched)]
    ensures outcome.Err? ==> Sent(t) == [ErrorNetworkDaemon(outcome.error)]
  {
    var e := if outcome.Ok? then ChooseWallet(NetworkMatched) else ErrorNetworkDaemon(outcome.error);
    SentOne(CheckNetworkMatchCalled);
    SentOne(Send(e));
    SentAppend([CheckNetworkMatchCalled], [Send(e)]);
    [CheckNetworkMatchCalled, Send(e)]
  }

  // ---------------------------------------------------------------- isAtSyncingDaemon

  function SyncingDaemonTrace(outcome: Outcome<()>): (t: seq<Action>)
    ensures |t| == 2 && t[0] == SyncDaemonCalled
    ensures outcome.Ok? ==> Sent(t) == [CheckNetworkMatch]
    ensures outcome.Err? ==> Sent(t) == [ErrorSyncingDaemon(outcome.error)]
  {
    var e := if outcome.Ok? then CheckNetworkMatch else ErrorSyncingDaemon(outcome.error);
    SentOne(SyncDaemonCalled);
    SentOne(Send(e));
    SentAppend([SyncDaemonCalled], [Send(e)]);
    [SyncDaemonCalled, Send(e)]
  }

  // ---------------------------------------------------------------- isAtChoosingWallet

  /** `event?.selectedWallet || ctx?.selectedWallet`. */
  function WalletToSubmit(eventWallet: Option<Wallet>, contextWallet: Option<Wallet>): (w: Option<Wallet>)
    ensures eventWallet.Some? ==> w == eventWallet
    ensures eventWallet.None? ==> w == contextWallet
  {
    if eventWallet.Some? then eventWallet else contextWallet
  }

  /** Whether the choosing-wallet handler fetches the wallet list (and shows the nav links). */
  predicate FetchesWallets(eventWallet: Option<Wallet>, contextWallet: Option<Wallet>, availableWalletsError: ErrorValue) {
    WalletToSubmit(eventWallet, contextWallet).None? && !Truthy(availableWalletsError)
  }

  function ChoosingWalletTrace(eventWallet: Option<Wallet>, contextWallet: Option<Wallet>,
                               availableWalletsError: ErrorValue, outcome: Outcome<seq<Wallet>>): (t: seq<Action>)
    // a wallet in the event wins over one in the context; either is submitted without fetching
    ensures eventWallet.Some? ==> t == [Send(SubmitChooseWallet(SubmissionOf(WalletItself(eventWallet.value))))]
    ensures eventWallet.None? && contextWallet.Some? ==>
      t == [Send(SubmitChooseWallet(SubmissionOf(WalletItself(contextWallet.value))))]
    // no wallet and a listing error already stored: nothing is sent and nothing is fetched
    ensures eventWallet.None? && contextWallet.None? && Truthy(availableWalletsError) ==> t == []
    // otherwise the list is fetched once and its settlement sends one event
    ensures FetchesWallets(eventWallet, contextWallet, availableWalletsError) ==>
      |t| == 2 && t[0] == GetAvailableWalletsCalled && |Sent(t)| == 1 &&
      Sent(t)[0] == (if outcome.Ok? then ChooseWallet(Listed(outcome.value)) else AvailableWalletError(outcome.error))
    ensures GetAvailableWalletsCalled in t <==> FetchesWallets(eventWallet, contextWallet, availableWalletsError)
  {
    var selected := WalletToSubmit(eventWallet, contextWallet);
    if selected.Some? then
      [Send(SubmitChooseWallet(SubmissionOf(WalletItself(selected.value))))]
    else if Truthy(availableWalletsError) then
      []
    else
      var e := if outcome.Ok? then ChooseWallet(Listed(outcome.value)) else AvailableWalletError(outcome.error);
      SentOne(GetAvailableWalletsCalled);
      SentOne(Send(e));
      SentAppend([GetAvailableWalletsCalled], [Send(e)]);
      [GetAvailableWalletsCalled, Send(e)]
  }

  /**
   * The handler hands `submitChosenWallet` the wallet itself rather than a
   * `{ selectedWallet, error }` record, so the event it sends carries neither.
   */
  lemma ChoosingWalletSubmitsNoWallet(eventWallet: Option<Wallet>, contextWallet: Option<Wallet>,
                                      availableWalletsError: ErrorValue, outcome: Outcome<seq<Wallet>>)
    requires WalletToSubmit(eventWallet, contextWallet).Some?
    ensures Sent(ChoosingWalletTrace(eventWallet, contextWallet, availableWalletsError, outcome)) ==
      [SubmitChooseWallet(Chosen(None, Nullish))]
  {
    SentOne(Send(SubmitChooseWallet(Chosen(None, Nullish))));
  }

  // ---------------------------------------------------------------- isAtStartWallet

  const MissingDatabaseFile := "missing database file"

  /** The event a successful start sends: ask for the private pass phrase, or go on syncing. */
  function StartedWalletEvent(wallet: Wallet, passPhrase: Option<string>, discoverAccountsComplete: bool): (e: Event)
    ensures e == WalletDiscoverAccountsPass <==>
      (!discoverAccountsComplete && !HasText(passPhrase) && !wallet.isWatchingOnly && !wallet.isTrezor)
    ensures e != WalletDiscoverAccountsPass ==> e == SyncRpc
  {
    if !discoverAccountsComplete && !HasText(passPhrase) && !wallet.isWatchingOnly && !wallet.isTrezor
    then WalletDiscoverAccountsPass
    else SyncRpc
  }

  /**
   * `!selectedWallet.finished && error.message.includes(MissingDatabaseFile)`:
   * `None` when it raises (the wallet is unfinished and `error.message` is not a string).
   */
  function MissingDatabase(wallet: Wallet, error: ErrorValue): (r: Option<bool>)
    ensures wallet.finished ==> r == Some(false)
    ensures r.None? <==> !wallet.finished && (error.Nullish? || !Read(error, MessageField).value.Str?)
    // wallet creation exactly for an unfinished wallet whose string message names the missing file
    ensures r == Some(true) <==>
      (!wallet.finished && !error.Nullish? && Read(error, MessageField).value.Str? &&
       Includes(Read(error, MessageField).value.s, MissingDatabaseFile))
  {
    if wallet.finished then Some(false)
    else
      match Read(error, MessageField)
      case None => None
      case Some(Str(message)) => Some(Includes(message, MissingDatabaseFile))
      case Some(_) => None
  }

  /** The one event a failed start sends: the first matching case decides. */
  function StartWalletFailureEvent(error: ErrorValue): (e: Event)
    ensures error == LoaderError(OpenWalletInputPrivPass) ==> e == WalletDiscoverAccountsPass
    ensures error == LoaderError(OpenWalletInput) ==> e == WalletPubpassInput
    ensures !error.LoaderError? ==> e == Error(error)
  {
    if error == LoaderError(OpenWalletInputPrivPass) then WalletDiscoverAccountsPass
    else if error == LoaderError(OpenWalletInput) then WalletPubpassInput
    else Error(error)
  }

  /** The one failure action: a raise, wallet creation, or the first matching case's event. */
  function StartWalletFailureAction(wallet: Wallet, error: ErrorValue): (a: Action)
    // a raise exactly when the message test raises
    ensures a == TypeErrorRaised <==> MissingDatabase(wallet, error).None?
    // wallet creation exactly when the message names the missing database file
    ensures (a.Send? && a.event.ShowCreateWallet?) <==> MissingDatabase(wallet, error) == Some(true)
    // a finished wallet never tests the message: the first matching case decides
    ensures wallet.finished ==> a == Send(StartWalletFailureEvent(error))
  {
    match MissingDatabase(wallet, error)
    case None => TypeErrorRaised
    case Some(true) => Send(ShowCreateWallet(Read(error, WalletCreatedAsNewField).value))
    case Some(false) => Send(StartWalletFailureEvent(error))
  }

  /**
   * The loader's codes are strings, which have no `message`: on an unfinished
   * wallet the message test raises before the code is compared, so the
   * pass-phrase events are reached only for a finished wallet.
   */
  lemma UnfinishedWalletCodesRaise(wallet: Wallet, code: LoaderCode)
    requires !wallet.finished
    ensures StartWalletFailureAction(wallet, LoaderError(code)) == TypeErrorRaised
    ensures StartWalletFailureAction(wallet.(finished := true), LoaderError(code)) ==
      Send(if code == OpenWalletInputPrivPass then WalletDiscoverAccountsPass else WalletPubpassInput)
  {
  }

  function StartWalletTrace(contextWallet: Option<Wallet>, passPhrase: Option<string>, outcome: Outcome<bool>): (t: seq<Action>)
    // reading the selected wallet's flags raises when there is none; otherwise the start comes first
    ensures contextWallet.None? <==> t == [TypeErrorRaised]
    ensures contextWallet.Some? ==>
      (|t| == (if outcome.Ok? then 3 else 2) && t[0] == StartWalletCalled(contextWallet.value, HasText(passPhrase)))
  {
    match contextWallet
    case None => [TypeErrorRaised]
    case Some(wallet) =>
      var call := StartWalletCalled(wallet, HasText(passPhrase));
      match outcome
      case Ok(discoverAccountsComplete) =>
        [call, SelectedWalletSet(wallet), Send(StartedWalletEvent(wallet, passPhrase, discoverAccountsComplete))]
      case Err(error) => [call, StartWalletFailureAction(wallet, error)]
  }

  /** What `isAtStartWallet` does, case by case. */
  lemma StartWalletTraceShape(contextWallet: Option<Wallet>, passPhrase: Option<string>, outcome: Outcome<bool>)
    ensures var t := StartWalletTrace(contextWallet, passPhrase, outcome);
      // without a selected wallet, reading its flags raises before anything starts
      (contextWallet.None? ==> t == [TypeErrorRaised]) &&
      (contextWallet.Some? ==> |t| >= 2 && t[0] == StartWalletCalled(contextWallet.value, HasText(passPhrase))) &&
      // the wallet is recorded as selected only on success
      ((exists w :: SelectedWalletSet(w) in t) <==> contextWallet.Some? && outcome.Ok?)
    ensures contextWallet.Some? ==>
      var wallet := contextWallet.value;
      var t := StartWalletTrace(contextWallet, passPhrase, outcome);
      // success: the wallet is recorded as selected, then exactly one event
      (outcome.Ok? ==>
        |t| == 3 && t[1] == SelectedWalletSet(wallet) &&
        Sent(t) == [StartedWalletEvent(wallet, passPhrase, outcome.value)] && t[2] == Send(Sent(t)[0])) &&
      // failure with a missing database file on an unfinished wallet: wallet creation, new as the error says
      (outcome.Err? && MissingDatabase(wallet, outcome.error) == Some(true) ==>
        Sent(t) == [ShowCreateWallet(Read(outcome.error, WalletCreatedAsNewField).value)]) &&
      // any other failure: exactly the first matching case
      (outcome.Err? && MissingDatabase(wallet, outcome.error) == Some(false) ==>
        Sent(t) == [StartWalletFailureEvent(outcome.error)]) &&
      // an unfinished wallet whose error has no string message: the read raises
      (outcome.Err? && MissingDatabase(wallet, outcome.error).None? ==>
        Sent(t) == [] && EndsInRaise(t))
  {
    match contextWallet
    case None =>
    case Some(wallet) =>
      match outcome
      case Ok(discoverAccountsComplete) => StartWalletOkSent(wallet, passPhrase, discoverAccountsComplete);
      case Err(error) => StartWalletErrSent(wallet, passPhrase, error);
  }

  /** A successful start: the call, the wallet recorded as selected, then the one event. */
  lemma StartWalletOkSent(wallet: Wallet, passPhrase: Option<string>, discoverAccountsComplete: bool)
    ensures var t := StartWalletTrace(Some(wallet), passPhrase, Ok(discoverAccountsComplete));
      t[1] == SelectedWalletSet(wallet) &&
      Sent(t) == [StartedWalletEvent(wallet, passPhrase, discoverAccountsComplete)] && t[2] == Send(Sent(t)[0])
  {
    var call := StartWalletCalled(wallet, HasText(passPhrase));
    var e := StartedWalletEvent(wallet, passPhrase, discoverAccountsComplete);
    SentOne(call);
    SentOne(SelectedWalletSet(wallet));
    SentOne(Send(e));
    SentAppend([call], [SelectedWalletSet(wallet)]);
    SentAppend([call, SelectedWalletSet(wallet)], [Send(e)]);
    assert [call, SelectedWalletSet(wallet)] + [Send(e)] == StartWalletTrace(Some(wallet), passPhrase, Ok(discoverAccountsComplete));
  }

  /** A failed start: the call, then the one failure action, and the wallet is not recorded. */
  lemma StartWalletErrSent(wallet: Wallet, passPhrase: Option<string>, error: ErrorValue)
    ensures var t := StartWalletTrace(Some(wallet), passPhrase, Err(error));
      var last := StartWalletFailureAction(wallet, error);
      (forall w :: SelectedWalletSet(w) !in t) &&
      Sent(t) == (if last.Send? then [last.event] else []) && EndsInRaise(t) == (last == TypeErrorRaised)
  {
    var call := StartWalletCalled(wallet, HasText(passPhrase));
    var last := StartWalletFailureAction(wallet, error);
    SentOne(call);
    SentOne(last);
    SentAppend([call], [last]);
    assert [call] + [last] == StartWalletTrace(Some(wallet), passPhrase, Err(error));
  }

  // ---------------------------------------------------------------- isSyncingRPC

  /** The closure values and context fields `isSyncingRPC` reads. */
  datatype SyncRpcInput = SyncRpcInput(syncAttemptRequest: bool, synced: bool, isSPV: bool, passPhrase: Option<string>)

  /** What the SPV sync's settlement sends. */
  function SpvSyncSettled(outcome: Outcome<()>): (r: seq<Event>)
    ensures outcome.Ok? ==> r == [ShowSettingUpWallet]
    // a failure is always reported; a private pass phrase error also asks for it, first
    ensures outcome.Err? ==>
      r != [] && r[|r| - 1] == ErrorSyncingWallet(outcome.error) &&
      (outcome.error == LoaderError(OpenWalletInputPrivPass) <==> r == [WalletDiscoverAccountsPass, ErrorSyncingWallet(outcome.error)]) &&
      (outcome.error != LoaderError(OpenWalletInputPrivPass) <==> |r| == 1)
  {
    match outcome
    case Ok(_) => [ShowSettingUpWallet]
    case Err(error) =>
      (if error == LoaderError(OpenWalletInputPrivPass) then [WalletDiscoverAccountsPass] else []) +
      [ErrorSyncingWallet(error)]
  }

  /** What the RPC retry's settlement sends. */
  function RetryRpcSettled(outcome: Outcome<()>): (r: seq<Event>)
    ensures |r| == 1
    ensures outcome.Ok? ==> r == [ShowSettingUpWallet]
    // a private pass phrase error only asks for it; any other failure is reported
    ensures outcome.Err? ==> r == [if outcome.error == LoaderError(OpenWalletInputPrivPass) then WalletDiscoverAccountsPass
                                   else ErrorSyncingWallet(outcome.error)]
  {
    match outcome
    case Ok(_) => [ShowSettingUpWallet]
    case Err(error) =>
      if error == LoaderError(OpenWalletInputPrivPass) then [WalletDiscoverAccountsPass]
      else [ErrorSyncingWallet(error)]
  }

  /** What `isSyncingRPC` sends before its one call: SHOW_SETTING_UP_WALLET when already synced. */
  function SyncedFirst(input: SyncRpcInput): seq<Event> {
    if input.synced then [ShowSettingUpWallet] else []
  }

  /** The one call `isSyncingRPC` makes: the SPV sync on the SPV path, the RPC retry otherwise. */
  function SyncCall(input: SyncRpcInput): Action {
    if input.isSPV then StartSpvSyncCalled(input.passPhrase) else RetryStartRpcCalled(input.passPhrase)
  }

  /** The events that call's settlement sends. */
  function SyncSettled(input: SyncRpcInput, outcome: Outcome<()>): seq<Event> {
    if input.isSPV then SpvSyncSettled(outcome) else RetryRpcSettled(outcome)
  }

  function SyncingRpcTrace(input: SyncRpcInput, outcome: Outcome<()>): (t: seq<Action>)
    // nothing at all while a sync attempt is in flight
    ensures t == [] <==> input.syncAttemptRequest
    // otherwise one call, after SHOW_SETTING_UP_WALLET when already synced
    ensures !input.syncAttemptRequest ==>
      (|SyncedFirst(input)| < |t| && t[|SyncedFirst(input)|] == SyncCall(input))
  {
    if input.syncAttemptRequest then []
    else SendAll(SyncedFirst(input)) + [SyncCall(input)] + SendAll(SyncSettled(input, outcome))
  }

  /**
   * A sync attempt in flight: nothing at all. Otherwise SHOW_SETTING_UP_WALLET
   * first when synced, and the handler goes on: the events after it are those
   * of the settlement of its one call.
   */
  lemma SyncingRpcSent(input: SyncRpcInput, outcome: Outcome<()>)
    ensures input.syncAttemptRequest ==> SyncingRpcTrace(input, outcome) == []
    ensures !input.syncAttemptRequest ==>
      Sent(SyncingRpcTrace(input, outcome)) == SyncedFirst(input) + SyncSettled(input, outcome)
  {
    if !input.syncAttemptRequest {
      var first, call, settled := SendAll(SyncedFirst(input)), SyncCall(input), SendAll(SyncSettled(input, outcome));
      SentAppend(first, [call]);
      SentAppend(first + [call], settled);
      SentOne(call);
      SentSendAll(SyncedFirst(input));
      SentSendAll(SyncSettled(input, outcome));
    }
  }

  /** Success on either path: SHOW_SETTING_UP_WALLET, a second time when already synced. */
  lemma SyncingRpcSuccess(input: SyncRpcInput)
    requires !input.syncAttemptRequest
    ensures Sent(SyncingRpcTrace(input, Ok(()))) ==
      if input.synced then [ShowSettingUpWallet, ShowSettingUpWallet] else [ShowSettingUpWallet]
  {
    SyncingRpcSent(input, Ok(()));
  }

  /**
   * Failure on the full-node path: a wrong private pass phrase only asks for it,
   * any other error is reported; on the SPV path the error is reported in both
   * cases, after asking for the pass phrase when it was wrong.
   */
  lemma SyncingRpcFailure(input: SyncRpcInput, error: ErrorValue)
    requires !input.syncAttemptRequest
    ensures var sent := Sent(SyncingRpcTrace(input, Err(error)));
      var privPass := error == LoaderError(OpenWalletInputPrivPass);
      (!input.isSPV ==> sent == SyncedFirst(input) + [if privPass then WalletDiscoverAccountsPass else ErrorSyncingWallet(error)]) &&
      (input.isSPV ==>
        sent == SyncedFirst(input) + (if privPass then [WalletDiscoverAccountsPass] else []) + [ErrorSyncingWallet(error)])
  {
    SyncingRpcSent(input, Err(error));
  }

  /** The SPV path never retries the RPC, the full-node path never starts an SPV sync. */
  lemma SyncingRpcCallsOne(input: SyncRpcInput, outcome: Outcome<()>, p: Option<string>)
    requires !input.syncAttemptRequest
    ensures var t := SyncingRpcTrace(input, outcome);
      (input.isSPV ==> StartSpvSyncCalled(input.passPhrase) in t && RetryStartRpcCalled(p) !in t) &&
      (!input.isSPV ==> RetryStartRpcCalled(input.passPhrase) in t && StartSpvSyncCalled(p) !in t)
  {
    var t := SyncingRpcTrace(input, outcome);
    var first, call := SendAll(SyncedFirst(input)), SyncCall(input);
    var settled := SendAll(SyncSettled(input, outcome));
    assert t[|first|] == call;
    forall a | a in t ensures a.Send? || a == call {
      var i :| 0 <= i < |t| && t[i] == a;
      if i < |first| { assert t[i] == first[i]; }
      else if i > |first| { assert t[i] == settled[i - |first| - 1]; }
    }
  }
}
