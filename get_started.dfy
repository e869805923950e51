/**
 * The start-up hook as an object: every event it sends and every call it
 * makes into its collaborators is appended to `outbox`, and `showNavLinks`
 * is the navigation-link flag. Each entry action of the state machine is a
 * method proved to append exactly the trace its model function describes.
 */
module GetStarted {
  import opened JsValues
  import opened StartupEvents
  import opened ModeResolver
  import opened EffectHandlers
  import opened NavLinks

  class GetStartedHook {
    var outbox: seq<Action>
    var showNavLinks: bool
    ghost var navHistory: seq<NavOp>

    /** The flag is always the value the last setting left. */
    ghost predicate Valid()
      reads this`showNavLinks, this`navHistory
    {
      showNavLinks == NavAfter(navHistory)
    }

    /** The links are hidden exactly when the last setting came from sending CONTINUE. */
    lemma NavLinksHiddenIffContinued()
      requires Valid()
      ensures !showNavLinks <==> navHistory != [] && navHistory[|navHistory| - 1] == ContinueSent
    {
      NavHiddenIffContinuedLast(navHistory);
    }

    constructor ()
      ensures Valid() && outbox == [] && navHistory == [] && showNavLinks
    {
      outbox := [];
      showNavLinks := InitialNavLinks;
      navHistory := [];
    }

    method Perform(a: Action)
      modifies this`outbox
      ensures outbox == old(outbox) + [a]
    {
      outbox := outbox + [a];
    }

    /** `send(event)`. */
    method SendEvent(e: Event)
      modifies this`outbox
      ensures outbox == old(outbox) + [Send(e)]
    {
      Perform(Send(e));
    }

    method SetShowNavLinks(op: NavOp)
      modifies this`showNavLinks, this`navHistory
      ensures Valid() && navHistory == old(navHistory) + [op] && showNavLinks == Setting(op)
    {
      showNavLinks := Setting(op);
      navHistory := navHistory + [op];
    }

    // ------------------------------------------------------------ navigation

    method OnSendContinue()
      modifies this
      ensures Valid() && outbox == old(outbox) + [Send(Continue)]
      ensures navHistory == old(navHistory) + [ContinueSent] && !showNavLinks
    {
      SendEvent(Continue);
      SetShowNavLinks(ContinueSent);
    }

    method OnSendBack()
      modifies this
      ensures Valid() && outbox == old(outbox) + [Send(Back)]
      ensures navHistory == old(navHistory) + [BackSent] && showNavLinks
    {
      SendEvent(Back);
      SetShowNavLinks(BackSent);
    }

    /** Entering SPV start-up continues at once. */
    method IsAtStartSpv()
      modifies this
      ensures Valid() && outbox == old(outbox) + [Send(Continue)]
      ensures navHistory == old(navHistory) + [ContinueSent] && !showNavLinks
    {
      OnSendContinue();
    }

    // ------------------------------------------------------------ mode resolver

    method PreStartDaemon(cli: CliOptions, daemonSynced: bool, isSPV: bool, isAdvancedDaemon: bool,
                          selected: Option<Wallet>)
      modifies this`outbox
      ensures outbox == old(outbox) + PreStartTrace(cli, daemonSynced, isSPV, isAdvancedDaemon, selected)
    {
      Perform(CliOptionsRead);
      SendRemote(cli);
      Resolve(daemonSynced, isSPV, isAdvancedDaemon, selected);
    }

    /** The remote-daemon event, when RPC options are given. */
    method SendRemote(cli: CliOptions)
      modifies this`outbox
      ensures outbox == old(outbox) + SendAll(RemoteEvents(cli))
    {
      if cli.rpcPresent {
        var rpcCliRemote := RemoteCredentials(cli.rpcUser, cli.rpcPass, cli.rpcCert, cli.rpcHost, cli.rpcPort);
        SendEvent(StartCliRemoteDaemon(rpcCliRemote));
      }
    }

    /** The wallet choice when synced or SPV, otherwise the three mode starts. */
    method Resolve(daemonSynced: bool, isSPV: bool, isAdvancedDaemon: bool, selected: Option<Wallet>)
      modifies this`outbox
      ensures outbox == old(outbox) + ResolvedTrace(daemonSynced, isSPV, isAdvancedDaemon, selected)
    {
      if daemonSynced || isSPV {
        Perform(SelectedWalletRead);
        if selected.Some? {
          SendEvent(SubmitChooseWallet(PreSelected(selected.value, Modes(isSPV, isAdvancedDaemon))));
        } else {
          SendEvent(ChooseWallet(NothingSelected(Modes(isSPV, isAdvancedDaemon))));
        }
        return;
      }
      SendEvent(StartSpv(isSPV));
      SendEvent(StartAdvancedDaemon(FromPreStart(Modes(isSPV, isAdvancedDaemon))));
      SendEvent(StartRegularDaemon(Modes(isSPV, isAdvancedDaemon)));
    }

    // ------------------------------------------------------------ daemon

    method IsAtStartingDaemon(appdata: Option<string>, outcome: Outcome<Started>)
      modifies this`outbox
      ensures outbox == old(outbox) + StartingDaemonTrace(appdata, outcome)
    {
      Perform(StartDaemonCalled(appdata));
      match outcome
      case Ok(started) => SendEvent(ConnectDaemon(started));
      case Err(error) => SendEvent(ErrorStartingDaemon(error));
    }

    method IsAtDaemonError(event: Option<DaemonErrorEvent>, isAdvancedDaemon: bool)
      modifies this`outbox
      ensures outbox == old(outbox) + DaemonErrorTrace(event, isAdvancedDaemon)
    {
      if event.None? {
        return;
      }
      if event.value.payload.None? {
        Perform(TypeErrorRaised);
        return;
      }
      var error := event.value.payload.value;
      if !Truthy(error) {
        return;
      }
      if !isAdvancedDaemon {
        Perform(ErrorPageScheduled);
        return;
      }
      SendEvent(StartAdvancedDaemon(AfterDaemonError(error)));
    }

    method IsAtConnectingDaemon(remoteCredentials: Option<RemoteCredentials>, outcome: Outcome<()>)
      modifies this`outbox
      ensures outbox == old(outbox) + ConnectingDaemonTrace(remoteCredentials, outcome)
    {
      var daemonRemote := remoteCredentials.Some?;
      Perform(ConnectDaemonCalled(remoteCredentials, daemonRemote));
      if outcome.Ok? {
        SendEvent(SyncDaemon);
        return;
      }
      var error := outcome.error;
      var connected := Read(error, ConnectedField);
      if connected.None? {
        Perform(TypeErrorRaised);
        return;
      }
      if !PropTruthy(connected.value) {
        var text := Read(error, ErrorField).value;
        if text.Missing? {
          Perform(TypeErrorRaised);
          return;
        }
        if text.Str? && Includes(text.s, SslHandshakeFailure) {
          error := P521Remediation;
        }
      }
      SendEvent(ErrorConnectingDaemon(error));
    }

    method IsAtCheckNetworkMatch(outcome: Outcome<()>)
      modifies this`outbox
      ensures outbox == old(outbox) + CheckNetworkMatchTrace(outcome)
    {
      Perform(CheckNetworkMatchCalled);
      match outcome
      case Ok(_) => SendEvent(ChooseWallet(NetworkMatched));
      case Err(error) => SendEvent(ErrorNetworkDaemon(error));
    }

    method IsAtSyncingDaemon(outcome: Outcome<()>)
      modifies this`outbox
      ensures outbox == old(outbox) + SyncingDaemonTrace(outcome)
    {
      Perform(SyncDaemonCalled);
      match outcome
      case Ok(_) => SendEvent(CheckNetworkMatch);
      case Err(error) => SendEvent(ErrorSyncingDaemon(error));
    }

    // ------------------------------------------------------------ wallet

    /** `submitChosenWallet({ selectedWallet, error })`: the payload is destructured off the argument. */
    method SubmitChosenWallet(argument: SubmitArgument)
      modifies this`outbox
      ensures outbox == old(outbox) + [Send(SubmitChooseWallet(SubmissionOf(argument)))]
      ensures argument.Record? ==>
        outbox == old(outbox) + [Send(SubmitChooseWallet(Chosen(argument.selectedWallet, argument.recordError)))]
    {
      var selectedWallet, error := None, Nullish;
      if argument.Record? {
        selectedWallet, error := argument.selectedWallet, argument.recordError;
      }
      SendEvent(SubmitChooseWallet(Chosen(selectedWallet, error)));
    }

    method IsAtChoosingWallet(eventWallet: Option<Wallet>, contextWallet: Option<Wallet>,
                              availableWalletsError: ErrorValue, outcome: Outcome<seq<Wallet>>)
      requires Valid()
      modifies this
      ensures Valid()
      ensures outbox == old(outbox) + ChoosingWalletTrace(eventWallet, contextWallet, availableWalletsError, outcome)
      // the nav links are shown exactly when the wallet list is fetched
      ensures FetchesWallets(eventWallet, contextWallet, availableWalletsError) ==>
        navHistory == old(navHistory) + [WalletListRequested] && showNavLinks
      ensures !FetchesWallets(eventWallet, contextWallet, availableWalletsError) ==>
        navHistory == old(navHistory) && showNavLinks == old(showNavLinks)
    {
      var selectedWallet := if eventWallet.Some? then eventWallet else contextWallet;
      if selectedWallet.Some? {
        SubmitChosenWallet(WalletItself(selectedWallet.value));
        return;
      }
      if Truthy(availableWalletsError) {
        return;
      }
      Perform(GetAvailableWalletsCalled);
      SetShowNavLinks(WalletListRequested);
      match outcome
      case Ok(w) => SendEvent(ChooseWallet(Listed(w)));
      case Err(error) => SendEvent(AvailableWalletError(error));
    }

    /** `onShowCreateWallet({ isNew })`: the master public key and the Trezor flag stay undefined. */
    method OnShowCreateWallet(isNew: Prop)
      modifies this`outbox
      ensures outbox == old(outbox) + [Send(ShowCreateWallet(isNew))]
    {
      SendEvent(ShowCreateWallet(isNew));
    }

    method OnSendError(error: ErrorValue)
      modifies this`outbox
      ensures outbox == old(outbox) + [Send(Error(error))]
    {
      SendEvent(Error(error));
    }

    method IsAtStartWallet(contextWallet: Option<Wallet>, passPhrase: Option<string>, outcome: Outcome<bool>)
      modifies this`outbox
      ensures outbox == old(outbox) + StartWalletTrace(contextWallet, passPhrase, outcome)
    {
      if contextWallet.None? {
        Perform(TypeErrorRaised);
        return;
      }
      var selectedWallet := contextWallet.value;
      var hasPassPhrase := HasText(passPhrase);
      Perform(StartWalletCalled(selectedWallet, hasPassPhrase));
      match outcome {
        case Ok(discoverAccountsComplete) =>
          Perform(SelectedWalletSet(selectedWallet));
          if !discoverAccountsComplete && !HasText(passPhrase) && !selectedWallet.isWatchingOnly && !selectedWallet.isTrezor {
            SendEvent(WalletDiscoverAccountsPass);
          } else {
            SendEvent(SyncRpc);
          }
        case Err(error) =>
          StartWalletFailed(selectedWallet, error);
      }
    }

    /** The `catch` of `isAtStartWallet`. */
    method StartWalletFailed(selectedWallet: Wallet, error: ErrorValue)
      modifies this`outbox
      ensures outbox == old(outbox) + [StartWalletFailureAction(selectedWallet, error)]
    {
      if !selectedWallet.finished {
        var message := Read(error, MessageField);
        if message.None? || !message.value.Str? {
          Perform(TypeErrorRaised);
          return;
        }
        if Includes(message.value.s, MissingDatabaseFile) {
          OnShowCreateWallet(Read(error, WalletCreatedAsNewField).value);
          return;
        }
      }
      if error == LoaderError(OpenWalletInputPrivPass) {
        SendEvent(WalletDiscoverAccountsPass);
        return;
      }
      if error == LoaderError(OpenWalletInput) {
        SendEvent(WalletPubpassInput);
        return;
      }
      OnSendError(error);
    }

    method IsSyncingRpc(input: SyncRpcInput, outcome: Outcome<()>)
      modifies this`outbox
      ensures outbox == old(outbox) + SyncingRpcTrace(input, outcome)
    {
      if input.syncAttemptRequest {
        return;
      }
      ghost var start := outbox;
      if input.synced {
        SendEvent(ShowSettingUpWallet);
      }
      assert outbox == start + SendAll(SyncedFirst(input));
      StartSync(input, outcome);
    }

    /** The one call `isSyncingRPC` makes, and its settlement. */
    method StartSync(input: SyncRpcInput, outcome: Outcome<()>)
      modifies this`outbox
      ensures outbox == old(outbox) + ([SyncCall(input)] + SendAll(SyncSettled(input, outcome)))
    {
      if input.isSPV {
        Perform(StartSpvSyncCalled(input.passPhrase));
        SpvSyncSettle(outcome);
      } else {
        Perform(RetryStartRpcCalled(input.passPhrase));
        RetryRpcSettle(outcome);
      }
    }

    /** The `then` and `catch` of the SPV sync started by `isSyncingRPC`. */
    method SpvSyncSettle(outcome: Outcome<()>)
      modifies this`outbox
      ensures outbox == old(outbox) + SendAll(SpvSyncSettled(outcome))
    {
      match outcome {
        case Ok(_) =>
          SendEvent(ShowSettingUpWallet);
        case Err(error) =>
          if error == LoaderError(OpenWalletInputPrivPass) {
            SendEvent(WalletDiscoverAccountsPass);
          }
          SendEvent(ErrorSyncingWallet(error));
      }
    }

    /** The `then` and `catch` of the RPC retry started by `isSyncingRPC`. */
    method RetryRpcSettle(outcome: Outcome<()>)
      modifies this`outbox
      ensures outbox == old(outbox) + SendAll(RetryRpcSettled(outcome))
    {
      match outcome {
        case Ok(_) =>
          SendEvent(ShowSettingUpWallet);
        case Err(error) =>
          if error == LoaderError(OpenWalletInputPrivPass) {
            SendEvent(WalletDiscoverAccountsPass);
          } else {
            SendEvent(ErrorSyncingWallet(error));
          }
      }
    }

    // ------------------------------------------------------------ callbacks handed to the views

    method OnSendCreateWallet(createNew: bool)
      modifies this`outbox
      ensures outbox == old(outbox) + [Send(CreateWallet(createNew))]
    {
      SendEvent(CreateWallet(createNew));
    }

    method OnSendSetPassphrase(passPhrase: string)
      modifies this`outbox
      ensures outbox == old(outbox) + [Send(SetPassphrase(passPhrase))]
    {
      SendEvent(SetPassphrase(passPhrase));
    }

    method OnSendDiscoverAccountsPassInput()
      modifies this`outbox
      ensures outbox == old(outbox) + [Send(WalletDiscoverAccountsPass)]
    {
      SendEvent(WalletDiscoverAccountsPass);
    }

    method OnShowReleaseNotes()
      modifies this`outbox
      ensures outbox == old(outbox) + [Send(ShowReleaseNotes)]
    {
      SendEvent(ShowReleaseNotes);
    }

    method SubmitRemoteCredentials(remoteCredentials: RemoteCredentials)
      modifies this`outbox
      ensures outbox == old(outbox) + [Send(SubmitRemote(remoteCredentials))]
    {
      SendEvent(SubmitRemote(remoteCredentials));
    }

    method SubmitAppdataPath(appdata: string)
      modifies this`outbox
      ensures outbox == old(outbox) + [Send(SubmitAppdata(appdata))]
    {
      SendEvent(SubmitAppdata(appdata));
    }

    method OnShowTrezorConfig()
      modifies this`outbox
      ensures outbox == old(outbox) + [Send(ShowTrezorConfig)]
    {
      SendEvent(ShowTrezorConfig);
    }

    method OnShowSettings()
      modifies this`outbox
      ensures outbox == old(outbox) + [Send(ShowSettings)]
    {
      SendEvent(ShowSettings);
    }

    method OnShowLogs()
      modifies this`outbox
      ensures outbox == old(outbox) + [Send(ShowLogs)]
    {
      SendEvent(ShowLogs);
    }
  }

  /** The submission the wallet list view makes when the user picks `w`. */
  function ViewSubmission(w: Wallet): SubmitArgument {
    Record(Some(w), Nullish)
  }

  /**
   * The traces of a light-wallet start, handler after handler: the resolver,
   * the wallet listing, the user's pick in the wallet list view, the wallet
   * start and the SPV sync. Which handler the machine runs next, and the
   * context it passes, are the machine's own and are chosen here by hand.
   */
  function SpvStartTrace(w: Wallet): seq<Action> {
    PreStartTrace(CliOptions(false, "", "", "", "", ""), false, true, false, None) +
    ChoosingWalletTrace(None, None, Nullish, Ok([w])) +
    [Send(SubmitChooseWallet(SubmissionOf(ViewSubmission(w))))] +
    StartWalletTrace(Some(w), None, Ok(true)) +
    SyncingRpcTrace(SyncRpcInput(false, false, true, None), Ok(()))
  }

  /**
   * A light-wallet start with no pre-selected wallet and no RPC options: the
   * resolver goes straight to wallet choice, the list is fetched, the user
   * submits a wallet, it starts with discovery complete, and the SPV sync
   * finishes.
   */
  lemma SpvStartSends(w: Wallet)
    ensures Sent(SpvStartTrace(w)) ==
      [ChooseWallet(NothingSelected(Modes(true, false))), ChooseWallet(Listed([w])),
       SubmitChooseWallet(Chosen(Some(w), Nullish)), SyncRpc, ShowSettingUpWallet]
  {
    SpvStartStepsSend(w);
    SentFive(PreStartTrace(CliOptions(false, "", "", "", "", ""), false, true, false, None),
             ChoosingWalletTrace(None, None, Nullish, Ok([w])),
             [Send(SubmitChooseWallet(SubmissionOf(ViewSubmission(w))))],
             StartWalletTrace(Some(w), None, Ok(true)),
             SyncingRpcTrace(SyncRpcInput(false, false, true, None), Ok(())));
  }

  /** What each step of that start sends on its own. */
  lemma SpvStartStepsSend(w: Wallet)
    ensures Sent(PreStartTrace(CliOptions(false, "", "", "", "", ""), false, true, false, None)) ==
      [ChooseWallet(NothingSelected(Modes(true, false)))]
    ensures Sent(ChoosingWalletTrace(None, None, Nullish, Ok([w]))) == [ChooseWallet(Listed([w]))]
    ensures Sent([Send(SubmitChooseWallet(SubmissionOf(ViewSubmission(w))))]) ==
      [SubmitChooseWallet(Chosen(Some(w), Nullish))]
    ensures Sent(StartWalletTrace(Some(w), None, Ok(true))) == [SyncRpc]
    ensures Sent(SyncingRpcTrace(SyncRpcInput(false, false, true, None), Ok(()))) == [ShowSettingUpWallet]
  {
    PreStartSent(CliOptions(false, "", "", "", "", ""), false, true, false, None);
    SentOne(Send(SubmitChooseWallet(SubmissionOf(ViewSubmission(w)))));
    StartWalletTraceShape(Some(w), None, Ok(true));
    SyncingRpcSuccess(SyncRpcInput(false, false, true, None));
  }

  /** The events of five traces run one after the other. */
  lemma SentFive(t1: seq<Action>, t2: seq<Action>, t3: seq<Action>, t4: seq<Action>, t5: seq<Action>)
    ensures Sent(t1 + t2 + t3 + t4 + t5) == Sent(t1) + Sent(t2) + Sent(t3) + Sent(t4) + Sent(t5)
  {
    SentAppend(t1, t2);
    SentAppend(t1 + t2, t3);
    SentAppend(t1 + t2 + t3, t4);
    SentAppend(t1 + t2 + t3 + t4, t5);
  }

  /** The same start driven through the hook object: the links stay shown. */
  method SpvStartScenario(w: Wallet) returns (sent: seq<Event>, navLinks: bool)
    ensures sent == [ChooseWallet(NothingSelected(Modes(true, false))), ChooseWallet(Listed([w])),
                     SubmitChooseWallet(Chosen(Some(w), Nullish)), SyncRpc, ShowSettingUpWallet]
    ensures navLinks
  {
    var hook := new GetStartedHook();
    hook.PreStartDaemon(CliOptions(false, "", "", "", "", ""), false, true, false, None);
    assert hook.outbox == PreStartTrace(CliOptions(false, "", "", "", "", ""), false, true, false, None);
    hook.IsAtChoosingWallet(None, None, Nullish, Ok([w]));
    hook.SubmitChosenWallet(ViewSubmission(w));
    hook.IsAtStartWallet(Some(w), None, Ok(true));
    hook.IsSyncingRpc(SyncRpcInput(false, false, true, None), Ok(()));
    SpvStartSends(w);
    sent := Sent(hook.outbox);
    navLinks := hook.showNavLinks;
  }
}
