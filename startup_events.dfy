/**
 * The events the start-up hook sends to the wallet start-up state machine,
 * the calls it makes into its collaborators, and the trace that records
 * both in the order they happen.
 */
module StartupEvents {
  import opened JsValues

  /** A wallet as the hook sees it: `selectedWallet.value.*` and `selectedWallet.finished`. */
  datatype Wallet = Wallet(name: string, isWatchingOnly: bool, isTrezor: bool, finished: bool)

  /** What `wallet.getCLIOptions()` reports about a remote RPC connection. */
  datatype CliOptions = CliOptions(
    rpcPresent: bool, rpcUser: string, rpcPass: string, rpcCert: string, rpcHost: string, rpcPort: string)

  /** The remote credentials object: `rpc_user`, `rpc_pass`, `rpc_cert`, `rpc_host`, `rpc_port`. */
  datatype RemoteCredentials = RemoteCredentials(user: string, pass: string, cert: string, host: string, port: string)

  /** The `isSPV` and `isAdvancedDaemon` flags the resolver attaches to its events. */
  datatype Modes = Modes(isSPV: bool, isAdvancedDaemon: bool)

  /** The value `onStartDaemon` resolves with. */
  datatype Started = Started(credentials: string, appdata: string)

  /**
   * What `submitChosenWallet` is called with: the `{ selectedWallet, error }`
   * record the wallet list view passes, or a wallet itself, as the
   * choosing-wallet handler passes it.
   */
  datatype SubmitArgument = Record(selectedWallet: Option<Wallet>, recordError: ErrorValue) | WalletItself(wallet: Wallet)

  /**
   * The payload of SUBMIT_CHOOSE_WALLET. `PreSelected` is sent by the resolver
   * with the wallet itself; `Chosen` is sent by `submitChosenWallet`, with the
   * `selectedWallet` and `error` properties of its argument (`None` and
   * `Nullish` for undefined).
   */
  datatype Submission = PreSelected(wallet: Wallet, modes: Modes) | Chosen(chosenWallet: Option<Wallet>, chosenError: ErrorValue)

  /**
   * The payload `submitChosenWallet` builds by destructuring its argument.
   * A wallet has none of the two properties, so both read as undefined.
   */
  function SubmissionOf(argument: SubmitArgument): (r: Submission)
    ensures argument.Record? ==> r == Chosen(argument.selectedWallet, argument.recordError)
    ensures argument.WalletItself? ==> r == Chosen(None, Nullish)
  {
    match argument
    case Record(w, e) => Chosen(w, e)
    case WalletItself(_) => Chosen(None, Nullish)
  }

  /** The payload of CHOOSE_WALLET, one shape per place that sends it. */
  datatype WalletOffer = NothingSelected(modes: Modes) | NetworkMatched | Listed(wallets: seq<Wallet>)

  /** The payload of START_ADVANCED_DAEMON. */
  datatype AdvancedTrigger = FromPreStart(modes: Modes) | AfterDaemonError(cause: ErrorValue)

  /** An asynchronous effect's settlement: resolved with a value or rejected with an error. */
  datatype Outcome<+T> = Ok(value: T) | Err(error: ErrorValue)

  /** The events sent to the state machine, one constructor per event type. */
  datatype Event =
    | StartCliRemoteDaemon(remoteCredentials: RemoteCredentials)
    | SubmitChooseWallet(submission: Submission)
    | ChooseWallet(offer: WalletOffer)
    | StartSpv(isSPV: bool)
    | StartAdvancedDaemon(trigger: AdvancedTrigger)
    | StartRegularDaemon(modes: Modes)
    | ConnectDaemon(started: Started)
    | ErrorStartingDaemon(error: ErrorValue)
    | SyncDaemon
    | ErrorConnectingDaemon(error: ErrorValue)
    | CheckNetworkMatch
    | ErrorNetworkDaemon(error: ErrorValue)
    | ErrorSyncingDaemon(error: ErrorValue)
    | AvailableWalletError(error: ErrorValue)
    | WalletDiscoverAccountsPass
    | SyncRpc
    | ShowCreateWallet(isNew: Prop)
    | WalletPubpassInput
    | Error(error: ErrorValue)
    | ShowSettingUpWallet
    | ErrorSyncingWallet(error: ErrorValue)
    | Continue
    | Back
    | CreateWallet(createNew: bool)
    | SetPassphrase(passPhrase: string)
    | ShowReleaseNotes
    | SubmitRemote(remoteCredentials: RemoteCredentials)
    | SubmitAppdata(appdata: string)
    | ShowTrezorConfig
    | ShowSettings
    | ShowLogs

  /** The three events the resolver fans out when no mode is settled yet. */
  predicate IsModeStart(e: Event) {
    e.StartSpv? || e.StartAdvancedDaemon? || e.StartRegularDaemon?
  }

  /**
   * One step of a handler: an event sent, a call into a collaborator of the
   * hook, or a TypeError raised by a property read, after which the handler
   * does nothing more.
   */
  datatype Action =
    | Send(event: Event)
    | CliOptionsRead       // `wallet.getCLIOptions()`
    | SelectedWalletRead   // `getSelectedWallet()`
    | StartDaemonCalled(appdata: Option<string>)
    | ConnectDaemonCalled(remoteCredentials: Option<RemoteCredentials>, isRemote: bool)
    | CheckNetworkMatchCalled
    | SyncDaemonCalled
    | GetAvailableWalletsCalled
    | StartWalletCalled(wallet: Wallet, hasPassPhrase: bool)
    | SelectedWalletSet(wallet: Wallet)
    | StartSpvSyncCalled(passPhrase: Option<string>)
    | RetryStartRpcCalled(passPhrase: Option<string>)
    | ErrorPageScheduled
    | TypeErrorRaised

  /** The events of a trace, in order. */
  function Sent(t: seq<Action>): (r: seq<Event>)
    ensures |r| <= |t|
    decreases |t|
  {
    if t == [] then []
    else (if t[0].Send? then [t[0].event] else []) + Sent(t[1..])
  }

  lemma {:induction false} SentAppend(a: seq<Action>, b: seq<Action>)
    ensures Sent(a + b) == Sent(a) + Sent(b)
    decreases |a|
  {
    if a == [] {
      assert a + b == b;
    } else {
      var head := if a[0].Send? then [a[0].event] else [];
      assert (a + b)[0] == a[0];
      assert (a + b)[1..] == a[1..] + b;
      calc {
        Sent(a + b);
        head + Sent(a[1..] + b);
        { SentAppend(a[1..], b); }
        head + (Sent(a[1..]) + Sent(b));
        (head + Sent(a[1..])) + Sent(b);
      }
    }
  }

  lemma SentOne(a: Action)
    ensures Sent([a]) == if a.Send? then [a.event] else []
  {
    assert [a][1..] == [];
  }

  /** A sequence of events sent one after the other. */
  function SendAll(events: seq<Event>): (t: seq<Action>)
    ensures |t| == |events| && forall i :: 0 <= i < |t| ==> t[i] == Send(events[i])
    decreases |events|
  {
    if events == [] then [] else [Send(events[0])] + SendAll(events[1..])
  }

  lemma {:induction false} SentSendAll(events: seq<Event>)
    ensures Sent(SendAll(events)) == events
    decreases |events|
  {
    if events != [] {
      var t := SendAll(events);
      assert t[1..] == SendAll(events[1..]);
      SentSendAll(events[1..]);
    }
  }

  /** A trace that ends in a TypeError: nothing runs after the raise. */
  predicate EndsInRaise(t: seq<Action>) {
    t != [] && t[|t| - 1] == TypeErrorRaised && TypeErrorRaised !in t[..|t| - 1]
  }
}
