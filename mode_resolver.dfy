/**
 * `preStartDaemon`: the mode resolver that sends the state machine its first
 * events from the command-line RPC options, the daemon-synced flag, the SPV
 * flag and the pre-selected wallet.
 */
module ModeResolver {
  import opened JsValues
  import opened StartupEvents

  /** The remote credentials built from the command-line options, field by field. */
  function CliCredentials(cli: CliOptions): (c: RemoteCredentials)
    ensures c.user == cli.rpcUser && c.pass == cli.rpcPass && c.cert == cli.rpcCert
    ensures c.host == cli.rpcHost && c.port == cli.rpcPort
  {
    RemoteCredentials(cli.rpcUser, cli.rpcPass, cli.rpcCert, cli.rpcHost, cli.rpcPort)
  }

  /** The event that ends the resolver when the daemon is synced or SPV is on. */
  function WalletChoice(selected: Option<Wallet>, modes: Modes): (e: Event)
    // the selection screen is skipped exactly when a wallet is already selected
    ensures e.SubmitChooseWallet? <==> selected.Some?
    ensures e.ChooseWallet? <==> selected.None?
    // either way the event carries the flags it was resolved with
    ensures e.SubmitChooseWallet? ==> e.submission == PreSelected(selected.value, modes)
    ensures e.ChooseWallet? ==> e.offer == NothingSelected(modes)
  {
    if selected.Some? then SubmitChooseWallet(PreSelected(selected.value, modes))
    else ChooseWallet(NothingSelected(modes))
  }

  /** The fan-out of mode-start events, in the order they are sent. */
  function ModeStarts(modes: Modes): seq<Event> {
    [StartSpv(modes.isSPV), StartAdvancedDaemon(FromPreStart(modes)), StartRegularDaemon(modes)]
  }

  /** The remote-daemon event, sent only when RPC options are given. */
  function RemoteEvents(cli: CliOptions): seq<Event> {
    if cli.rpcPresent then [StartCliRemoteDaemon(CliCredentials(cli))] else []
  }

  /** What follows: the wallet choice, read off the selected wallet, or the mode starts. */
  function ResolvedTrace(daemonSynced: bool, isSPV: bool, isAdvancedDaemon: bool, selected: Option<Wallet>): seq<Action> {
    var modes := Modes(isSPV, isAdvancedDaemon);
    if daemonSynced || isSPV then [SelectedWalletRead, Send(WalletChoice(selected, modes))]
    else SendAll(ModeStarts(modes))
  }

  /** Everything `preStartDaemon` does: it reads the options, sends, and reads the selected wallet when it needs it. */
  function PreStartTrace(cli: CliOptions, daemonSynced: bool, isSPV: bool, isAdvancedDaemon: bool,
                         selected: Option<Wallet>): (t: seq<Action>)
    // the options are always read first; the remote event, then two actions or three mode starts
    ensures |t| == 1 + (if cli.rpcPresent then 1 else 0) + (if daemonSynced || isSPV then 2 else 3)
    ensures t[0] == CliOptionsRead
  {
    [CliOptionsRead] + SendAll(RemoteEvents(cli)) + ResolvedTrace(daemonSynced, isSPV, isAdvancedDaemon, selected)
  }

  /** The events the resolver sends, in order. */
  function PreStartEvents(cli: CliOptions, daemonSynced: bool, isSPV: bool, isAdvancedDaemon: bool,
                          selected: Option<Wallet>): seq<Event>
  {
    RemoteEvents(cli) +
    (if daemonSynced || isSPV then [WalletChoice(selected, Modes(isSPV, isAdvancedDaemon))]
     else ModeStarts(Modes(isSPV, isAdvancedDaemon)))
  }

  /** What follows the remote-daemon event sends the wallet choice, or the three mode starts. */
  lemma ResolvedSent(daemonSynced: bool, isSPV: bool, isAdvancedDaemon: bool, selected: Option<Wallet>)
    ensures Sent(ResolvedTrace(daemonSynced, isSPV, isAdvancedDaemon, selected)) ==
      if daemonSynced || isSPV then [WalletChoice(selected, Modes(isSPV, isAdvancedDaemon))]
      else ModeStarts(Modes(isSPV, isAdvancedDaemon))
  {
    var modes := Modes(isSPV, isAdvancedDaemon);
    if daemonSynced || isSPV {
      var choice := Send(WalletChoice(selected, modes));
      assert ResolvedTrace(daemonSynced, isSPV, isAdvancedDaemon, selected) == [SelectedWalletRead] + [choice];
      SentAppend([SelectedWalletRead], [choice]);
      SentOne(SelectedWalletRead);
      SentOne(choice);
    } else {
      SentSendAll(ModeStarts(modes));
    }
  }

  /** The resolver's trace sends exactly those events. */
  lemma PreStartSent(cli: CliOptions, daemonSynced: bool, isSPV: bool, isAdvancedDaemon: bool,
                     selected: Option<Wallet>)
    ensures Sent(PreStartTrace(cli, daemonSynced, isSPV, isAdvancedDaemon, selected)) ==
      PreStartEvents(cli, daemonSynced, isSPV, isAdvancedDaemon, selected)
  {
    var remote := SendAll(RemoteEvents(cli));
    var rest := ResolvedTrace(daemonSynced, isSPV, isAdvancedDaemon, selected);
    SentAppend([CliOptionsRead], remote);
    SentAppend([CliOptionsRead] + remote, rest);
    SentOne(CliOptionsRead);
    SentSendAll(RemoteEvents(cli));
    ResolvedSent(daemonSynced, isSPV, isAdvancedDaemon, selected);
  }

  /** The resolver's two reads: the options first, always; the selected wallet only when synced or SPV. */
  lemma PreStartReads(cli: CliOptions, daemonSynced: bool, isSPV: bool, isAdvancedDaemon: bool,
                      selected: Option<Wallet>)
    ensures var t := PreStartTrace(cli, daemonSynced, isSPV, isAdvancedDaemon, selected);
      t[0] == CliOptionsRead &&
      (SelectedWalletRead in t <==> daemonSynced || isSPV) &&
      // besides these two reads it only sends
      (forall a :: a in t ==> a.Send? || a == CliOptionsRead || a == SelectedWalletRead)
  {
    var t := PreStartTrace(cli, daemonSynced, isSPV, isAdvancedDaemon, selected);
    var remote := SendAll(RemoteEvents(cli));
    var rest := ResolvedTrace(daemonSynced, isSPV, isAdvancedDaemon, selected);
    assert t == [CliOptionsRead] + remote + rest;
    assert forall a :: a in remote ==> a.Send?;
    assert forall a :: a in rest ==> a.Send? || a == SelectedWalletRead;
    if !(daemonSynced || isSPV) {
      assert SelectedWalletRead !in rest;
    } else {
      assert rest[0] == SelectedWalletRead;
    }
  }

  /** RPC options given, synced or SPV: the remote event, then the wallet choice. */
  lemma PreStartRemoteChoice(cli: CliOptions, daemonSynced: bool, isSPV: bool, isAdvancedDaemon: bool,
                             selected: Option<Wallet>)
    requires cli.rpcPresent && (daemonSynced || isSPV)
    ensures PreStartEvents(cli, daemonSynced, isSPV, isAdvancedDaemon, selected) ==
      [StartCliRemoteDaemon(CliCredentials(cli)), WalletChoice(selected, Modes(isSPV, isAdvancedDaemon))]
  {
  }

  /** RPC options given, neither synced nor SPV: the remote event, then the three mode starts. */
  lemma PreStartRemoteModes(cli: CliOptions, daemonSynced: bool, isSPV: bool, isAdvancedDaemon: bool,
                            selected: Option<Wallet>)
    requires cli.rpcPresent && !(daemonSynced || isSPV)
    ensures PreStartEvents(cli, daemonSynced, isSPV, isAdvancedDaemon, selected) ==
      [StartCliRemoteDaemon(CliCredentials(cli))] + ModeStarts(Modes(isSPV, isAdvancedDaemon))
  {
  }

  /** No RPC options, synced or SPV: the wallet choice alone. */
  lemma PreStartChoice(cli: CliOptions, daemonSynced: bool, isSPV: bool, isAdvancedDaemon: bool,
                       selected: Option<Wallet>)
    requires !cli.rpcPresent && (daemonSynced || isSPV)
    ensures PreStartEvents(cli, daemonSynced, isSPV, isAdvancedDaemon, selected) ==
      [WalletChoice(selected, Modes(isSPV, isAdvancedDaemon))]
  {
  }

  /** No RPC options, neither synced nor SPV: the three mode starts alone. */
  lemma PreStartModes(cli: CliOptions, daemonSynced: bool, isSPV: bool, isAdvancedDaemon: bool,
                      selected: Option<Wallet>)
    requires !cli.rpcPresent && !(daemonSynced || isSPV)
    ensures PreStartEvents(cli, daemonSynced, isSPV, isAdvancedDaemon, selected) ==
      ModeStarts(Modes(isSPV, isAdvancedDaemon))
  {
  }

  /** The remote-daemon event comes first exactly when RPC options were given. */
  lemma PreStartRemoteFirst(cli: CliOptions, daemonSynced: bool, isSPV: bool, isAdvancedDaemon: bool,
                            selected: Option<Wallet>)
    ensures var sent := PreStartEvents(cli, daemonSynced, isSPV, isAdvancedDaemon, selected);
      cli.rpcPresent <==> (sent != [] && sent[0] == StartCliRemoteDaemon(CliCredentials(cli)))
  {
    if cli.rpcPresent && (daemonSynced || isSPV) {
      PreStartRemoteChoice(cli, daemonSynced, isSPV, isAdvancedDaemon, selected);
    } else if cli.rpcPresent {
      PreStartRemoteModes(cli, daemonSynced, isSPV, isAdvancedDaemon, selected);
    } else if daemonSynced || isSPV {
      PreStartChoice(cli, daemonSynced, isSPV, isAdvancedDaemon, selected);
    } else {
      PreStartModes(cli, daemonSynced, isSPV, isAdvancedDaemon, selected);
    }
  }

  /** Synced or SPV: one wallet event, submit iff a wallet is pre-selected, and no mode start. */
  lemma PreStartChoiceLast(cli: CliOptions, daemonSynced: bool, isSPV: bool, isAdvancedDaemon: bool,
                           selected: Option<Wallet>)
    requires daemonSynced || isSPV
    ensures var sent := PreStartEvents(cli, daemonSynced, isSPV, isAdvancedDaemon, selected);
      |sent| == (if cli.rpcPresent then 2 else 1) &&
      sent[|sent| - 1].SubmitChooseWallet? == selected.Some? &&
      sent[|sent| - 1] == WalletChoice(selected, Modes(isSPV, isAdvancedDaemon)) &&
      forall e :: e in sent ==> !IsModeStart(e)
  {
    if cli.rpcPresent {
      PreStartRemoteChoice(cli, daemonSynced, isSPV, isAdvancedDaemon, selected);
    } else {
      PreStartChoice(cli, daemonSynced, isSPV, isAdvancedDaemon, selected);
    }
  }

  /** Otherwise: START_SPV, START_ADVANCED_DAEMON, START_REGULAR_DAEMON, in that order, last. */
  lemma PreStartModesLast(cli: CliOptions, daemonSynced: bool, isSPV: bool, isAdvancedDaemon: bool,
                          selected: Option<Wallet>)
    requires !(daemonSynced || isSPV)
    ensures var sent := PreStartEvents(cli, daemonSynced, isSPV, isAdvancedDaemon, selected);
      |sent| == (if cli.rpcPresent then 4 else 3) &&
      sent[|sent| - 3..] == ModeStarts(Modes(isSPV, isAdvancedDaemon)) &&
      forall e :: e in sent ==> !e.ChooseWallet? && !e.SubmitChooseWallet?
  {
    var sent := PreStartEvents(cli, daemonSynced, isSPV, isAdvancedDaemon, selected);
    var m := ModeStarts(Modes(isSPV, isAdvancedDaemon));
    if cli.rpcPresent {
      PreStartRemoteModes(cli, daemonSynced, isSPV, isAdvancedDaemon, selected);
      assert sent == [sent[0], m[0], m[1], m[2]];
    } else {
      PreStartModes(cli, daemonSynced, isSPV, isAdvancedDaemon, selected);
      assert sent == [m[0], m[1], m[2]];
    }
  }

  /** What the resolver sends, case by case. */
  lemma PreStartTraceShape(cli: CliOptions, daemonSynced: bool, isSPV: bool, isAdvancedDaemon: bool,
                           selected: Option<Wallet>)
    // the remote-daemon event comes first exactly when RPC options were given ...
    ensures var sent := PreStartEvents(cli, daemonSynced, isSPV, isAdvancedDaemon, selected);
      cli.rpcPresent <==> (sent != [] && sent[0] == StartCliRemoteDaemon(CliCredentials(cli)))
    // ... and the resolver does not stop there
    ensures |PreStartEvents(cli, daemonSynced, isSPV, isAdvancedDaemon, selected)| ==
      (if cli.rpcPresent then 1 else 0) + (if daemonSynced || isSPV then 1 else 3)
    // synced or SPV: one wallet event, submit iff a wallet is pre-selected, and no mode start
    ensures daemonSynced || isSPV ==>
      var sent := PreStartEvents(cli, daemonSynced, isSPV, isAdvancedDaemon, selected);
      sent[|sent| - 1].SubmitChooseWallet? == selected.Some? &&
      sent[|sent| - 1] == WalletChoice(selected, Modes(isSPV, isAdvancedDaemon)) &&
      forall e :: e in sent ==> !IsModeStart(e)
    // otherwise: START_SPV, START_ADVANCED_DAEMON, START_REGULAR_DAEMON, in that order, last
    ensures !(daemonSynced || isSPV) ==>
      var sent := PreStartEvents(cli, daemonSynced, isSPV, isAdvancedDaemon, selected);
      sent[|sent| - 3..] == ModeStarts(Modes(isSPV, isAdvancedDaemon)) &&
      forall e :: e in sent ==> !e.ChooseWallet? && !e.SubmitChooseWallet?
  {
    PreStartRemoteFirst(cli, daemonSynced, isSPV, isAdvancedDaemon, selected);
    if daemonSynced || isSPV {
      PreStartChoiceLast(cli, daemonSynced, isSPV, isAdvancedDaemon, selected);
    } else {
      PreStartModesLast(cli, daemonSynced, isSPV, isAdvancedDaemon, selected);
    }
  }

  /** The events the resolver sends when command-line RPC options are given. */
  lemma CliRemoteThenMore(cli: CliOptions, daemonSynced: bool, isSPV: bool,
                          isAdvancedDaemon: bool, selected: Option<Wallet>)
    requires cli.rpcPresent
    ensures var sent := Sent(PreStartTrace(cli, daemonSynced, isSPV, isAdvancedDaemon, selected));
      |sent| >= 2 && sent[0] == StartCliRemoteDaemon(CliCredentials(cli)) &&
      sent[0].remoteCredentials.user == cli.rpcUser && sent[0].remoteCredentials.port == cli.rpcPort
  {
    PreStartSent(cli, daemonSynced, isSPV, isAdvancedDaemon, selected);
  }
}
