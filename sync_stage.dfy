/**
 * The sync-stage chain in the page's effect: the first of five status flags
 * that is set picks the header text, the animation and, for a rescan, the
 * rescan view shown over the current state's own.
 */
module SyncStage {
  import opened JsValues

  /** The sync status flags, in the order the chain tests them. */
  datatype SyncStatus = SyncStatus(
    fetchMissingCfilters: bool, fetchHeaders: bool, discoverAddresses: bool, rescan: bool, synced: bool)

  /** One stage per flag; its header text and animation are the stage's own. */
  datatype Stage = FetchingMissingCfilters | FetchingHeaders | DiscoveringAddresses | ScanningBlocks | FinishingLoad

  datatype StageComponent = RescanWalletBody

  /** The overrides passed on to the page: absent fields keep the state's own. */
  datatype StageView = StageView(stage: Option<Stage>, component: Option<StageComponent>)

  /** The flags as a list, in the chain's order. */
  function Flags(st: SyncStatus): (f: seq<bool>)
    ensures |f| == 5
  {
    [st.fetchMissingCfilters, st.fetchHeaders, st.discoverAddresses, st.rescan, st.synced]
  }

  /** The stages in the same order. */
  function StageAt(i: nat): Stage
    requires i < 5
  {
    [FetchingMissingCfilters, FetchingHeaders, DiscoveringAddresses, ScanningBlocks, FinishingLoad][i]
  }

  /** The index of the first flag set: a first-match selection over any list of flags. */
  function FirstSet(flags: seq<bool>): (r: Option<nat>)
    ensures r.Some? ==> r.value < |flags| && flags[r.value] && forall j :: 0 <= j < r.value ==> !flags[j]
    ensures r.None? ==> forall j :: 0 <= j < |flags| ==> !flags[j]
    decreases |flags|
  {
    if flags == [] then None
    else if flags[0] then Some(0)
    else match FirstSet(flags[1..])
      case None => None
      case Some(k) => Some(k + 1)
  }

  /** The chain as the effect writes it. */
  function SelectStage(st: SyncStatus): (r: StageView)
    ensures r.component.Some? <==> r.stage == Some(ScanningBlocks)
  {
    if st.fetchMissingCfilters then StageView(Some(FetchingMissingCfilters), None)
    else if st.fetchHeaders then StageView(Some(FetchingHeaders), None)
    else if st.discoverAddresses then StageView(Some(DiscoveringAddresses), None)
    else if st.rescan then StageView(Some(ScanningBlocks), Some(RescanWalletBody))
    else if st.synced then StageView(Some(FinishingLoad), None)
    else StageView(None, None)
  }

  /** The chain picks the stage of the first flag set, and none when no flag is set. */
  lemma SelectStageIsFirstMatch(st: SyncStatus)
    ensures match FirstSet(Flags(st))
      case None => SelectStage(st).stage.None?
      case Some(i) => SelectStage(st).stage == Some(StageAt(i))
  {
    var f := Flags(st);
    match FirstSet(f)
    case None =>
      assert !f[0] && !f[1] && !f[2] && !f[3] && !f[4];
    case Some(i) =>
      assert f[i] && forall j :: 0 <= j < i ==> !f[j];
      if i == 0 {} else if i == 1 { assert !f[0]; }
      else if i == 2 { assert !f[0] && !f[1]; }
      else if i == 3 { assert !f[0] && !f[1] && !f[2]; }
      else { assert !f[0] && !f[1] && !f[2] && !f[3]; }
  }

  /** A set flag hides every later one: the rescan view shows only when no earlier stage is active. */
  lemma EarlierFlagWins(st: SyncStatus, i: nat, j: nat)
    requires i < j < 5 && Flags(st)[i] && Flags(st)[j]
    ensures SelectStage(st).stage != Some(StageAt(j))
  {
    SelectStageIsFirstMatch(st);
  }
}
