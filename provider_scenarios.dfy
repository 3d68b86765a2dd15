/**
 * Runs of the `AppStateProvider` of frontend/context/AppStateContext.tsx,
 * derived from the specifications of its methods alone.
 */
module ProviderScenarios {
  import opened Wrappers
  import opened Regions
  import opened AppStateContext

  /**
   * Start-up without stored data persists the initial state once; reading a
   * summary persists again; reading it a second time is a no-op and writes
   * nothing.
   */
  method RepeatedSummaryReadWritesOnce() returns (log: seq<AppState>)
    ensures |log| == 2
    ensures log[0] == InitialState
    ensures log[1] == Reduce(InitialState, MarkSummaryRead(Back)) && log[1].progress[Back].summaryRead
  {
    var p := new AppStateProvider();
    p.FinishLoad(NothingStored);
    p.Commit();
    assert p.writes == [InitialState];
    p.Dispatch(MarkSummaryRead(Back));
    p.Commit();
    var read := p.state;
    assert p.writes == [InitialState, read];
    p.Dispatch(MarkSummaryRead(Back));
    p.Commit();
    log := p.writes;
  }

  /**
   * A permission result dispatched before the stored state has loaded is
   * never written, and a stored flag then replaces it: HYDRATE spreads the
   * payload over the current state.
   */
  method EarlyGrantThenHydrate(stored: bool) returns (granted: bool, log: seq<AppState>)
    ensures granted == stored
    ensures |log| == 1 && log[0].notificationsGranted == stored
  {
    var p := new AppStateProvider();
    p.Dispatch(SetNotificationsGranted(true));
    p.Commit();
    assert p.writes == [] && p.state.notificationsGranted;
    p.FinishLoad(Loaded(Snapshot(Some(stored), None)));
    p.Commit();
    granted := p.state.notificationsGranted;
    log := p.writes;
  }
}
