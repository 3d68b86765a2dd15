/**
 * The progress state machine of frontend/context/AppStateContext.tsx: the
 * application state, the actions, the pure `reducer`, the two accumulator
 * loops it relies on (default progress and the HYDRATE merge), and the
 * provider that holds the state and mirrors it to storage once hydrated.
 */
module AppStateContext {
  import opened Wrappers
  import opened Regions

  /** QUIZ_TARGET: distinct correct answers needed for mastery of a region. */
  const QuizTarget: int := 3

  /** RegionProgress. Counts are plain numbers, since persisted data may hold any value. */
  datatype RegionProgress = RegionProgress(
    summaryRead: bool,
    quizCorrectCount: int,
    quizComplete: bool,
    correctQuestionIds: seq<string>)

  /** AppState: the notification flag and one progress record per region. */
  datatype AppState = AppState(notificationsGranted: bool, progress: map<Region, RegionProgress>)

  /** A region entry as read back from storage: any field may be missing. */
  datatype StoredProgress = StoredProgress(
    summaryRead: Option<bool>,
    quizCorrectCount: Option<int>,
    quizComplete: Option<bool>,
    correctQuestionIds: Option<seq<string>>)

  /**
   * The HYDRATE payload: parsed, untrusted JSON. `progress` is None when it
   * is missing or falsy; it is keyed by arbitrary strings, and an entry is
   * None when its value is falsy.
   */
  datatype Snapshot = Snapshot(
    notificationsGranted: Option<bool>,
    progress: Option<map<string, Option<StoredProgress>>>)

  /** The `Action` union, plus any other `type` a caller dispatches (the `default` case). */
  datatype Action =
    | Hydrate(payload: Snapshot)
    | MarkSummaryRead(region: Region)
    | ResetSummary(region: Region)
    | IncrementQuizCorrect(region: Region, questionId: string)
    | ResetQuiz(region: Region)
    | SetNotificationsGranted(value: bool)
    | Unrecognised(kind: string)  // a `type` the switch has no case for: never one of `HandledKind`

  /** The six `type` strings the reducer's `switch` has a case for. */
  predicate HandledKind(kind: string) {
    kind in {"HYDRATE", "MARK_SUMMARY_READ", "RESET_SUMMARY", "INCREMENT_QUIZ_CORRECT", "RESET_QUIZ", "SET_NOTIFICATIONS_GRANTED"}
  }

  /** `Math.min` on two numbers. */
  function Min(a: int, b: int): (m: int)
    ensures m <= a && m <= b && (m == a || m == b)
  {
    if a <= b then a else b
  }

  /** The record every region starts from. */
  const EmptyProgress: RegionProgress := RegionProgress(false, 0, false, [])

  /** What `createDefaultProgress` returns: every region mapped to the empty record. */
  function DefaultProgress(): (m: map<Region, RegionProgress>)
    ensures forall r: Region :: r in m && m[r] == EmptyProgress
  {
    AllRegionsTotal();
    map r | r in AllRegions :: EmptyProgress
  }

  /** `createDefaultProgress`: fills an accumulator with one entry per element of ALL_REGIONS. */
  method CreateDefaultProgress() returns (m: map<Region, RegionProgress>)
    ensures forall r: Region :: r in m && m[r] == EmptyProgress
    ensures m == DefaultProgress()
  {
    m := map[];
    var i := 0;
    while i < |AllRegions|
      invariant 0 <= i <= |AllRegions|
      invariant forall j :: 0 <= j < i ==> AllRegions[j] in m
      invariant forall r :: r in m ==> m[r] == EmptyProgress
    {
      m := m[AllRegions[i] := EmptyProgress];
      i := i + 1;
    }
    forall r: Region
      ensures r in m
    {
      AllRegionsTotal();
      assert r in AllRegions;
      var j :| 0 <= j < |AllRegions| && AllRegions[j] == r;
    }
    var d := DefaultProgress();
    assert forall r: Region :: r in d && d[r] == EmptyProgress;
    assert forall r: Region :: r in m && m[r] == EmptyProgress;
    SameTotalMaps(m, d);
  }

  /** Two maps that cover every region with the same records are equal. */
  lemma SameTotalMaps(m: map<Region, RegionProgress>, n: map<Region, RegionProgress>)
    requires forall r: Region :: r in m && r in n && m[r] == n[r]
    ensures m == n
  {
  }

  /** `initialState`: notifications not granted, default progress everywhere. */
  const InitialState: AppState := AppState(false, DefaultProgress())

  /** The state has a record for every region, as `Record<Region, RegionProgress>` demands. */
  predicate Total(s: AppState) {
    forall r: Region :: r in s.progress
  }

  /** `{ ...base, ...stored }`: every field the stored entry carries replaces the base one. */
  function Overlay(base: RegionProgress, stored: StoredProgress): (r: RegionProgress)
    ensures r.summaryRead == (if stored.summaryRead.Some? then stored.summaryRead.value else base.summaryRead)
    ensures r.quizCorrectCount == (if stored.quizCorrectCount.Some? then stored.quizCorrectCount.value else base.quizCorrectCount)
    ensures r.quizComplete == (if stored.quizComplete.Some? then stored.quizComplete.value else base.quizComplete)
    ensures r.correctQuestionIds == (if stored.correctQuestionIds.Some? then stored.correctQuestionIds.value else base.correctQuestionIds)
    ensures stored == StoredProgress(None, None, None, None) ==> r == base
  {
    RegionProgress(
      stored.summaryRead.GetOr(base.summaryRead),
      stored.quizCorrectCount.GetOr(base.quizCorrectCount),
      stored.quizComplete.GetOr(base.quizComplete),
      stored.correctQuestionIds.GetOr(base.correctQuestionIds))
  }

  /** `(payload.progress || {})[region]` when it is truthy. */
  function IncomingEntry(payload: Snapshot, r: Region): (e: Option<StoredProgress>)
    ensures e.Some? <==>
      payload.progress.Some? && Key(r) in payload.progress.value && payload.progress.value[Key(r)].Some?
    ensures e.Some? ==> e == payload.progress.value[Key(r)]
  {
    match payload.progress
    case None => None
    case Some(incoming) => if Key(r) in incoming then incoming[Key(r)] else None
  }

  /** The record HYDRATE puts in place for one region. */
  function MergedEntry(payload: Snapshot, r: Region): (p: RegionProgress)
    ensures IncomingEntry(payload, r).None? ==> p == EmptyProgress
    ensures IncomingEntry(payload, r).Some? ==> p == Overlay(EmptyProgress, IncomingEntry(payload, r).value)
  {
    match IncomingEntry(payload, r)
    case None => EmptyProgress
    case Some(stored) => Overlay(EmptyProgress, stored)
  }

  /** The `mergedProgress` map HYDRATE builds. */
  function MergedProgress(payload: Snapshot): (m: map<Region, RegionProgress>)
    ensures forall r: Region :: r in m && m[r] == MergedEntry(payload, r)
  {
    AllRegionsTotal();
    map r | r in AllRegions :: MergedEntry(payload, r)
  }

  /** HYDRATE's loop: start from the defaults, overlay each truthy incoming region in ALL_REGIONS order. */
  method MergeProgress(payload: Snapshot) returns (merged: map<Region, RegionProgress>)
    ensures forall r: Region :: r in merged && merged[r] == MergedEntry(payload, r)
    ensures merged == MergedProgress(payload)
  {
    merged := CreateDefaultProgress();
    AllRegionsAreItemKeys();
    var i := 0;
    while i < |AllRegions|
      invariant 0 <= i <= |AllRegions|
      invariant forall r: Region :: r in merged
      invariant forall j :: 0 <= j < i ==> merged[AllRegions[j]] == MergedEntry(payload, AllRegions[j])
      invariant forall j :: i <= j < |AllRegions| ==> merged[AllRegions[j]] == EmptyProgress
    {
      var region := AllRegions[i];
      var entry := IncomingEntry(payload, region);
      assert merged[region] == EmptyProgress;
      if entry.Some? {
        merged := merged[region := Overlay(merged[region], entry.value)];
      }
      assert merged[region] == MergedEntry(payload, region);
      i := i + 1;
    }
    CoveredByAllRegions(merged, payload);
  }

  /** A map that holds HYDRATE's record at every position of ALL_REGIONS is `mergedProgress`. */
  lemma CoveredByAllRegions(merged: map<Region, RegionProgress>, payload: Snapshot)
    requires forall r: Region :: r in merged
    requires forall j :: 0 <= j < |AllRegions| ==> merged[AllRegions[j]] == MergedEntry(payload, AllRegions[j])
    ensures merged == MergedProgress(payload)
  {
    forall r: Region
      ensures merged[r] == MergedEntry(payload, r)
    {
      AllRegionsTotal();
      assert r in AllRegions;
      var j :| 0 <= j < |AllRegions| && AllRegions[j] == r;
    }
    var expected := MergedProgress(payload);
    assert forall r: Region :: r in expected && expected[r] == MergedEntry(payload, r);
    SameTotalMaps(merged, expected);
  }

  /** `{ ...state, ...payload, progress: mergedProgress }`. */
  function HydrateState(s: AppState, payload: Snapshot): (r: AppState)
    ensures Total(r)
    ensures forall region: Region :: r.progress[region] == MergedEntry(payload, region)
    ensures payload.notificationsGranted.Some? ==> r.notificationsGranted == payload.notificationsGranted.value
    ensures payload.notificationsGranted.None? ==> r.notificationsGranted == s.notificationsGranted
  {
    AppState(payload.notificationsGranted.GetOr(s.notificationsGranted), MergedProgress(payload))
  }

  /** `{ ...state, progress: { ...state.progress, [region]: p } }`. */
  function WithRegion(s: AppState, region: Region, p: RegionProgress): (r: AppState)
    requires Total(s)
    ensures Total(r)
    ensures r.progress[region] == p
    ensures forall other: Region :: other != region ==> r.progress[other] == s.progress[other]
    ensures r.notificationsGranted == s.notificationsGranted
  {
    s.(progress := s.progress[region := p])
  }

  /** True exactly where `reducer` returns the state object it was given. */
  predicate IsNoOp(s: AppState, a: Action)
    requires Total(s)
    ensures (a.Hydrate? || a.ResetSummary? || a.ResetQuiz?) ==> !IsNoOp(s, a)
    ensures a.Unrecognised? ==> IsNoOp(s, a)
  {
    match a
    case Hydrate(_) => false
    case MarkSummaryRead(region) => s.progress[region].summaryRead
    case ResetSummary(_) => false
    case IncrementQuizCorrect(region, id) =>
      s.progress[region].quizComplete || id in s.progress[region].correctQuestionIds
    case ResetQuiz(_) => false
    case SetNotificationsGranted(value) => s.notificationsGranted == value
    case Unrecognised(_) => true
  }

  /** `reducer`. On a no-op it returns its argument unchanged. */
  function Reduce(s: AppState, a: Action): (r: AppState)
    requires Total(s)
    ensures Total(r)
    ensures IsNoOp(s, a) ==> r == s
  {
    if IsNoOp(s, a) then s
    else
      match a
      case Hydrate(payload) => HydrateState(s, payload)
      case MarkSummaryRead(region) =>
        WithRegion(s, region, s.progress[region].(summaryRead := true))
      case ResetSummary(region) =>
        WithRegion(s, region, s.progress[region].(summaryRead := false))
      case IncrementQuizCorrect(region, id) =>
        var ids := s.progress[region].correctQuestionIds + [id];
        var count := Min(|ids|, QuizTarget);
        WithRegion(s, region, s.progress[region].(
          quizCorrectCount := count,
          quizComplete := count >= QuizTarget,
          correctQuestionIds := ids))
      case ResetQuiz(region) =>
        WithRegion(s, region, s.progress[region].(
          quizCorrectCount := 0,
          quizComplete := false,
          correctQuestionIds := []))
      case SetNotificationsGranted(value) => s.(notificationsGranted := value)
      case Unrecognised(_) => s
  }

  /** How reading the stored state at start-up ended. */
  datatype LoadResult =
    | NothingStored          // no value under the key, or an empty one
    | LoadFailed             // the read or `JSON.parse` threw
    | Loaded(snapshot: Snapshot)

  /**
   * `AppStateProvider`: the current state, the `isHydrated` flag, and the
   * log of every state snapshot written to storage. `effectPending` records
   * that `state` (by reference) or `isHydrated` changed since the persistence
   * effect last ran.
   */
  class AppStateProvider {
    var state: AppState
    var isHydrated: bool
    var effectPending: bool
    var writes: seq<AppState>

    /** Nothing is written before hydration; once hydrated and settled, the last write is the current state. */
    ghost predicate Valid()
      reads this
      ensures Valid() ==> Total(state)
      ensures Valid() && writes != [] ==> isHydrated
    {
      && Total(state)
      && (!isHydrated ==> writes == [])
      && (isHydrated && !effectPending ==> writes != [] && writes[|writes| - 1] == state)
    }

    /** Mounting: the reducer starts from `initialState`; the first effect run finds no hydration and writes nothing. */
    constructor ()
      ensures Valid()
      ensures state == InitialState && !isHydrated && !effectPending && writes == []
    {
      state := InitialState;
      isHydrated := false;
      effectPending := false;
      writes := [];
    }

    /** `dispatch(action)`: the reducer runs; a new state object schedules the persistence effect. */
    method Dispatch(a: Action)
      requires Valid()
      modifies this
      ensures Valid()
      ensures state == Reduce(old(state), a)
      ensures isHydrated == old(isHydrated) && writes == old(writes)
      ensures effectPending == (old(effectPending) || !IsNoOp(old(state), a))
    {
      var noOp := IsNoOp(state, a);
      state := Reduce(state, a);
      if !noOp {
        effectPending := true;
      }
    }

    /** The end of `load`: HYDRATE when something was parsed, then `setIsHydrated(true)` in every case. */
    method FinishLoad(result: LoadResult)
      requires Valid()
      modifies this
      ensures Valid()
      ensures state == (if result.Loaded? then Reduce(old(state), Hydrate(result.snapshot)) else old(state))
      ensures isHydrated && writes == old(writes)
      ensures effectPending == (old(effectPending) || result.Loaded? || !old(isHydrated))
    {
      if result.Loaded? {
        Dispatch(Hydrate(result.snapshot));
      }
      if !isHydrated {
        isHydrated := true;
        effectPending := true;
      }
    }

    /** React commits and runs the persistence effect if its dependencies changed; it writes only once hydrated. */
    method Commit()
      requires Valid()
      modifies this
      ensures Valid()
      ensures state == old(state) && isHydrated == old(isHydrated) && !effectPending
      ensures writes == if old(effectPending) && isHydrated then old(writes) + [state] else old(writes)
    {
      if effectPending {
        effectPending := false;
        if isHydrated {
          writes := writes + [state];
        }
      }
    }
  }
}
