/**
 * What the reducer of frontend/context/AppStateContext.tsx guarantees:
 * the effect of each action, the per-region invariant every action but
 * HYDRATE keeps, de-duplication of quiz credit, idempotence of HYDRATE,
 * and that the local quiz bank alone is enough to reach mastery.
 */
module ReducerProperties {
  import opened Wrappers
  import opened Regions
  import opened Sequences
  import opened QuizQuestions
  import opened AppStateContext

  /** `t` differs from `s` at most in region `r`'s record. */
  predicate OnlyRegionChanged(s: AppState, t: AppState, r: Region)
    requires Total(s) && Total(t)
  {
    && t.notificationsGranted == s.notificationsGranted
    && forall other: Region :: other != r ==> t.progress[other] == s.progress[other]
  }

  /** The per-region facts the reducer maintains. */
  predicate ConsistentProgress(p: RegionProgress) {
    && p.quizComplete == (p.quizCorrectCount >= QuizTarget)
    && p.quizCorrectCount == Min(|p.correctQuestionIds|, QuizTarget)
    && 0 <= p.quizCorrectCount <= QuizTarget
    && |p.correctQuestionIds| <= QuizTarget
    && Distinct(p.correctQuestionIds)
  }

  /** Every region's record is consistent. */
  predicate ConsistentState(s: AppState) {
    Total(s) && forall r: Region :: ConsistentProgress(s.progress[r])
  }

  /** `reducer` folded over a sequence of actions. */
  function Run(s: AppState, actions: seq<Action>): (t: AppState)
    requires Total(s)
    ensures Total(t)
    decreases |actions|
  {
    if actions == [] then s else Run(Reduce(s, actions[0]), actions[1..])
  }

  /** A sequence of actions none of which is HYDRATE. */
  predicate NoHydrate(actions: seq<Action>) {
    forall i :: 0 <= i < |actions| ==> !actions[i].Hydrate?
  }

  // ---------------------------------------------------------------- defaults

  /** Every region in ALL_REGIONS starts with an unread summary, no credit and no ids. */
  lemma InitialStateIsDefault(r: Region)
    ensures Total(InitialState) && !InitialState.notificationsGranted
    ensures var p := InitialState.progress[r];
      !p.summaryRead && p.quizCorrectCount == 0 && !p.quizComplete && p.correctQuestionIds == []
  {
  }

  /** The initial state satisfies the invariant. */
  lemma InitialStateConsistent()
    ensures ConsistentState(InitialState)
  {
  }

  // ---------------------------------------------------------------- HYDRATE

  /**
   * HYDRATE starts from the defaults: a region that is missing or falsy keeps
   * the default record; in a present region each supplied field wins and each
   * absent field keeps its default. The flag comes from the payload when
   * present, else from the prior state. The prior progress plays no part.
   */
  lemma HydrateMergesOverDefaults(s: AppState, payload: Snapshot, r: Region)
    requires Total(s)
    ensures var t := Reduce(s, Hydrate(payload));
      && t.notificationsGranted == (if payload.notificationsGranted.Some? then payload.notificationsGranted.value else s.notificationsGranted)
      && (IncomingEntry(payload, r).None? ==> t.progress[r] == EmptyProgress)
      && (IncomingEntry(payload, r).Some? ==>
            var e := IncomingEntry(payload, r).value;
            && t.progress[r].summaryRead == (if e.summaryRead.Some? then e.summaryRead.value else false)
            && t.progress[r].quizCorrectCount == (if e.quizCorrectCount.Some? then e.quizCorrectCount.value else 0)
            && t.progress[r].quizComplete == (if e.quizComplete.Some? then e.quizComplete.value else false)
            && t.progress[r].correctQuestionIds == (if e.correctQuestionIds.Some? then e.correctQuestionIds.value else []))
  {
  }

  /** Only the entries under the nine region keys matter; which record a region gets does not depend on the prior state. */
  lemma HydrateIgnoresPriorProgress(s: AppState, s': AppState, payload: Snapshot)
    requires Total(s) && Total(s')
    ensures Reduce(s, Hydrate(payload)).progress == Reduce(s', Hydrate(payload)).progress
  {
  }

  /** A payload whose progress holds only region `r` leaves the other eight regions at their defaults. */
  lemma HydrateSingleRegion(s: AppState, r: Region, e: StoredProgress, flag: Option<bool>)
    requires Total(s)
    ensures var t := Reduce(s, Hydrate(Snapshot(flag, Some(map[Key(r) := Some(e)]))));
      && t.progress[r] == Overlay(EmptyProgress, e)
      && forall other: Region :: other != r ==> t.progress[other] == EmptyProgress
  {
    var payload := Snapshot(flag, Some(map[Key(r) := Some(e)]));
    forall other: Region | other != r
      ensures IncomingEntry(payload, other).None?
    {
      KeyInjective(other, r);
    }
  }

  /** Applying the same HYDRATE twice equals applying it once. */
  lemma HydrateIdempotent(s: AppState, payload: Snapshot)
    requires Total(s)
    ensures Reduce(Reduce(s, Hydrate(payload)), Hydrate(payload)) == Reduce(s, Hydrate(payload))
  {
  }

  /** HYDRATE trusts persisted data: it can install a record that breaks the invariant. */
  lemma HydrateCanBreakConsistency()
    ensures var bad := StoredProgress(None, Some(7), None, None);
      !ConsistentState(Reduce(InitialState, Hydrate(Snapshot(None, Some(map["back" := Some(bad)])))))
  {
    var bad := StoredProgress(None, Some(7), None, None);
    var t := Reduce(InitialState, Hydrate(Snapshot(None, Some(map["back" := Some(bad)]))));
    assert Key(Back) == "back";
    assert t.progress[Back].quizCorrectCount == 7;
  }

  // ---------------------------------------------------------------- summaries

  /** MARK_SUMMARY_READ: the identical state when already read; otherwise only that flag turns true. */
  lemma MarkSummaryReadEffect(s: AppState, r: Region)
    requires Total(s)
    ensures var t := Reduce(s, MarkSummaryRead(r));
      && (s.progress[r].summaryRead ==> t == s && IsNoOp(s, MarkSummaryRead(r)))
      && (!s.progress[r].summaryRead ==>
            && t != s && !IsNoOp(s, MarkSummaryRead(r))
            && t.progress[r] == s.progress[r].(summaryRead := true)
            && OnlyRegionChanged(s, t, r))
  {
  }

  /** RESET_SUMMARY: only that region's flag turns false, and a new state is always built. */
  lemma ResetSummaryEffect(s: AppState, r: Region)
    requires Total(s)
    ensures var t := Reduce(s, ResetSummary(r));
      && !IsNoOp(s, ResetSummary(r))
      && t.progress[r] == s.progress[r].(summaryRead := false)
      && OnlyRegionChanged(s, t, r)
  {
  }

  /** Resetting an unread summary changes no content, yet still counts as a new state (and so is persisted). */
  lemma RedundantResetSummaryIsNotNoOp(s: AppState, r: Region)
    requires Total(s) && !s.progress[r].summaryRead
    ensures Reduce(s, ResetSummary(r)) == s && !IsNoOp(s, ResetSummary(r))
  {
    var t := Reduce(s, ResetSummary(r));
    assert t.progress == s.progress;
  }

  // ---------------------------------------------------------------- quizzes

  /**
   * INCREMENT_QUIZ_CORRECT: no change when the region is complete or the id
   * was already credited; otherwise the id is appended, the count becomes
   * min(|ids|, 3) and completion follows the count. Nothing else changes.
   */
  lemma IncrementQuizCorrectEffect(s: AppState, r: Region, id: string)
    requires Total(s)
    ensures var p := s.progress[r];
      var t := Reduce(s, IncrementQuizCorrect(r, id));
      && (IsNoOp(s, IncrementQuizCorrect(r, id)) <==> (p.quizComplete || id in p.correctQuestionIds))
      && (p.quizComplete || id in p.correctQuestionIds ==> t == s)
      && (!p.quizComplete && id !in p.correctQuestionIds ==>
            && t != s
            && t.progress[r].correctQuestionIds == p.correctQuestionIds + [id]
            && t.progress[r].quizCorrectCount == Min(|p.correctQuestionIds| + 1, QuizTarget)
            && t.progress[r].quizComplete == (t.progress[r].quizCorrectCount >= QuizTarget)
            && t.progress[r].summaryRead == p.summaryRead
            && OnlyRegionChanged(s, t, r))
  {
    var p := s.progress[r];
    var t := Reduce(s, IncrementQuizCorrect(r, id));
    if !p.quizComplete && id !in p.correctQuestionIds {
      assert |t.progress[r].correctQuestionIds| == |p.correctQuestionIds| + 1;
    }
  }

  /** Dispatching the same INCREMENT_QUIZ_CORRECT twice in a row is the same as once, from any state. */
  lemma IncrementQuizCorrectDedup(s: AppState, r: Region, id: string)
    requires Total(s)
    ensures var once := Reduce(s, IncrementQuizCorrect(r, id));
      Reduce(once, IncrementQuizCorrect(r, id)) == once
  {
    var once := Reduce(s, IncrementQuizCorrect(r, id));
    if !IsNoOp(s, IncrementQuizCorrect(r, id)) {
      assert once.progress[r].correctQuestionIds == s.progress[r].correctQuestionIds + [id];
      assert id in once.progress[r].correctQuestionIds;
    }
  }

  /** After an accepted credit the derived fields agree with the ids, whatever HYDRATE had installed before. */
  lemma IncrementRestoresDerivedFields(s: AppState, r: Region, id: string)
    requires Total(s) && !IsNoOp(s, IncrementQuizCorrect(r, id))
    ensures var p := Reduce(s, IncrementQuizCorrect(r, id)).progress[r];
      && p.quizCorrectCount == Min(|p.correctQuestionIds|, QuizTarget)
      && p.quizComplete == (p.quizCorrectCount >= QuizTarget)
      && 0 <= p.quizCorrectCount <= QuizTarget
  {
  }

  /** RESET_QUIZ: that region's count, completion and ids are cleared; its summary flag and all else stay. */
  lemma ResetQuizEffect(s: AppState, r: Region)
    requires Total(s)
    ensures var t := Reduce(s, ResetQuiz(r));
      && !IsNoOp(s, ResetQuiz(r))
      && t.progress[r] == RegionProgress(s.progress[r].summaryRead, 0, false, [])
      && OnlyRegionChanged(s, t, r)
  {
  }

  // ---------------------------------------------------------------- flag and default case

  /** SET_NOTIFICATIONS_GRANTED: the identical state when unchanged; otherwise only the flag changes. */
  lemma SetNotificationsGrantedEffect(s: AppState, value: bool)
    requires Total(s)
    ensures var t := Reduce(s, SetNotificationsGranted(value));
      && (IsNoOp(s, SetNotificationsGranted(value)) <==> s.notificationsGranted == value)
      && t.notificationsGranted == value
      && t.progress == s.progress
      && (s.notificationsGranted == value ==> t == s)
  {
  }

  /** Any other action type (INCREMENT_CHAT from the chat screen, say) returns the state unchanged. */
  lemma UnrecognisedIsNoOp(s: AppState, kind: string)
    requires Total(s) && !HandledKind(kind)
    ensures IsNoOp(s, Unrecognised(kind)) && Reduce(s, Unrecognised(kind)) == s
  {
  }

  /** A no-op is exactly a transition that leaves the state unchanged, except for the two resets, which always rebuild it. */
  lemma NoOpMeansUnchanged(s: AppState, a: Action)
    requires Total(s)
    requires !a.ResetSummary? && !a.ResetQuiz? && !a.Hydrate?
    ensures IsNoOp(s, a) <==> Reduce(s, a) == s
  {
    match a
    case MarkSummaryRead(r) => MarkSummaryReadEffect(s, r);
    case IncrementQuizCorrect(r, id) => IncrementQuizCorrectEffect(s, r, id);
    case SetNotificationsGranted(v) =>
    case Unrecognised(_) =>
  }

  // ---------------------------------------------------------------- the invariant

  /** Every action except HYDRATE keeps every region consistent. */
  lemma ReducePreservesConsistency(s: AppState, a: Action)
    requires ConsistentState(s) && !a.Hydrate?
    ensures ConsistentState(Reduce(s, a))
  {
    var t := Reduce(s, a);
    match a
    case IncrementQuizCorrect(r, id) =>
      if !IsNoOp(s, a) {
        var p := s.progress[r];
        assert ConsistentProgress(p);
        var ids := p.correctQuestionIds + [id];
        assert t.progress[r].correctQuestionIds == ids;
        assert Distinct(ids) by {
          forall i, j | 0 <= i < j < |ids|
            ensures ids[i] != ids[j]
          {
            if j == |ids| - 1 {
              assert ids[i] == p.correctQuestionIds[i];
            }
          }
        }
        assert ConsistentProgress(t.progress[r]);
        assert forall other: Region :: other != r ==> t.progress[other] == s.progress[other];
      }
    case _ =>
  }

  /** From a consistent state, any sequence of actions without HYDRATE ends in a consistent state. */
  lemma {:induction false} RunPreservesConsistency(s: AppState, actions: seq<Action>)
    requires ConsistentState(s) && NoHydrate(actions)
    ensures ConsistentState(Run(s, actions))
    decreases |actions|
  {
    if actions != [] {
      assert !actions[0].Hydrate?;
      ReducePreservesConsistency(s, actions[0]);
      assert NoHydrate(actions[1..]) by {
        forall i | 0 <= i < |actions[1..]|
          ensures !actions[1..][i].Hydrate?
        {
          assert actions[1..][i] == actions[i + 1];
        }
      }
      RunPreservesConsistency(Reduce(s, actions[0]), actions[1..]);
    }
  }

  /** So after start-up without stored data, every reachable state is consistent. */
  lemma ReachableFromInitialIsConsistent(actions: seq<Action>)
    requires NoHydrate(actions)
    ensures ConsistentState(Run(InitialState, actions))
  {
    InitialStateConsistent();
    RunPreservesConsistency(InitialState, actions);
  }

  // ---------------------------------------------------------------- mastery

  /**
   * Three distinct correct answers in a fresh region: completion stays false
   * after the first two and turns true exactly on the third.
   */
  lemma ThreeDistinctAnswersMaster(s: AppState, r: Region, a: string, b: string, c: string)
    requires Total(s) && s.progress[r].correctQuestionIds == [] && !s.progress[r].quizComplete
    requires a != b && b != c && a != c
    ensures var s1 := Reduce(s, IncrementQuizCorrect(r, a));
      var s2 := Reduce(s1, IncrementQuizCorrect(r, b));
      var s3 := Reduce(s2, IncrementQuizCorrect(r, c));
      && !s1.progress[r].quizComplete && s1.progress[r].quizCorrectCount == 1
      && !s2.progress[r].quizComplete && s2.progress[r].quizCorrectCount == 2
      && s3.progress[r].quizComplete && s3.progress[r].quizCorrectCount == QuizTarget
  {
    var s1 := Reduce(s, IncrementQuizCorrect(r, a));
    assert s1.progress[r].correctQuestionIds == [a];
    var s2 := Reduce(s1, IncrementQuizCorrect(r, b));
    assert s2.progress[r].correctQuestionIds == [a, b];
  }

  /** The local bank alone suffices: answering three of a region's own questions masters it. */
  lemma LocalBankReachesMastery(s: AppState, r: Region)
    requires Total(s) && s.progress[r] == EmptyProgress
    ensures r in QuizData && |QuizData[r]| >= 3
    ensures var qs := QuizData[r];
      var s3 := Run(s, [IncrementQuizCorrect(r, qs[0].text), IncrementQuizCorrect(r, qs[1].text), IncrementQuizCorrect(r, qs[2].text)]);
      s3.progress[r].quizComplete
  {
    QuizDataWellFormed(r);
    var qs := QuizData[r];
    assert qs[0].text != qs[1].text && qs[1].text != qs[2].text && qs[0].text != qs[2].text;
    ThreeDistinctAnswersMaster(s, r, qs[0].text, qs[1].text, qs[2].text);
    var acts := [IncrementQuizCorrect(r, qs[0].text), IncrementQuizCorrect(r, qs[1].text), IncrementQuizCorrect(r, qs[2].text)];
    var s1 := Reduce(s, acts[0]);
    var s2 := Reduce(s1, acts[1]);
    var s3 := Reduce(s2, acts[2]);
    assert acts[1..][1..][1..] == [];
    assert Run(s, acts) == Run(s1, acts[1..]) == Run(s2, acts[1..][1..]) == Run(s3, acts[1..][1..][1..]);
  }
}
