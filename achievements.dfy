/**
 * The achievement notifier (`AchievementManager` in components/UIComponents.tsx):
 * a one-shot set of processed ids, a FIFO queue of unlocks waiting to be
 * shown, and a single visible toast that a timer or a click dismisses.
 */
module Achievements {
  import opened Wrappers
  import opened Types
  import opened Seqs

  /** The ids the notifier detects, in the order it tests them. */
  datatype AchievementId = FirstSteps | Level3 | Level5 | QuizMaster | Completion

  /** The id's string in `ACHIEVEMENTS_DATA`. */
  function Name(id: AchievementId): string {
    match id
    case FirstSteps => "first_steps"
    case Level3 => "level_3"
    case Level5 => "level_5"
    case QuizMaster => "quiz_master"
    case Completion => "completion"
  }

  /** The position of an id in the detection order. */
  function Rank(id: AchievementId): nat {
    match id
    case FirstSteps => 0
    case Level3 => 1
    case Level5 => 2
    case QuizMaster => 3
    case Completion => 4
  }

  /** Completed levels the `completion` achievement asks for. */
  const CompletionCount: nat := 8

  /** An entry of `ACHIEVEMENTS_DATA`. */
  datatype Achievement = Achievement(id: string, title: string, desc: string, icon: string)

  /** The unlock condition of each id. */
  predicate Triggered(user: UserState, id: AchievementId) {
    match id
    case FirstSteps => user.xp > 0
    case Level3 => user.level >= 3
    case Level5 => user.level >= 5
    case QuizMaster => user.score > 0
    case Completion => |user.completedLevelIds| >= CompletionCount
  }

  /** The detection order of the source's `if` chain. */
  const DetectionOrder: seq<AchievementId> := [FirstSteps, Level3, Level5, QuizMaster, Completion]

  predicate RankIncreasing(ids: seq<AchievementId>) {
    forall i, j :: 0 <= i < j < |ids| ==> Rank(ids[i]) < Rank(ids[j])
  }

  /** The ids of `ids`, kept in order, whose condition holds and that were never processed. */
  function Pick(user: UserState, processed: set<AchievementId>, ids: seq<AchievementId>): (r: seq<AchievementId>)
    requires RankIncreasing(ids)
    ensures forall id :: id in r <==> id in ids && Triggered(user, id) && id !in processed
    ensures RankIncreasing(r)
    decreases |ids|
  {
    if ids == [] then []
    else
      TailRanked(ids);
      var rest := Pick(user, processed, ids[1..]);
      if Triggered(user, ids[0]) && ids[0] !in processed then
        ConsRanked(ids[0], rest);
        [ids[0]] + rest
      else rest
  }

  /** The tail of a rank-increasing list is rank-increasing, and every entry outranks the head. */
  lemma TailRanked(ids: seq<AchievementId>)
    requires RankIncreasing(ids) && ids != []
    ensures RankIncreasing(ids[1..])
    ensures forall x :: x in ids[1..] ==> Rank(ids[0]) < Rank(x)
  {
    forall x | x in ids[1..] ensures Rank(ids[0]) < Rank(x) {
      var k :| 0 <= k < |ids[1..]| && ids[1..][k] == x;
      assert ids[k + 1] == x;
    }
  }

  /** A head below every entry of a rank-increasing list keeps it rank-increasing. */
  lemma ConsRanked(x: AchievementId, rest: seq<AchievementId>)
    requires RankIncreasing(rest)
    requires forall y :: y in rest ==> Rank(x) < Rank(y)
    ensures RankIncreasing([x] + rest)
  {
    var c := [x] + rest;
    forall i, j | 0 <= i < j < |c| ensures Rank(c[i]) < Rank(c[j]) {
      assert c[j] == rest[j - 1];
      if i > 0 {
        assert c[i] == rest[i - 1];
      }
    }
  }

  /**
   * The unlocks one change of the user state adds: the ids whose condition
   * holds and that were never processed, in the fixed detection order.
   */
  function Detect(user: UserState, processed: set<AchievementId>): (r: seq<AchievementId>)
    ensures forall id :: id in r <==> Triggered(user, id) && id !in processed
    ensures RankIncreasing(r)
    ensures Distinct(r)
  {
    OrderRanked();
    var r := Pick(user, processed, DetectionOrder);
    forall id: AchievementId ensures id in r <==> Triggered(user, id) && id !in processed {
      InOrder(id);
    }
    RankedDistinct(r);
    r
  }

  lemma OrderRanked()
    ensures RankIncreasing(DetectionOrder)
  {
    forall i, j | 0 <= i < j < |DetectionOrder| ensures Rank(DetectionOrder[i]) < Rank(DetectionOrder[j]) {
      assert Rank(DetectionOrder[i]) == i && Rank(DetectionOrder[j]) == j;
    }
  }

  lemma InOrder(id: AchievementId)
    ensures id in DetectionOrder
  {
    assert DetectionOrder[Rank(id)] == id;
  }

  lemma RankedDistinct(ids: seq<AchievementId>)
    requires RankIncreasing(ids)
    ensures Distinct(ids)
  {
  }

  /** Once the detected ids are processed, the same user state detects nothing more. */
  lemma DetectOneShot(user: UserState, later: UserState, processed: set<AchievementId>)
    ensures Detect(user, processed + Elements(Detect(user, processed))) == []
    ensures forall id :: id in Detect(later, processed + Elements(Detect(user, processed))) ==>
              id !in Detect(user, processed)
  {
    var d := Detect(user, processed);
    var p := processed + Elements(d);
    assert forall id :: id in d ==> id in p;
    OrderRanked();
    PickNone(user, p, DetectionOrder);
  }

  /** Nothing is picked when no id of the list is newly unlocked. */
  lemma {:induction false} PickNone(user: UserState, processed: set<AchievementId>, ids: seq<AchievementId>)
    requires RankIncreasing(ids)
    requires forall id :: id in ids ==> !Triggered(user, id) || id in processed
    ensures Pick(user, processed, ids) == []
    decreases |ids|
  {
    if ids != [] {
      assert forall id :: id in ids[1..] ==> id in ids;
      PickNone(user, processed, ids[1..]);
    }
  }

  /** `ACHIEVEMENTS_DATA.find(a => a.id === visible)`: what the toast renders, if anything. */
  function Rendered(catalog: seq<Achievement>, visible: Option<AchievementId>): (r: Option<Achievement>)
    ensures r.Some? ==> r.value in catalog && visible.Some? && r.value.id == Name(visible.value)
    ensures r.None? <==> visible.None? || forall i :: 0 <= i < |catalog| ==> catalog[i].id != Name(visible.value)
    decreases |catalog|
  {
    if visible.None? || catalog == [] then None
    else if catalog[0].id == Name(visible.value) then Some(catalog[0])
    else
      var r := Rendered(catalog[1..], visible);
      assert forall i :: 1 <= i < |catalog| ==> catalog[i] == catalog[1..][i - 1];
      r
  }

  /** The slot and the queue, with whether a dismissal timer is pending. */
  datatype Toasts = Toasts(queue: seq<AchievementId>, visible: Option<AchievementId>, timerArmed: bool)

  /**
   * One run of the queue effect as the source writes it. React first runs the
   * cleanup of the previous run, which clears that run's timer; then, with
   * the slot free and the queue non-empty, the head is shown and a timer is
   * armed.
   */
  function QueueEffectAsWritten(t: Toasts): Toasts {
    var t1 := t.(timerArmed := false);
    if t1.visible.Some? || t1.queue == [] then t1
    else Toasts(t1.queue[1..], Some(t1.queue[0]), true)
  }

  /**
   * React re-runs the effect when a run changed the queue or the slot, which
   * are its dependencies.
   */
  function SettleAsWritten(t: Toasts): Toasts {
    var t1 := QueueEffectAsWritten(t);
    if t1.queue == t.queue && t1.visible == t.visible then t1 else QueueEffectAsWritten(t1)
  }

  /** The timer's callback: clear the slot if the timer is still pending. */
  function TimerFires(t: Toasts): Toasts {
    if t.timerArmed then t.(visible := None) else t
  }

  /**
   * As written, the run that shows a toast changes its own dependencies, so
   * the re-run's cleanup cancels the 7000 ms timer at once: whenever a queued
   * toast takes a free slot, it stays until it is clicked, and the timer's
   * expiry changes nothing.
   */
  lemma AutoDismissLost(t: Toasts)
    requires t.visible.None? && t.queue != []
    ensures SettleAsWritten(t) == Toasts(t.queue[1..], Some(t.queue[0]), false)
    ensures TimerFires(SettleAsWritten(t)) == SettleAsWritten(t)
  {
  }

  /** One instance: a single unlock on an empty slot is never dismissed by the timer. */
  lemma AutoDismissLostExample()
    ensures TimerFires(SettleAsWritten(Toasts([FirstSteps], None, false))).visible == Some(FirstSteps)
  {
    AutoDismissLost(Toasts([FirstSteps], None, false));
  }

  /**
   * The evidently intended behaviour: the timer belongs to the visible toast
   * (armed whenever one is shown, cancelled only when it goes), and the queue
   * effect only moves the head into a free slot.
   */
  function Settle(t: Toasts): (r: Toasts)
    ensures r.timerArmed <==> r.visible.Some?
    ensures r.visible.None? ==> t.visible.None? && t.queue == [] && r.queue == []
    ensures t.visible.None? && t.queue != [] ==> r.visible == Some(t.queue[0]) && r.queue == t.queue[1..]
    ensures t.visible.Some? ==> r.visible == t.visible && r.queue == t.queue
  {
    var t1 := if t.visible.None? && t.queue != [] then Toasts(t.queue[1..], Some(t.queue[0]), t.timerArmed) else t;
    t1.(timerArmed := t1.visible.Some?)
  }

  /** With the intended timer, a shown toast is dismissed when the timer fires. */
  lemma AutoDismissKept(t: Toasts)
    requires Settle(t).visible.Some?
    ensures TimerFires(Settle(t)).visible.None?
  {
  }

  class AchievementManager {
    /** `processedRef.current`. */
    var processed: set<AchievementId>
    var queue: seq<AchievementId>
    var visible: Option<AchievementId>
    /** Whether the dismissal timer of the visible toast is pending. */
    var timerArmed: bool
    /** Every id ever enqueued, in order. */
    ghost var enqueued: seq<AchievementId>
    /** The ids that have left the queue for the slot, in order. */
    ghost var shown: seq<AchievementId>

    /**
     * Each id is enqueued at most once; the queue is what was enqueued and not
     * yet shown (FIFO); the visible toast is the last one shown; the slot is
     * only empty when nothing is waiting; a timer is pending for the toast.
     */
    ghost predicate Valid()
      reads this
    {
      && Distinct(enqueued)
      && enqueued == shown + queue
      && (forall id :: id in processed <==> id in enqueued)
      && (visible.Some? ==> |shown| > 0 && visible.value == shown[|shown| - 1])
      && (visible.None? ==> queue == [])
      && (timerArmed <==> visible.Some?)
    }

    constructor ()
      ensures Valid()
      ensures processed == {} && queue == [] && visible == None && enqueued == []
    {
      processed := {};
      queue := [];
      visible := None;
      timerArmed := false;
      enqueued := [];
      shown := [];
    }

    /** Apply the queue effect (and the timer effect) after a change to the queue or the slot. */
    method SettleSlot()
      requires Distinct(enqueued) && enqueued == shown + queue
      requires forall id :: id in processed <==> id in enqueued
      requires visible.Some? ==> |shown| > 0 && visible.value == shown[|shown| - 1]
      modifies this`queue, this`visible, this`timerArmed, this`shown
      ensures Valid()
      ensures Toasts(queue, visible, timerArmed) == Settle(Toasts(old(queue), old(visible), old(timerArmed)))
    {
      if visible.None? && queue != [] {
        shown := shown + [queue[0]];
        visible := Some(queue[0]);
        queue := queue[1..];
      }
      timerArmed := visible.Some?;
    }

    /** Mark fresh unlocks processed and append them to the queue, then settle the slot. */
    method Enqueue(newUnlocks: seq<AchievementId>)
      requires Valid()
      requires Distinct(newUnlocks) && forall id :: id in newUnlocks ==> id !in processed
      modifies this`processed, this`queue, this`visible, this`timerArmed, this`enqueued, this`shown
      ensures Valid()
      ensures enqueued == old(enqueued) + newUnlocks
      ensures processed == old(processed) + Elements(newUnlocks)
      ensures Toasts(queue, visible, timerArmed) == Settle(Toasts(old(queue) + newUnlocks, old(visible), old(timerArmed)))
    {
      DistinctConcat(enqueued, newUnlocks);
      AppendAssoc(shown, queue, newUnlocks);
      processed := processed + Elements(newUnlocks);
      queue := queue + newUnlocks;
      enqueued := enqueued + newUnlocks;
      SettleSlot();
    }

    /**
     * The detection effect, run on every new user state: newly satisfied,
     * never-processed ids are marked processed and appended to the queue.
     */
    method Observe(user: UserState)
      requires Valid()
      modifies this`processed, this`queue, this`visible, this`timerArmed, this`enqueued, this`shown
      ensures Valid()
      ensures enqueued == old(enqueued) + Detect(user, old(processed))
      ensures processed == old(processed) + Elements(Detect(user, old(processed)))
      ensures Toasts(queue, visible, timerArmed) ==
              Settle(Toasts(old(queue) + Detect(user, old(processed)), old(visible), old(timerArmed)))
    {
      var newUnlocks := Detect(user, processed);
      if |newUnlocks| > 0 {
        Enqueue(newUnlocks);
      } else {
        assert Elements(newUnlocks) == {};
        assert queue + newUnlocks == queue;
        assert enqueued + newUnlocks == enqueued;
      }
    }

    /** A click on the toast clears the slot; the next queued toast, if any, takes it. */
    method Click()
      requires Valid()
      modifies this`queue, this`visible, this`timerArmed, this`shown
      ensures Valid()
      ensures Toasts(queue, visible, timerArmed) == Settle(Toasts(old(queue), None, old(timerArmed)))
    {
      visible := None;
      SettleSlot();
    }

    /** The 7000 ms timer of the visible toast expires. */
    method Timeout()
      requires Valid()
      modifies this`queue, this`visible, this`timerArmed, this`shown
      ensures Valid()
      ensures Toasts(queue, visible, timerArmed) == Settle(TimerFires(Toasts(old(queue), old(visible), old(timerArmed))))
    {
      if timerArmed {
        visible := None;
      }
      SettleSlot();
    }

    /** The toast on screen: nothing when the slot is empty or the id is not in the catalogue. */
    function Toast(catalog: seq<Achievement>): (r: Option<Achievement>)
      reads this
      ensures r.Some? ==> visible.Some? && r.value.id == Name(visible.value) && r.value in catalog
    {
      Rendered(catalog, visible)
    }
  }
}
