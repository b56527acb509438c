/**
 * The pure rules of the progression engine (App.tsx): the lock rule, the
 * catalogue lookup, the rounding of quiz credit, the derived user level and
 * the `setUser` updater of `completeLevel`.
 */
module Progression {
  import opened Wrappers
  import opened Types
  import Text
  import opened Seqs

  /** XP needed for each user level. */
  const XpPerLevel: nat := 500
  /** Score credited for a perfect quiz. */
  const ScorePerQuiz: nat := 1000

  /** The catalogue's ids run `base`, `base + 1`, ... in order. */
  predicate IdsFrom(levels: seq<Level>, base: int) {
    forall i :: 0 <= i < |levels| ==> levels[i].id == base + i
  }

  /** `LEVELS_DATA`: ids 1..N in order. */
  predicate Catalog(levels: seq<Level>) {
    IdsFrom(levels, 1)
  }

  /** The lock rule, shared by the level map's display and `handleLevelClick`. */
  predicate IsLocked(level: Level, completed: seq<int>) {
    level.isLocked && (level.id - 1) !in completed && level.id != 1
  }

  /** `LEVELS_DATA.find(l => l.id === id)`: the first level with that id. */
  function FindLevel(levels: seq<Level>, id: Option<int>): (r: Option<Level>)
    ensures r.Some? ==> r.value in levels && id == Some(r.value.id)
    ensures r.None? <==> id.None? || forall i :: 0 <= i < |levels| ==> levels[i].id != id.value
    decreases |levels|
  {
    if id.None? || levels == [] then None
    else if levels[0].id == id.value then Some(levels[0])
    else
      var r := FindLevel(levels[1..], id);
      assert forall i :: 1 <= i < |levels| ==> levels[i] == levels[1..][i - 1];
      r
  }

  /** In a catalogue numbered from `base`, the level with id `k` sits at index `k - base`. */
  lemma {:induction false} FindLevelNumbered(levels: seq<Level>, base: int, k: int)
    requires IdsFrom(levels, base)
    ensures FindLevel(levels, Some(k)) ==
            if base <= k < base + |levels| then Some(levels[k - base]) else None
    decreases |levels|
  {
    if levels != [] && levels[0].id != k {
      assert IdsFrom(levels[1..], base + 1);
      FindLevelNumbered(levels[1..], base + 1, k);
    }
  }

  /**
   * `Math.round(reward * correct / total)` for non-negative operands: the
   * integer nearest to the quotient, halves rounded up.
   */
  function RoundedShare(reward: nat, correct: nat, total: nat): (r: nat)
    requires total > 0
    ensures 2 * total * r <= 2 * reward * correct + total < 2 * total * (r + 1)
  {
    var x, d := 2 * reward * correct + total, 2 * total;
    assert x == d * (x / d) + x % d;
    x / d
  }

  lemma LessMulCancel(d: int, a: int, b: int)
    requires d > 0 && d * a < d * b
    ensures a < b
  {
  }

  lemma MulLe(d: nat, a: int, b: int)
    requires a <= b
    ensures d * a <= d * b
  {
  }

  /** A quiz never earns more than its reward. */
  lemma ShareAtMostReward(reward: nat, correct: nat, total: nat)
    requires total > 0 && correct <= total
    ensures RoundedShare(reward, correct, total) <= reward
  {
    var r := RoundedShare(reward, correct, total);
    MulLe(reward, correct, total);
    assert 2 * total * (reward + 1) == 2 * total * reward + 2 * total;
    assert 2 * reward * correct <= 2 * total * reward;
    LessMulCancel(2 * total, r, reward + 1);
  }

  /** More correct answers never earn less. */
  lemma ShareMonotone(reward: nat, c1: nat, c2: nat, total: nat)
    requires total > 0 && c1 <= c2
    ensures RoundedShare(reward, c1, total) <= RoundedShare(reward, c2, total)
  {
    var r1, r2 := RoundedShare(reward, c1, total), RoundedShare(reward, c2, total);
    MulLe(reward, c1, c2);
    assert 2 * reward * c1 <= 2 * reward * c2;
    LessMulCancel(2 * total, r1, r2 + 1);
  }

  /** A perfect quiz earns the whole reward, an empty score earns nothing. */
  lemma ShareExtremes(reward: nat, total: nat)
    requires total > 0
    ensures RoundedShare(reward, total, total) == reward
    ensures RoundedShare(reward, 0, total) == 0
  {
    var r := RoundedShare(reward, total, total);
    assert 2 * reward * total == 2 * total * reward;
    assert 2 * total * (reward + 1) == 2 * total * reward + 2 * total;
    LessMulCancel(2 * total, r, reward + 1);
    LessMulCancel(2 * total, reward, r + 1);
    var z := RoundedShare(reward, 0, total);
    assert 2 * total * z <= total < 2 * total * 1;
    LessMulCancel(2 * total, z, 1);
  }

  /** The user level is `floor(xp / 500) + 1`: the band of 500 XP the total falls in. */
  function DerivedLevel(xp: nat): (l: int)
    ensures l >= 1
    ensures XpPerLevel * (l - 1) <= xp < XpPerLevel * l
  {
    xp / XpPerLevel + 1
  }

  /**
   * The `setUser` updater of `completeLevel`: credit the earned XP and score
   * and record the level only the first time it is completed; the level is
   * recomputed from the (possibly unchanged) XP in every case.
   */
  function Credit(prev: UserState, levelId: int, xpEarned: nat, scoreEarned: nat): (u: UserState)
    ensures levelId in prev.completedLevelIds ==>
              u.xp == prev.xp && u.score == prev.score && u.completedLevelIds == prev.completedLevelIds
    ensures levelId !in prev.completedLevelIds ==>
              && u.xp == prev.xp + xpEarned && u.score == prev.score + scoreEarned
              && u.completedLevelIds == prev.completedLevelIds + [levelId]
    ensures u.level == DerivedLevel(u.xp)
    ensures u.name == prev.name && u.totalTimeSeconds == prev.totalTimeSeconds
  {
    var firstTime := levelId !in prev.completedLevelIds;
    var completed := if firstTime then prev.completedLevelIds + [levelId] else prev.completedLevelIds;
    var xp := if firstTime then prev.xp + xpEarned else prev.xp;
    var score := if firstTime then prev.score + scoreEarned else prev.score;
    prev.(xp := xp, score := score, completedLevelIds := completed, level := DerivedLevel(xp))
  }

  /** Completing a level a second time changes nothing, whatever the second quiz earned. */
  lemma CreditIdempotent(u: UserState, levelId: int, x1: nat, s1: nat, x2: nat, s2: nat)
    ensures Credit(Credit(u, levelId, x1, s1), levelId, x2, s2) == Credit(u, levelId, x1, s1)
  {
  }

  /** Credit never lowers XP or score, keeps the id list duplicate-free and records the level. */
  lemma CreditMonotone(u: UserState, levelId: int, xpEarned: nat, scoreEarned: nat)
    requires Distinct(u.completedLevelIds)
    ensures var v := Credit(u, levelId, xpEarned, scoreEarned);
            && v.xp >= u.xp && v.score >= u.score
            && Distinct(v.completedLevelIds)
            && levelId in v.completedLevelIds
            && forall k :: k in u.completedLevelIds ==> k in v.completedLevelIds
  {
  }

  /** The text sent for challenge generation: every lesson's content joined by newlines. */
  function LessonContext(lessons: seq<LessonPart>): string {
    Text.Join(seq(|lessons|, i requires 0 <= i < |lessons| => lessons[i].content), "\n")
  }

  /** The context carries every lesson's content, in order, when no content spans lines. */
  lemma LessonContextRecoversContents(lessons: seq<LessonPart>)
    requires |lessons| >= 1
    requires forall i :: 0 <= i < |lessons| ==> '\n' !in lessons[i].content
    ensures var parts := Text.Split(LessonContext(lessons), '\n');
            |parts| == |lessons| && forall i :: 0 <= i < |lessons| ==> parts[i] == lessons[i].content
  {
    var contents := seq(|lessons|, i requires 0 <= i < |lessons| => lessons[i].content);
    Text.SplitJoin(contents, '\n');
  }

  /** The context holds every line of every lesson's content, in lesson order. */
  lemma LessonContextLines(lessons: seq<LessonPart>)
    requires |lessons| >= 1
    ensures Text.Split(LessonContext(lessons), '\n') ==
            Text.SplitAll(seq(|lessons|, i requires 0 <= i < |lessons| => lessons[i].content), '\n')
  {
    Text.SplitJoinAll(seq(|lessons|, i requires 0 <= i < |lessons| => lessons[i].content), '\n');
  }

  /**
   * The quiz of a session: the static bank first, in its order, then the
   * challenge questions; no challenge questions leaves the bank alone.
   */
  function MergeQuestions(quiz: seq<QuizQuestion>, challenge: seq<QuizQuestion>): (r: seq<QuizQuestion>)
    ensures |r| == |quiz| + |challenge|
    ensures r[..|quiz|] == quiz && r[|quiz|..] == challenge
    ensures challenge == [] ==> r == quiz
  {
    if |challenge| > 0 then quiz + challenge else quiz
  }

  /** A duplicate-free list has exactly as many distinct elements as entries. */
  lemma {:induction false} DistinctCard(ids: seq<int>)
    requires Distinct(ids)
    ensures |set k | k in ids| == |ids|
    decreases |ids|
  {
    if ids != [] {
      var tail := ids[1..];
      assert Distinct(tail);
      DistinctCard(tail);
      assert (set k | k in ids) == (set k | k in tail) + {ids[0]};
      assert ids[0] !in tail;
    }
  }

  /** The ids `1..n`. */
  function IdRange(n: nat): (r: set<int>)
    ensures |r| == n
    ensures forall k :: k in r <==> 1 <= k <= n
  {
    if n == 0 then {} else IdRange(n - 1) + {n}
  }

  /**
   * A duplicate-free list of catalogue ids that is at least as long as the
   * catalogue holds every id: the `completion` achievement's length test
   * means that every level was completed.
   */
  lemma CompletedAll(ids: seq<int>, n: nat)
    requires Distinct(ids)
    requires forall i :: 0 <= i < |ids| ==> 1 <= ids[i] <= n
    requires |ids| >= n
    ensures forall k :: 1 <= k <= n ==> k in ids
  {
    var s := set k | k in ids;
    var range := IdRange(n);
    DistinctCard(ids);
    assert s <= range;
    var missing := range - s;
    assert range == s + missing && s * missing == {};
    assert |missing| == 0;
    forall k | 1 <= k <= n ensures k in ids {
      assert k in range && k !in missing;
    }
  }
}
