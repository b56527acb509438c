/**
 * The client side of the two proxy routes (services/geminiService.ts): the
 * chat reply with its two fallback texts, and the challenge questions with
 * freshly minted ids.
 */
module GeminiService {
  import opened Wrappers
  import opened Types
  import opened Upstream
  import Text

  /** Shown when the route answers an error status or the call throws. */
  const ProtocolError: string := "Ошибка протокола связи. Проверьте соединение."
  /** Shown when the route answers without a text. */
  const Unstable: string := "Соединение с нейросетью нестабильно. Повторите запрос."

  /**
   * `sendMessageToGemini`, given how the call to `/api/chat` ended and the
   * answer's `text` field: the chat always receives a non-empty reply.
   */
  function SendMessage(outcome: Outcome<Option<string>>): (r: string)
    ensures !outcome.Ok? ==> r == ProtocolError
    ensures outcome.Ok? ==> r == OrElse(outcome.body, Unstable)
    ensures r != ""
  {
    match outcome
    case Ok(text) => OrElse(text, Unstable)
    case _ => ProtocolError
  }

  /** The id of the `i`-th generated question, minted at clock reading `now`: `ai-gen-<now>-<i>`. */
  function MintId(now: nat, i: nat): (r: string)
    ensures IdTail(r) == Text.NatToString(i)
  {
    var head := "ai-gen-" + Text.NatToString(now);
    assert '-' !in Text.NatToString(i);
    IdTailOf(head, Text.NatToString(i));
    head + "-" + Text.NatToString(i)
  }

  /** What follows the last `-` of a string (all of it when there is none). */
  function IdTail(s: string): string
    decreases |s|
  {
    if s == [] || s[|s| - 1] == '-' then [] else IdTail(s[..|s| - 1]) + [s[|s| - 1]]
  }

  /** A tail without a dash is exactly what follows the last dash. */
  lemma {:induction false} IdTailOf(head: string, tail: string)
    requires '-' !in tail
    ensures IdTail(head + "-" + tail) == tail
    decreases |tail|
  {
    var s := head + "-" + tail;
    if tail == [] {
      assert s[|s| - 1] == '-';
    } else {
      var init := tail[..|tail| - 1];
      assert s[..|s| - 1] == head + "-" + init;
      assert s[|s| - 1] == tail[|tail| - 1];
      assert tail[|tail| - 1] in tail;
      assert forall c :: c in init ==> c in tail;
      IdTailOf(head, init);
      assert init + [tail[|tail| - 1]] == tail;
    }
  }

  /** Ids minted at different positions differ, whatever the clock read for each. */
  lemma MintIdInjective(now1: nat, now2: nat, i: nat, j: nat)
    requires MintId(now1, i) == MintId(now2, j)
    ensures i == j
  {
    assert Text.NatToString(i) == IdTail(MintId(now1, i)) == IdTail(MintId(now2, j)) == Text.NatToString(j);
    Text.NatToStringInjective(i, j);
  }

  /**
   * `q.map((item, i) => ({ ...item, id: ... }))`; `clock(i)` is the reading
   * `Date.now()` gives while the `i`-th item is mapped.
   */
  function Remint(items: seq<QuizQuestion>, clock: nat -> nat): (r: seq<QuizQuestion>)
    ensures |r| == |items|
    ensures forall i :: 0 <= i < |r| ==> r[i] == items[i].(id := MintId(clock(i), i))
  {
    seq(|items|, i requires 0 <= i < |items| => items[i].(id := MintId(clock(i), i)))
  }

  /** Reminted questions keep their order and content, and their ids are pairwise distinct. */
  lemma RemintDistinctIds(items: seq<QuizQuestion>, clock: nat -> nat)
    ensures var r := Remint(items, clock);
            forall i, j :: 0 <= i < j < |r| ==> r[i].id != r[j].id
  {
    var r := Remint(items, clock);
    forall i, j | 0 <= i < j < |r| ensures r[i].id != r[j].id {
      if r[i].id == r[j].id {
        MintIdInjective(clock(i), clock(j), i, j);
      }
    }
  }

  /**
   * `generateChallengeQuestions`, given how the call to `/api/questions`
   * ended and the clock readings taken while the items are mapped: every
   * failure gives no questions.
   */
  function GenerateChallengeQuestions(outcome: Outcome<QuestionsField>, clock: nat -> nat): (r: seq<QuizQuestion>)
    ensures outcome.Ok? && outcome.body.Items? ==> r == Remint(outcome.body.items, clock)
    ensures !(outcome.Ok? && outcome.body.Items?) ==> r == []
  {
    match outcome
    case Ok(Items(items)) => Remint(items, clock)
    case _ => []
  }
}
