/**
 * `format_chat_history`: a flat chat history, alternating questions and
 * answers, rendered as numbered question/answer pairs for the query-rewriting
 * prompt. A history of odd length ends with a question whose answer is empty.
 */
module ChatHistory {
  import opened Text

  /** Item `i` of the history, or "" past its end. */
  function AnswerAt(h: seq<string>, i: nat): string {
    if i < |h| then h[i] else ""
  }

  /** The text one loop step appends for question number `k`. */
  function Entry(k: nat, question: string, answer: string): string {
    "question " + NatToString(k) + ":" + question + "\nanswer " + NatToString(k) + ":" + answer + "\n"
  }

  /** One entry per question: items `2k` and `2k + 1` form entry `k`, numbered from 1. */
  function Entries(h: seq<string>): (es: seq<string>)
    ensures |es| == (|h| + 1) / 2
  {
    seq((|h| + 1) / 2, k requires 0 <= k < (|h| + 1) / 2 => Entry(k + 1, h[2 * k], AnswerAt(h, 2 * k + 1)))
  }

  /** The strings of `ss` joined end to end; the join begins with the first of them. */
  function Concat(ss: seq<string>): (s: string)
    ensures |s| >= if ss == [] then 0 else |ss[0]|
    ensures ss != [] ==> StartsWith(s, ss[0])
  {
    if ss == [] then "" else Concat(ss[..|ss| - 1]) + ss[|ss| - 1]
  }

  /** The formatted history: all entries joined, with surrounding whitespace stripped. */
  function Format(h: seq<string>): (s: string)
    ensures h == [] ==> s == ""
    ensures s != [] ==> !IsSpace(s[0]) && !IsSpace(s[|s| - 1])
  {
    Strip(Concat(Entries(h)))
  }

  /**
   * A question and its answer appended to a history of whole pairs add exactly
   * one entry, numbered after the others, and leave the earlier entries alone.
   */
  lemma AppendPairAddsEntry(h: seq<string>, q: string, a: string)
    requires |h| % 2 == 0
    ensures Entries(h + [q, a]) == Entries(h) + [Entry(|h| / 2 + 1, q, a)]
    ensures Concat(Entries(h + [q, a])) == Concat(Entries(h)) + Entry(|h| / 2 + 1, q, a)
  {
    var g := h + [q, a];
    assert forall k :: 0 <= k < |h| / 2 ==> Entries(g)[k] == Entries(h)[k];
    assert Entries(g)[|h| / 2] == Entry(|h| / 2 + 1, q, a);
    assert Entries(g)[..|Entries(g)| - 1] == Entries(h);
  }

  /**
   * A question still waiting for its answer, appended to a history of whole
   * pairs, adds one entry whose answer is empty.
   */
  lemma AppendQuestionAddsOpenEntry(h: seq<string>, q: string)
    requires |h| % 2 == 0
    ensures Entries(h + [q]) == Entries(h) + [Entry(|h| / 2 + 1, q, "")]
  {
    var g := h + [q];
    assert forall k :: 0 <= k < |h| / 2 ==> Entries(g)[k] == Entries(h)[k];
    assert Entries(g)[|h| / 2] == Entry(|h| / 2 + 1, q, "");
  }

  lemma ConcatStep(ss: seq<string>, k: nat)
    requires k < |ss|
    ensures Concat(ss[..k + 1]) == Concat(ss[..k]) + ss[k]
  {
    assert ss[..k + 1][..k] == ss[..k];
  }

  /** Stripping keeps a prefix that neither starts nor ends with whitespace. */
  lemma StripKeepsPrefix(s: string, p: string)
    requires StartsWith(s, p) && p != [] && !IsSpace(p[0]) && !IsSpace(p[|p| - 1])
    ensures StartsWith(Strip(s), p)
  {
    assert TrimStart(s) == s;
    var r := TrimEnd(s);
    assert forall i :: 0 <= i < |p| ==> r[i] == s[i];
  }

  /** A non-empty history's text opens with its first question, unstripped, and the first answer label. */
  lemma FormatOpensWithFirstQuestion(h: seq<string>)
    requires h != []
    ensures StartsWith(Format(h), "question 1:" + h[0] + "\nanswer 1:")
  {
    var es := Entries(h);
    var p := "question 1:" + h[0] + "\nanswer 1:";
    assert NatToString(1) == "1";
    assert StartsWith(es[0], p);
    assert StartsWith(Concat(es), p);
    StripKeepsPrefix(Concat(es), p);
  }

  /** One step of the loop: joining entry `k`, numbered `k + 1`, after the first `k`. */
  lemma EntryStep(h: seq<string>, k: nat, questionNum: nat, question: string, answer: string)
    requires 2 * k < |h| && questionNum == k + 1 && question == h[2 * k] && answer == AnswerAt(h, 2 * k + 1)
    ensures k < |Entries(h)|
    ensures Concat(Entries(h)[..k + 1]) == Concat(Entries(h)[..k]) + Entry(questionNum, question, answer)
  {
    ConcatStep(Entries(h), k);
  }

  /** The loop of `format_chat_history`, stepping through the history two items at a time. */
  method FormatChatHistory(h: seq<string>) returns (s: string)
    ensures s == Format(h)
  {
    var formatted := "";
    var i := 0;
    ghost var k := 0;
    while i < |h|
      invariant i == 2 * k && k <= |Entries(h)|
      invariant formatted == Concat(Entries(h)[..k])
    {
      var questionNum := i / 2 + 1;
      var question := h[i];
      var answer := if i + 1 < |h| then h[i + 1] else "";
      EntryStep(h, k, questionNum, question, answer);
      formatted := formatted + Entry(questionNum, question, answer);
      i := i + 2;
      k := k + 1;
    }
    assert Entries(h)[..k] == Entries(h);
    s := Strip(formatted);
  }
}
