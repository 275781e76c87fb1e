/** The researcher -> writer -> reviewer loop of DAY5/p8.py. The writer bumps
    an iteration counter, the reviewer parses a "SCORE:/FEEDBACK:/IMPROVED:"
    reply with a fallback, and the router sends the draft back to the writer
    until the score is good enough or three drafts have been written. Every
    model reply is a parameter, so the results hold whatever the model says. */
module ReviseLoop {
  import opened Results
  import opened Strings

  /** The graph state. `score` and `iteration` are read with `state.get(key, 0)`,
      so their absence is part of the model. */
  datatype State = State(
    question: string,
    researchNotes: string,
    draftAnswer: string,
    reviewedAnswer: string,
    feedback: string,
    score: Option<int>,
    iteration: Option<int>)

  const ScoreTag: string := "SCORE:"
  const FeedbackTag: string := "FEEDBACK:"
  const ImprovedTag: string := "IMPROVED:"

  /** Used when the reply carries no usable score. */
  const FallbackScore: int := 7
  const FallbackFeedback: string := "Improve clarity and ensure the answer directly addresses the question."

  /** Routing thresholds. */
  const GoodScore: int := 8
  const MaxIterations: int := 3

  /** The two labels of the conditional edge after the reviewer. */
  datatype Route = Rewrite | End

  // ---------------------------------------------------------------------
  // Writer and router
  // ---------------------------------------------------------------------

  /** The writer node with the model's draft as a parameter: it stores the
      draft and counts one more iteration (a missing counter counts as 0);
      every other field is left as it was. */
  function Writer(s: State, draft: string): (r: State)
    ensures r.iteration == Some(GetOr(s.iteration, 0) + 1)
    ensures r.draftAnswer == draft
    ensures r.question == s.question && r.researchNotes == s.researchNotes
    ensures r.reviewedAnswer == s.reviewedAnswer && r.feedback == s.feedback
    ensures r.score == s.score
  {
    s.(draftAnswer := draft, iteration := Some(GetOr(s.iteration, 0) + 1))
  }

  /** The conditional edge after the reviewer. */
  function ShouldContinue(s: State): (r: Route)
    ensures r == End <==> GetOr(s.score, 0) >= GoodScore || GetOr(s.iteration, 0) >= MaxIterations
  {
    if GetOr(s.score, 0) >= GoodScore then End
    else if GetOr(s.iteration, 0) >= MaxIterations then End
    else Rewrite
  }

  // ---------------------------------------------------------------------
  // Reviewer reply parsing
  // ---------------------------------------------------------------------

  /** Index of the last line that starts with `tag`, if any. */
  function LastTagged(lines: seq<string>, tag: string): (r: Option<nat>)
    ensures r.Some? ==> r.value < |lines| && StartsWith(lines[r.value], tag)
    ensures r.Some? ==> forall j :: r.value < j < |lines| ==> !StartsWith(lines[j], tag)
    ensures r.None? ==> forall j :: 0 <= j < |lines| ==> !StartsWith(lines[j], tag)
    decreases |lines|
  {
    if lines == [] then None
    else if StartsWith(lines[|lines| - 1], tag) then Some(|lines| - 1)
    else LastTagged(lines[..|lines| - 1], tag)
  }

  /** `line.replace(tag, "").strip()` */
  function TagValue(line: string, tag: string): (v: string)
    requires tag != []
    ensures |v| <= |line|
    ensures v == [] || (!IsSpace(v[0]) && !IsSpace(v[|v| - 1]))
  {
    Strip(RemoveAll(line, tag))
  }

  /** The score a "SCORE:" line sets: `int()` of its value, or 0 when `int()` raises. */
  function LineScore(line: string): (r: int)
    ensures ParseInt(TagValue(line, ScoreTag)).Some? ==> ParseInt(TagValue(line, ScoreTag)) == Some(r)
    ensures ParseInt(TagValue(line, ScoreTag)).None? ==> r == 0
  {
    GetOr(ParseInt(TagValue(line, ScoreTag)), 0)
  }

  /** The value the loop leaves in `score`: from the last "SCORE:" line, else 0. */
  function TaggedScore(lines: seq<string>): int
  {
    match LastTagged(lines, ScoreTag)
    case Some(k) => LineScore(lines[k])
    case None => 0
  }

  /** The value the loop leaves in `feedback` or `improved`: from the last line
      carrying `tag`, else the initial value `default`. */
  function TaggedText(lines: seq<string>, tag: string, default: string): string
    requires tag != []
  {
    match LastTagged(lines, tag)
    case Some(k) => TagValue(lines[k], tag)
    case None => default
  }

  datatype Review = Review(score: int, feedback: string, improved: string)

  /** What the parsing loop leaves in `score`, `feedback` and `improved` (its
      locals start as 0, "" and the incoming draft). */
  function Parsed(lines: seq<string>, draft: string): Review
  {
    Review(TaggedScore(lines), TaggedText(lines, FeedbackTag, ""), TaggedText(lines, ImprovedTag, draft))
  }

  /** The reviewer's verdict on the raw reply `resp`: the parsed values, or the
      fallback (7, fixed feedback, the whole reply) when the parsed score is 0. */
  function ReviewOf(resp: string, draft: string): (r: Review)
    ensures r.score != 0
    ensures Parsed(SplitLines(resp), draft).score != 0 ==> r == Parsed(SplitLines(resp), draft)
    ensures Parsed(SplitLines(resp), draft).score == 0 ==> r == Review(FallbackScore, FallbackFeedback, resp)
  {
    var p := Parsed(SplitLines(resp), draft);
    if p.score == 0 then Review(FallbackScore, FallbackFeedback, resp) else p
  }

  /** The three tags start with different letters, so a line carries at most one. */
  lemma TagsExclusive(line: string)
    ensures StartsWith(line, ScoreTag) ==> !StartsWith(line, FeedbackTag) && !StartsWith(line, ImprovedTag)
    ensures StartsWith(line, FeedbackTag) ==> !StartsWith(line, ImprovedTag)
  {
    if StartsWith(line, ScoreTag) { assert line[0] == 'S'; }
    if StartsWith(line, FeedbackTag) { assert line[0] == 'F'; }
  }

  /** One more line leaves a tag's last occurrence where it was unless the new line carries that tag. */
  lemma LastTaggedSnoc(lines: seq<string>, line: string, tag: string)
    ensures LastTagged(lines + [line], tag)
      == if StartsWith(line, tag) then Some(|lines|) else LastTagged(lines, tag)
  {
    assert (lines + [line])[..|lines|] == lines;
  }

  /** One more line overwrites the one field its tag names, and a line
      without a tag changes nothing. */
  lemma ParsedSnoc(lines: seq<string>, line: string, draft: string)
    ensures var p := Parsed(lines, draft);
      Parsed(lines + [line], draft)
      == if StartsWith(line, ScoreTag) then p.(score := LineScore(line))
         else if StartsWith(line, FeedbackTag) then p.(feedback := TagValue(line, FeedbackTag))
         else if StartsWith(line, ImprovedTag) then p.(improved := TagValue(line, ImprovedTag))
         else p
  {
    TagsExclusive(line);
    LastTaggedSnoc(lines, line, ScoreTag);
    LastTaggedSnoc(lines, line, FeedbackTag);
    LastTaggedSnoc(lines, line, ImprovedTag);
  }

  /** The loop over the reply's lines: each tagged line overwrites its local. */
  method ScanLines(lines: seq<string>, draft: string) returns (parsed: Review)
    ensures parsed == Parsed(lines, draft)
  {
    var score := 0;
    var feedback := "";
    var improved := draft;
    for i := 0 to |lines|
      invariant Review(score, feedback, improved) == Parsed(lines[..i], draft)
    {
      var line := lines[i];
      assert lines[..i + 1] == lines[..i] + [line];
      ParsedSnoc(lines[..i], line, draft);
      if StartsWith(line, ScoreTag) {
        var value := ParseInt(TagValue(line, ScoreTag));
        if value.Some? {
          score := value.value;
        } else {
          score := 0;
        }
      } else if StartsWith(line, FeedbackTag) {
        feedback := TagValue(line, FeedbackTag);
      } else if StartsWith(line, ImprovedTag) {
        improved := TagValue(line, ImprovedTag);
      }
    }
    assert lines[..|lines|] == lines;
    parsed := Review(score, feedback, improved);
  }

  /** The reviewer's parsing: the loop over `resp.splitlines()`, then the
      fallback when no usable score was found. */
  method ParseReview(resp: string, draft: string) returns (review: Review)
    ensures review == ReviewOf(resp, draft)
  {
    review := ScanLines(SplitLines(resp), draft);
    if review.score == 0 {
      review := Review(FallbackScore, FallbackFeedback, resp);
    }
  }

  /** The reviewer node with the model's reply as a parameter: it writes the
      verdict into `score`, `feedback` and `reviewed_answer` and nothing else. */
  method Reviewer(s: State, resp: string) returns (r: State)
    ensures var v := ReviewOf(resp, s.draftAnswer);
      r.score == Some(v.score) && r.feedback == v.feedback && r.reviewedAnswer == v.improved
    ensures r.score.Some? && r.score.value != 0
    ensures r.question == s.question && r.researchNotes == s.researchNotes
    ensures r.draftAnswer == s.draftAnswer && r.iteration == s.iteration
  {
    var v := ParseReview(resp, s.draftAnswer);
    r := s.(score := Some(v.score), feedback := v.feedback, reviewedAnswer := v.improved);
  }

  // ---------------------------------------------------------------------
  // Properties of the parser
  // ---------------------------------------------------------------------

  /** The last line carrying `tag` is the one `LastTagged` finds. */
  lemma {:induction false} LastTaggedIs(lines: seq<string>, tag: string, k: nat)
    requires k < |lines| && StartsWith(lines[k], tag)
    requires forall j :: k < j < |lines| ==> !StartsWith(lines[j], tag)
    ensures LastTagged(lines, tag) == Some(k)
    decreases |lines|
  {
    if k < |lines| - 1 {
      var init := lines[..|lines| - 1];
      assert !StartsWith(lines[|lines| - 1], tag);
      assert forall j :: k < j < |init| ==> init[j] == lines[j];
      LastTaggedIs(init, tag, k);
    }
  }

  /** Of several lines with the same tag, the last one decides the value. */
  lemma LastLineWins(lines: seq<string>, draft: string, tag: string, k: nat)
    requires tag == ScoreTag || tag == FeedbackTag || tag == ImprovedTag
    requires k < |lines| && StartsWith(lines[k], tag)
    requires forall j :: k < j < |lines| ==> !StartsWith(lines[j], tag)
    ensures tag == ScoreTag ==> Parsed(lines, draft).score == LineScore(lines[k])
    ensures tag == FeedbackTag ==> Parsed(lines, draft).feedback == TagValue(lines[k], FeedbackTag)
    ensures tag == ImprovedTag ==> Parsed(lines, draft).improved == TagValue(lines[k], ImprovedTag)
  {
    LastTaggedIs(lines, tag, k);
  }

  /** Without an "IMPROVED:" line and with a usable score, the reviewed
      answer is the incoming draft. */
  lemma NoImprovedKeepsDraft(resp: string, draft: string)
    requires forall j :: 0 <= j < |SplitLines(resp)| ==> !StartsWith(SplitLines(resp)[j], ImprovedTag)
    requires Parsed(SplitLines(resp), draft).score != 0
    ensures ReviewOf(resp, draft).improved == draft
  {
  }

  /** A reply without any "SCORE:" line falls back to score 7, the fixed
      feedback and the whole reply as the reviewed answer. */
  lemma NoScoreLineFallsBack(resp: string, draft: string)
    requires forall j :: 0 <= j < |SplitLines(resp)| ==> !StartsWith(SplitLines(resp)[j], ScoreTag)
    ensures ReviewOf(resp, draft) == Review(FallbackScore, FallbackFeedback, resp)
  {
  }

  /** `str(n)` contains no "S", so only the leading tag is removed. */
  lemma ScoreTagRemoved(n: int)
    ensures RemoveAll(ScoreTag + " " + IntToString(n), ScoreTag) == " " + IntToString(n)
  {
    var t := IntToString(n);
    var padded := " " + t;
    IntToStringChars(n);
    assert ScoreTag + " " + t == ScoreTag + padded;
    RemoveAllLeading(ScoreTag, padded);
    forall i | 0 <= i < |padded| ensures padded[i] != ScoreTag[0] {
      if i > 0 { assert padded[i] == t[i - 1]; }
    }
    RemoveAllAbsent(padded, ScoreTag);
  }

  /** "SCORE: <n>" with `str(n)` after the tag scores `n`. */
  lemma ScoreLineRoundTrip(n: int)
    ensures LineScore(ScoreTag + " " + IntToString(n)) == n
  {
    ScoreTagRemoved(n);
    StripPaddedInt(n);
    IntRoundTrip(n);
  }

  /** The three lines of a reply in the requested format. */
  function ReplyLines(n: int, feedback: string, improved: string): seq<string>
  {
    [ScoreTag + " " + IntToString(n), FeedbackTag + " " + feedback, ImprovedTag + " " + improved]
  }

  lemma SplitReplyLines(n: int, feedback: string, improved: string)
    requires NoLineBreak(feedback) && NoLineBreak(improved)
    ensures SplitLines(Join(ReplyLines(n, feedback, improved), "\n")) == ReplyLines(n, feedback, improved)
  {
    var lines := ReplyLines(n, feedback, improved);
    IntToStringChars(n);
    assert NoLineBreak(lines[0]);
    assert NoLineBreak(lines[1]);
    assert NoLineBreak(lines[2]);
    SplitJoinedLines(lines);
  }

  lemma ParseReplyLines(n: int, feedback: string, improved: string, draft: string)
    ensures var lines := ReplyLines(n, feedback, improved);
      Parsed(lines, draft) == Review(n, TagValue(lines[1], FeedbackTag), TagValue(lines[2], ImprovedTag))
  {
    var lines := ReplyLines(n, feedback, improved);
    assert lines[0][..|ScoreTag|] == ScoreTag;
    assert lines[1][..|FeedbackTag|] == FeedbackTag;
    assert lines[2][..|ImprovedTag|] == ImprovedTag;
    assert lines[1][0] == 'F' && lines[2][0] == 'I';
    LastTaggedIs(lines, ScoreTag, 0);
    LastTaggedIs(lines, FeedbackTag, 1);
    LastTaggedIs(lines, ImprovedTag, 2);
    ScoreLineRoundTrip(n);
  }

  /** The value of a line written as the tag, a blank and a text is the
      stripped text, provided the text does not itself contain the tag (every
      occurrence is removed, not just the leading one). */
  lemma TaggedLineValue(tag: string, text: string)
    requires tag == FeedbackTag || tag == ImprovedTag
    requires Absent(text, tag)
    ensures TagValue(tag + " " + text, tag) == Strip(text)
  {
    assert tag + " " + text == tag + (" " + text);
    RemoveAllLeading(tag, " " + text);
    AbsentAfterBlank(text, tag);
    RemoveAllNoOccurrence(" " + text, tag);
    StripAfterSpace(' ', text);
  }

  /** A reply in exactly the requested three-line format with a non-zero
      score is read line by line, with no fallback: the score is the one
      written, and the feedback and improved answer are the written texts,
      stripped, whenever those texts do not contain their own tag. */
  lemma WellFormedReply(n: int, feedback: string, improved: string, draft: string)
    requires n != 0
    requires NoLineBreak(feedback) && NoLineBreak(improved)
    ensures var lines := ReplyLines(n, feedback, improved);
      ReviewOf(Join(lines, "\n"), draft)
        == Review(n, TagValue(lines[1], FeedbackTag), TagValue(lines[2], ImprovedTag))
    ensures Absent(feedback, FeedbackTag) ==>
      ReviewOf(Join(ReplyLines(n, feedback, improved), "\n"), draft).feedback == Strip(feedback)
    ensures Absent(improved, ImprovedTag) ==>
      ReviewOf(Join(ReplyLines(n, feedback, improved), "\n"), draft).improved == Strip(improved)
  {
    SplitReplyLines(n, feedback, improved);
    ParseReplyLines(n, feedback, improved, draft);
    if Absent(feedback, FeedbackTag) {
      TaggedLineValue(FeedbackTag, feedback);
    }
    if Absent(improved, ImprovedTag) {
      TaggedLineValue(ImprovedTag, improved);
    }
  }

  // ---------------------------------------------------------------------
  // The whole graph
  // ---------------------------------------------------------------------

  /** The state the script starts the graph with: only the question, both
      counters at 0, so the router does not stop before a first draft. */
  function InitialState(question: string): (s: State)
    ensures s.question == question
    ensures s.researchNotes == s.draftAnswer == s.reviewedAnswer == s.feedback == ""
    ensures s.score == Some(0) && s.iteration == Some(0)
    ensures ShouldContinue(s) != End
  {
    State(question, "", "", "", "", Some(0), Some(0))
  }

  /** One writer run followed by one reviewer run. */
  method WriteAndReview(s: State, draft: string, reply: string) returns (r: State)
    ensures r.iteration == Some(GetOr(s.iteration, 0) + 1)
    ensures r.draftAnswer == draft
    ensures r.score.Some? && r.score.value != 0
    ensures r.question == s.question && r.researchNotes == s.researchNotes
  {
    var written := Writer(s, draft);
    r := Reviewer(written, reply);
  }

  /** Runs the compiled graph: researcher, writer, reviewer, then back to the
      writer for as long as the router says "rewrite". The researcher's notes
      are a parameter; `drafts(k)` is the writer's reply on its (k+1)-th run
      and `replies(k)` the reviewer's. Whatever they are, the loop stops after
      one to three drafts; it stops early only on a score of at least 8, and
      every draft it sent back had scored below 8. */
  method RunGraph(question: string, notes: string, drafts: nat -> string, replies: nat -> string)
    returns (final: State, passes: nat, scores: seq<int>)
    ensures 1 <= passes <= MaxIterations
    ensures final.iteration == Some(passes)
    ensures |scores| == passes && final.score == Some(scores[passes - 1])
    ensures forall k :: 0 <= k < passes - 1 ==> scores[k] < GoodScore
    ensures passes < MaxIterations ==> scores[passes - 1] >= GoodScore
    ensures ShouldContinue(final) == End
    ensures final.question == question && final.researchNotes == notes
    ensures final.draftAnswer == drafts(passes - 1)
  {
    var s := InitialState(question);
    s := s.(researchNotes := notes);
    s := WriteAndReview(s, drafts(0), replies(0));
    passes := 1;
    scores := [s.score.value];
    while ShouldContinue(s) == Rewrite
      invariant 1 <= passes <= MaxIterations
      invariant s.iteration == Some(passes)
      invariant |scores| == passes && s.score == Some(scores[passes - 1])
      invariant forall k :: 0 <= k < passes - 1 ==> scores[k] < GoodScore
      invariant s.question == question && s.researchNotes == notes
      invariant s.draftAnswer == drafts(passes - 1)
      decreases MaxIterations - passes
    {
      s := WriteAndReview(s, drafts(passes), replies(passes));
      passes := passes + 1;
      scores := scores + [s.score.value];
    }
    final := s;
  }
}
