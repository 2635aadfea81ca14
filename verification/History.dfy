/**
 The conversation history of the recommendation prompt (src/agents/core/recommendations.py,
 `format_history_context`): group the events by run into turns, then pack the newest turns
 that fit into the character budget.
 */
module History {
  import opened Basics
  import opened TextClip

  datatype Kind = UserMessage | Chunk | Summary | Other

  // An event with its raw content; an absent or empty run id is "".
  datatype Event = Event(kind: Kind, raw: string, runId: string)

  datatype Turn = Turn(question: string, answer: string)

  function Content(e: Event): string { NormalizeText(e.raw) }

  predicate Relevant(e: Event) { e.kind != Other && Content(e) != "" }

  function Decimal(n: nat): string {
    if n < 10 then ['0' + n as char] else Decimal(n / 10) + ['0' + (n % 10) as char]
  }

  // str(event.get("run_id") or len(turns) or "unknown")
  function RunKey(e: Event, turns: nat): string {
    if e.runId != "" then e.runId else if turns > 0 then Decimal(turns) else "unknown"
  }

  // What one event makes of its turn.
  function Extend(t: Turn, e: Event): Turn {
    match e.kind
    case UserMessage => t.(question := Content(e))
    case Chunk => t.(answer := Strip(t.answer + Content(e)))
    case Summary => if t.answer == "" then t.(answer := Content(e)) else t
    case Other => t
  }

  const EMPTY: Turn := Turn("", "")

  // ---------------------------------------------------------------- grouping by run

  function RelevantOf(events: seq<Event>): seq<Event> {
    if events == [] then []
    else
      var before, last := RelevantOf(events[..|events| - 1]), events[|events| - 1];
      if Relevant(last) then before + [last] else before
  }

  function OfRun(events: seq<Event>, run: string): seq<Event> {
    if events == [] then []
    else
      var before, last := OfRun(events[..|events| - 1], run), events[|events| - 1];
      if last.runId == run then before + [last] else before
  }

  function FoldTurn(events: seq<Event>): Turn {
    if events == [] then EMPTY else Extend(FoldTurn(events[..|events| - 1]), events[|events| - 1])
  }

  function TurnOf(events: seq<Event>, run: string): Turn { FoldTurn(OfRun(events, run)) }

  // The run ids in order of first appearance.
  function Runs(events: seq<Event>): seq<string> {
    if events == [] then []
    else
      var before := Runs(events[..|events| - 1]);
      var run := events[|events| - 1].runId;
      if run in before then before else before + [run]
  }

  // One turn for each run, in order of first appearance, folded from that run's events.
  ghost predicate GroupedByRun(events: seq<Event>, turns: seq<Turn>) {
    var relevant := RelevantOf(events);
    && |turns| == |Runs(relevant)|
    && forall i :: 0 <= i < |turns| ==> turns[i] == TurnOf(relevant, Runs(relevant)[i])
  }

  ghost predicate HaveRuns(events: seq<Event>) { forall i :: 0 <= i < |events| ==> events[i].runId != "" }

  // The turns and, for each run key, the position of its turn.
  datatype Groups = Groups(turns: seq<Turn>, index: map<string, nat>)

  predicate IndexInv(g: Groups) { forall k :: k in g.index ==> g.index[k] < |g.turns| }

  // current_turn(run), then the event.
  function Add(g: Groups, run: string, e: Event): Groups
    requires IndexInv(g)
  {
    if run in g.index then g.(turns := g.turns[g.index[run] := Extend(g.turns[g.index[run]], e)])
    else Groups(g.turns + [Extend(EMPTY, e)], g.index[run := |g.turns|])
  }

  ghost predicate TidyTurns(turns: seq<Turn>) {
    forall i :: 0 <= i < |turns| ==> Tidy(turns[i].question) && Tidy(turns[i].answer)
  }

  lemma ExtendIsTidy(t: Turn, e: Event)
    requires Tidy(t.question) && Tidy(t.answer)
    ensures Tidy(Extend(t, e).question) && Tidy(Extend(t, e).answer)
  {
    NormalizeIsTidy(e.raw);
    TidyAppend(t.answer, Content(e));
    StripTidy(t.answer + Content(e));
  }

  lemma AddIsTidy(g: Groups, run: string, e: Event)
    requires IndexInv(g) && TidyTurns(g.turns)
    ensures IndexInv(Add(g, run, e)) && TidyTurns(Add(g, run, e).turns)
  {
    ExtendIsTidy(if run in g.index then g.turns[g.index[run]] else EMPTY, e);
  }

  lemma {:induction false} RunsAreDistinct(events: seq<Event>)
    ensures forall i, j :: 0 <= i < j < |Runs(events)| ==> Runs(events)[i] != Runs(events)[j]
  {
    if events != [] { RunsAreDistinct(events[..|events| - 1]); }
  }

  lemma {:induction false} NoEventsOfOtherRuns(events: seq<Event>, run: string)
    requires run !in Runs(events)
    ensures OfRun(events, run) == []
  {
    if events != [] { NoEventsOfOtherRuns(events[..|events| - 1], run); }
  }

  // The grouping of the relevant events seen so far, and the index that goes with it.
  ghost predicate GroupInv(relevant: seq<Event>, g: Groups) {
    && |g.turns| == |Runs(relevant)|
    && (forall i :: 0 <= i < |g.turns| ==> g.turns[i] == TurnOf(relevant, Runs(relevant)[i]))
    && (forall k :: k in g.index <==> k in Runs(relevant))
    && (forall k :: k in g.index ==> g.index[k] < |g.turns| && Runs(relevant)[g.index[k]] == k)
  }

  lemma FoldOneMore(before: seq<Event>, e: Event, run: string)
    ensures TurnOf(before + [e], run) == if e.runId == run then Extend(TurnOf(before, run), e) else TurnOf(before, run)
  {
    var own := OfRun(before, run);
    assert (before + [e])[..|before|] == before;
    assert OfRun(before + [e], run) == if e.runId == run then own + [e] else own;
    assert (own + [e])[..|own|] == own;
  }

  lemma RunsOneMore(before: seq<Event>, e: Event)
    ensures Runs(before + [e]) == if e.runId in Runs(before) then Runs(before) else Runs(before) + [e.runId]
  {
    assert (before + [e])[..|before|] == before;
  }

  lemma GroupStep(before: seq<Event>, e: Event, g: Groups)
    requires GroupInv(before, g)
    ensures GroupInv(before + [e], Add(g, e.runId, e))
  {
    RunsOneMore(before, e);
    if e.runId in g.index { KnownRun(before, e, g); } else { NewRun(before, e, g); }
  }

  lemma KnownRun(before: seq<Event>, e: Event, g: Groups)
    requires GroupInv(before, g) && e.runId in g.index && Runs(before + [e]) == Runs(before)
    ensures GroupInv(before + [e], Add(g, e.runId, e))
  {
    var runs, turns, at := Runs(before), Add(g, e.runId, e).turns, g.index[e.runId];
    RunsAreDistinct(before);
    forall i | 0 <= i < |turns| ensures turns[i] == TurnOf(before + [e], runs[i]) {
      FoldOneMore(before, e, runs[i]);
      assert runs[i] == e.runId <==> i == at;
    }
  }

  lemma NewRun(before: seq<Event>, e: Event, g: Groups)
    requires GroupInv(before, g) && e.runId !in g.index && Runs(before + [e]) == Runs(before) + [e.runId]
    ensures GroupInv(before + [e], Add(g, e.runId, e))
  {
    var runs, turns := Runs(before) + [e.runId], Add(g, e.runId, e).turns;
    NoEventsOfOtherRuns(before, e.runId);
    assert TurnOf(before, e.runId) == EMPTY;
    forall i | 0 <= i < |turns| ensures turns[i] == TurnOf(before + [e], runs[i]) {
      FoldOneMore(before, e, runs[i]);
      if i < |g.turns| { assert runs[i] == Runs(before)[i] && runs[i] in Runs(before); }
    }
  }

  lemma RelevantOneMore(events: seq<Event>, i: nat)
    requires i < |events|
    ensures RelevantOf(events[..i + 1]) == if Relevant(events[i]) then RelevantOf(events[..i]) + [events[i]]
                                           else RelevantOf(events[..i])
  {
    assert events[..i + 1][..i] == events[..i];
  }

  // All relevant events, in order, including those without a run id.
  function GroupAll(events: seq<Event>): (g: Groups)
    ensures IndexInv(g)
  {
    if events == [] then Groups([], map[])
    else
      var g := GroupAll(events[..|events| - 1]);
      Add(g, RunKey(events[|events| - 1], |g.turns|), events[|events| - 1])
  }

  lemma GroupAllOneMore(before: seq<Event>, e: Event)
    requires e.runId != "" && GroupInv(before, GroupAll(before))
    ensures GroupInv(before + [e], GroupAll(before + [e]))
  {
    assert (before + [e])[..|before|] == before;
    GroupStep(before, e, GroupAll(before));
    assert GroupAll(before + [e]) == Add(GroupAll(before), e.runId, e);
  }

  lemma GroupNone()
    ensures GroupInv([], GroupAll([]))
  {}

  // With run ids the loop is the group-by-run fold.
  lemma {:induction false} GroupAllIsByRun(events: seq<Event>)
    requires HaveRuns(events)
    ensures GroupInv(events, GroupAll(events))
  {
    GroupPrefix(events, |events|);
    assert events[..|events|] == events;
  }

  lemma {:induction false} GroupPrefix(events: seq<Event>, n: nat)
    requires HaveRuns(events) && n <= |events|
    ensures GroupInv(events[..n], GroupAll(events[..n]))
  {
    if n == 0 {
      GroupNone();
    } else {
      GroupPrefix(events, n - 1);
      GroupAllOneMore(events[..n - 1], events[n - 1]);
      assert events[..n - 1] + [events[n - 1]] == events[..n];
    }
  }

  lemma {:induction false} RelevantHaveRuns(events: seq<Event>)
    requires HaveRuns(events)
    ensures HaveRuns(RelevantOf(events))
  {
    if events != [] { RelevantHaveRuns(events[..|events| - 1]); }
  }

  lemma {:induction false} GroupAllIsTidy(events: seq<Event>)
    ensures TidyTurns(GroupAll(events).turns)
  {
    if events != [] {
      var g := GroupAll(events[..|events| - 1]);
      GroupAllIsTidy(events[..|events| - 1]);
      AddIsTidy(g, RunKey(events[|events| - 1], |g.turns|), events[|events| - 1]);
    }
  }

  // One iteration of the loop over the events.
  method AddEvent(g: Groups, e: Event) returns (g': Groups)
    requires IndexInv(g)
    ensures g' == if Relevant(e) then Add(g, RunKey(e, |g.turns|), e) else g
  {
    g' := g;
    if e.kind == Other || Content(e) == "" { return; }
    var run := RunKey(e, |g.turns|);
    if run !in g.index {
      g' := Groups(g.turns + [EMPTY], g.index[run := |g.turns|]);
    }
    var i := g'.index[run];
    g' := g'.(turns := g'.turns[i := Extend(g'.turns[i], e)]);
    if run !in g.index { assert g'.turns == g.turns + [Extend(EMPTY, e)]; }
  }

  method GroupTurns(events: seq<Event>) returns (turns: seq<Turn>)
    ensures turns == GroupAll(RelevantOf(events)).turns
    ensures TidyTurns(turns)
    ensures HaveRuns(events) ==> GroupedByRun(events, turns)
  {
    var g := Groups([], map[]);
    for i := 0 to |events|
      invariant g == GroupAll(RelevantOf(events[..i]))
    {
      RelevantOneMore(events, i);
      ghost var before := RelevantOf(events[..i]);
      assert (before + [events[i]])[..|before|] == before;
      g := AddEvent(g, events[i]);
    }
    assert events[..|events|] == events;
    turns := g.turns;
    GroupAllIsTidy(RelevantOf(events));
    if HaveRuns(events) {
      RelevantHaveRuns(events);
      GroupAllIsByRun(RelevantOf(events));
    }
  }

  // ---------------------------------------------------------------- what a turn holds

  ghost predicate AllRelevant(events: seq<Event>) { forall i :: 0 <= i < |events| ==> Relevant(events[i]) }

  // The last user message.
  function QuestionOf(events: seq<Event>): string {
    if events == [] then ""
    else
      var last := events[|events| - 1];
      if last.kind == UserMessage then Content(last) else QuestionOf(events[..|events| - 1])
  }

  function Chunks(events: seq<Event>): string {
    if events == [] then "" else (if events[0].kind == Chunk then Content(events[0]) else "") + Chunks(events[1..])
  }

  // The first chunk or summary, and every later chunk.
  function AnswerOf(events: seq<Event>): string {
    if events == [] then ""
    else if events[0].kind == Chunk || events[0].kind == Summary then Content(events[0]) + Chunks(events[1..])
    else AnswerOf(events[1..])
  }

  lemma {:induction false} ChunksSnoc(events: seq<Event>, e: Event)
    ensures Chunks(events + [e]) == Chunks(events) + (if e.kind == Chunk then Content(e) else "")
  {
    if events == [] {
      assert [e][1..] == [];
      AppendEmpty(Content(e));
      assert Chunks([e]) == (if e.kind == Chunk then Content(e) else "") + Chunks([]);
      assert [] + [e] == [e];
    } else {
      TailOfAppend(events, [e]);
      ChunksSnoc(events[1..], e);
      Assoc(if events[0].kind == Chunk then Content(events[0]) else "", Chunks(events[1..]), if e.kind == Chunk then Content(e) else "");
    }
  }

  lemma {:induction false} AnswerSnoc(events: seq<Event>, e: Event)
    requires AllRelevant(events) && Relevant(e)
    ensures AnswerOf(events + [e]) == if e.kind == Chunk || (e.kind == Summary && AnswerOf(events) == "") then AnswerOf(events) + Content(e)
                                      else AnswerOf(events)
  {
    if events == [] {
      assert [] + [e] == [e] && [e][1..] == [];
      AppendEmpty(Content(e));
      assert Chunks([]) == "" && AnswerOf([]) == "";
    } else {
      TailOfAppend(events, [e]);
      if events[0].kind == Chunk || events[0].kind == Summary {
        ChunksSnoc(events[1..], e);
        Assoc(Content(events[0]), Chunks(events[1..]), Content(e));
        AppendEmpty(Chunks(events[1..]));
        assert Relevant(events[0]);
      } else {
        AnswerSnoc(events[1..], e);
      }
    }
  }

  lemma {:induction false} FoldIsTidy(events: seq<Event>)
    ensures Tidy(FoldTurn(events).question) && Tidy(FoldTurn(events).answer)
  {
    if events != [] {
      FoldIsTidy(events[..|events| - 1]);
      ExtendIsTidy(FoldTurn(events[..|events| - 1]), events[|events| - 1]);
    }
  }

  // On tidy texts nothing is stripped.
  lemma ExtendPlain(t: Turn, e: Event)
    requires Tidy(t.answer) && Relevant(e)
    ensures Extend(t, e) == if e.kind == UserMessage then Turn(Content(e), t.answer)
                            else if e.kind == Chunk || t.answer == "" then Turn(t.question, t.answer + Content(e))
                            else t
  {
    NormalizeIsTidy(e.raw);
    TidyAppend(t.answer, Content(e));
    StripTidy(t.answer + Content(e));
  }

  // A turn's question is its last user message; its answer is its first chunk or summary,
  // followed by every later chunk: later summaries are ignored.
  lemma {:induction false} TurnHolds(events: seq<Event>)
    requires AllRelevant(events)
    ensures FoldTurn(events) == Turn(QuestionOf(events), AnswerOf(events))
  {
    if events != [] {
      var init, last := events[..|events| - 1], events[|events| - 1];
      TurnHolds(init);
      FoldIsTidy(init);
      ExtendPlain(FoldTurn(init), last);
      AnswerOneMore(events);
    }
  }

  lemma AnswerOneMore(events: seq<Event>)
    requires events != [] && AllRelevant(events)
    ensures var init, last := events[..|events| - 1], events[|events| - 1];
            AnswerOf(events) == if last.kind == Chunk || (last.kind == Summary && AnswerOf(init) == "")
                                then AnswerOf(init) + Content(last) else AnswerOf(init)
  {
    assert events == events[..|events| - 1] + [events[|events| - 1]];
    AnswerSnoc(events[..|events| - 1], events[|events| - 1]);
  }

  lemma {:induction false} RelevantAreRelevant(events: seq<Event>)
    ensures AllRelevant(RelevantOf(events))
  {
    if events != [] { RelevantAreRelevant(events[..|events| - 1]); }
  }

  // ---------------------------------------------------------------- events without a run

  predicate Digits(s: string) { forall i :: 0 <= i < |s| ==> '0' <= s[i] <= '9' }

  function Value(s: string): nat
    requires Digits(s)
  {
    if s == "" then 0 else 10 * Value(s[..|s| - 1]) + (s[|s| - 1] as nat - '0' as nat)
  }

  // The decimal form of a number denotes it.
  lemma {:induction false} DecimalRoundTrip(n: nat)
    ensures Digits(Decimal(n)) && Decimal(n) != "" && Value(Decimal(n)) == n && (n > 0 ==> Decimal(n)[0] != '0')
  {
    if n >= 10 {
      DecimalRoundTrip(n / 10);
      var digit := ['0' + (n % 10) as char];
      assert (Decimal(n / 10) + digit)[..|Decimal(n / 10)|] == Decimal(n / 10);
    }
  }

  // The keys that the events so far can have made.
  ghost predicate CountingKeys(g: Groups) {
    forall k :: k in g.index ==> k == "unknown" || (Digits(k) && Value(k) < |g.turns|)
  }

  // Events without a run id open a turn each: their keys "unknown", "1", "2", ... never meet.
  lemma {:induction false} NoRunsApart(events: seq<Event>)
    requires forall i :: 0 <= i < |events| ==> events[i].runId == ""
    ensures CountingKeys(GroupAll(events)) && (GroupAll(events).turns == [] ==> GroupAll(events).index == map[])
    ensures |GroupAll(events).turns| == |events|
    ensures forall i :: 0 <= i < |events| ==> GroupAll(events).turns[i] == Extend(EMPTY, events[i])
  {
    if events != [] {
      var g := GroupAll(events[..|events| - 1]);
      NoRunsApart(events[..|events| - 1]);
      DecimalRoundTrip(|g.turns|);
      assert RunKey(events[|events| - 1], |g.turns|) !in g.index;
    }
  }

  // ---------------------------------------------------------------- no turn is empty

  predicate Filled(t: Turn) { t.question != "" || t.answer != "" }

  lemma {:induction false} TurnsAreFilled(events: seq<Event>)
    requires AllRelevant(events)
    ensures forall i :: 0 <= i < |GroupAll(events).turns| ==> Filled(GroupAll(events).turns[i])
  {
    if events != [] {
      var g, e := GroupAll(events[..|events| - 1]), events[|events| - 1];
      TurnsAreFilled(events[..|events| - 1]);
      GroupAllIsTidy(events[..|events| - 1]);
      var run := RunKey(e, |g.turns|);
      ExtendFills(if run in g.index then g.turns[g.index[run]] else EMPTY, e);
    }
  }

  lemma ExtendFills(t: Turn, e: Event)
    requires Relevant(e) && Tidy(t.answer)
    ensures Filled(Extend(t, e))
  {
    NormalizeIsTidy(e.raw);
    TidyAppend(t.answer, Content(e));
    StripTidy(t.answer + Content(e));
  }

  // ---------------------------------------------------------------- packing

  const QUESTION_MAX_CHARS: nat := 1200
  const ANSWER_MAX_CHARS: nat := 1800
  const TURN_LABEL: string := ['T', 'u', 'r', 'n', ' ']
  const QUESTION_LABEL: string := ['\n', 'Q', 'u', 'e', 's', 't', 'i', 'o', 'n', ':', ' ']
  const RESULT_LABEL: string := ['\n', 'R', 'e', 's', 'u', 'l', 't', ':', ' ']

  function SnippetText(number: nat, t: Turn): string {
    (((TURN_LABEL + Decimal(number)) + QUESTION_LABEL) + ClipText(t.question, QUESTION_MAX_CHARS)) + RESULT_LABEL
    + ClipText(t.answer, ANSWER_MAX_CHARS)
  }

  // The snippet of the turn at position i of the recent turns, under its true number.
  function Snippet(recent: seq<Turn>, i: nat): string
    requires i < |recent|
  {
    Strip(SnippetText(i + 1, recent[i]))
  }

  // No three whitespace characters in a row, and at most one at the end.
  predicate Loose(s: string) {
    && NoTriple(s)
    && (|s| >= 2 ==> !Space(s[|s| - 1]) || !Space(s[|s| - 2]))
  }

  predicate NoTriple(s: string) {
    forall i :: 0 <= i < |s| - 2 ==> !(Space(s[i]) && Space(s[i + 1]) && Space(s[i + 2]))
  }

  lemma AppendTidy(s: string, q: string)
    requires Loose(s) && Tidy(q)
    ensures Loose(s + q)
  {}

  // A label has one whitespace character at its start and one at its end.
  predicate IsLabel(m: string) { |m| >= 3 && Loose(m) && Space(m[0]) && !Space(m[1]) }

  lemma AppendLabel(s: string, m: string)
    requires Loose(s) && IsLabel(m)
    ensures Loose(s + m)
  {}

  lemma {:induction false} DecimalIsTidy(n: nat)
    ensures Decimal(n) != "" && forall i :: 0 <= i < |Decimal(n)| ==> !Space(Decimal(n)[i])
  {
    if n >= 10 { DecimalIsTidy(n / 10); }
  }

  lemma LabelFrom(m: string)
    requires |m| >= 3 && Space(m[0]) && forall i :: 1 <= i < |m| - 1 ==> !Space(m[i])
    ensures IsLabel(m)
  {}

  lemma Labels()
    ensures Loose(TURN_LABEL) && IsLabel(QUESTION_LABEL) && IsLabel(RESULT_LABEL)
  {
    LabelFrom(QUESTION_LABEL);
    LabelFrom(RESULT_LABEL);
  }

  lemma ChainIsLoose(a: string, d: string, m1: string, q: string, m2: string, r: string)
    requires Loose(a) && Tidy(d) && IsLabel(m1) && Tidy(q) && IsLabel(m2) && Tidy(r)
    ensures Loose((((a + d) + m1) + q) + m2 + r)
  {
    AppendTidy(a, d);
    AppendLabel(a + d, m1);
    AppendTidy((a + d) + m1, q);
    AppendLabel(((a + d) + m1) + q, m2);
    AppendTidy((((a + d) + m1) + q) + m2, r);
  }

  lemma SnippetTextIsLoose(number: nat, t: Turn)
    requires Tidy(t.question) && Tidy(t.answer)
    ensures Loose(SnippetText(number, t))
  {
    DecimalIsTidy(number);
    ClipTidyIsTidy(t.question, QUESTION_MAX_CHARS);
    ClipTidyIsTidy(t.answer, ANSWER_MAX_CHARS);
    Labels();
    ChainIsLoose(TURN_LABEL, Decimal(number), QUESTION_LABEL, ClipText(t.question, QUESTION_MAX_CHARS),
                 RESULT_LABEL, ClipText(t.answer, ANSWER_MAX_CHARS));
  }

  lemma {:induction false} LStripIsSuffix(s: string)
    ensures LStrip(s) == s[|s| - |LStrip(s)|..]
  {
    if s != "" && Space(s[0]) { LStripIsSuffix(s[1..]); }
  }

  lemma StripNoTriple(s: string)
    requires NoTriple(s)
    ensures NoTriple(Strip(s))
  {
    var r := RStrip(s);
    LStripIsSuffix(r);
    var k := |r| - |LStrip(r)|;
    assert forall i :: 0 <= i < |LStrip(r)| ==> LStrip(r)[i] == s[i + k];
  }

  lemma StripKeepsText(s: string)
    requires |s| >= 4 && !Space(s[0]) && !Space(s[3])
    ensures |Strip(s)| >= 4
  {
    RStripKeeps(s, 3);
  }

  lemma {:induction false} RStripKeeps(s: string, i: nat)
    requires i < |s| && !Space(s[i])
    ensures |RStrip(s)| > i && RStrip(s)[0] == s[0]
  {
    if Space(s[|s| - 1]) { RStripKeeps(s[..|s| - 1], i); }
  }

  lemma SnippetShape(recent: seq<Turn>, i: nat)
    requires i < |recent|
    ensures |Snippet(recent, i)| >= 4
  {
    var s := SnippetText(i + 1, recent[i]);
    assert s[0] == 'T' && s[3] == 'n' by { assert TURN_LABEL[0] == 'T' && TURN_LABEL[3] == 'n'; }
    StripKeepsText(s);
  }

  // A turn within the limits is shown as it is, under its number.
  lemma SnippetReads(recent: seq<Turn>, i: nat)
    requires i < |recent| && Tidy(recent[i].answer) && recent[i].answer != ""
    requires |recent[i].question| <= 1200 && |recent[i].answer| <= 1800
    ensures Snippet(recent, i)
            == "Turn " + Decimal(i + 1) + "\nQuestion: " + recent[i].question + "\nResult: " + recent[i].answer
  {
    var s := SnippetText(i + 1, recent[i]);
    assert s[0] == 'T' by { assert TURN_LABEL[0] == 'T'; }
    assert s[|s| - 1] == recent[i].answer[|recent[i].answer| - 1];
    StripNothing(s);
  }

  lemma StripNothing(s: string)
    requires s != "" && !Space(s[0]) && !Space(s[|s| - 1])
    ensures Strip(s) == s
  {}

  // Cutting a prefix without three blanks in a row strips at most two characters.
  lemma StripAtMostTwo(p: string, k: nat)
    requires NoTriple(p) && k <= |p|
    ensures |RStrip(p[..k])| >= k - 2
  {
    if k >= 3 {
      assert !(Space(p[k - 3]) && Space(p[k - 2]) && Space(p[k - 1]));
      RStripNext(p, k - 1);
      if Space(p[k - 1]) {
        RStripNext(p, k - 2);
        if Space(p[k - 2]) { RStripNext(p, k - 3); }
      }
    }
  }

  // So a clipped newest snippet leaves no room for another one.
  lemma ClippedFillsBudget(recent: seq<Turn>, i: nat, maxChars: nat)
    requires TidyTurns(recent) && i < |recent| && maxChars > 0 && |Snippet(recent, i)| > maxChars
    ensures |ClipText(Snippet(recent, i), maxChars)| + 2 >= maxChars
  {
    var s := Snippet(recent, i);
    SnippetTextIsLoose(i + 1, recent[i]);
    StripNoTriple(SnippetText(i + 1, recent[i]));
    if maxChars >= 3 {
      StripAtMostTwo(s, maxChars - 3);
    }
  }

  const SEPARATOR: string := ['\n', '\n']

  function Join(parts: seq<string>): string {
    if parts == [] then "" else if |parts| == 1 then parts[0] else parts[0] + SEPARATOR + Join(parts[1..])
  }

  // The characters of the parts, each with its separator.
  function Total(parts: seq<string>): nat {
    if parts == [] then 0 else |parts[0]| + 2 + Total(parts[1..])
  }

  lemma {:induction false} JoinLength(parts: seq<string>)
    requires parts != []
    ensures |Join(parts)| == Total(parts) - 2
  {
    if |parts| > 1 { JoinLength(parts[1..]); } else { assert parts[1..] == []; }
  }

  function Snippets(recent: seq<Turn>): (texts: seq<string>)
    ensures |texts| == |recent| && forall i :: 0 <= i < |recent| ==> texts[i] == Snippet(recent, i)
  {
    seq(|recent|, i requires 0 <= i < |recent| => Snippet(recent, i))
  }

  // What the packing keeps of the snippets: the longest run of newest ones that fits, each
  // in full; or the newest alone, clipped, when it does not fit.
  ghost predicate IsPacking(texts: seq<string>, maxChars: nat, parts: seq<string>) {
    || (texts == [] && parts == [])
    || (texts != [] && |texts[|texts| - 1]| > maxChars && parts == [ClipText(texts[|texts| - 1], maxChars)])
    || (exists j: nat :: j < |texts| && IsSuffixPacking(texts, maxChars, parts, j))
  }

  ghost predicate IsSuffixPacking(texts: seq<string>, maxChars: nat, parts: seq<string>, j: nat)
    requires j <= |texts|
  {
    && parts == texts[j..] && Total(parts) - 2 <= maxChars
    && (j > 0 ==> Total(parts) + |texts[j - 1]| > maxChars)
  }

  function Reverse(parts: seq<string>): seq<string> {
    if parts == [] then [] else [parts[|parts| - 1]] + Reverse(parts[..|parts| - 1])
  }

  lemma ReverseSnoc(parts: seq<string>, text: string)
    ensures Reverse(parts + [text]) == [text] + Reverse(parts)
  {
    assert (parts + [text])[..|parts|] == parts;
  }

  lemma OneMoreSnippet(texts: seq<string>, i: nat)
    requires i < |texts|
    ensures texts[i..] == [texts[i]] + texts[i + 1..] && Total(texts[i..]) == |texts[i]| + 2 + Total(texts[i + 1..])
  {
    assert texts[i..][1..] == texts[i + 1..];
  }

  lemma ReverseOne(text: string)
    ensures Reverse([text]) == [text]
  {
    ReverseSnoc([], text);
    AppendEmpty([text]);
  }

  // The packing loop, from the newest snippet back.
  method PackSnippets(texts: seq<string>, maxChars: nat) returns (parts: seq<string>)
    requires maxChars > 0 && forall i :: 0 <= i < |texts| ==> texts[i] != ""
    requires forall i :: 0 <= i < |texts| && |texts[i]| > maxChars ==> |ClipText(texts[i], maxChars)| + 2 >= maxChars
    ensures IsPacking(texts, maxChars, parts)
  {
    var snippets: seq<string> := [];
    var remaining: int := maxChars;
    var index := |texts|;
    while index > 0
      invariant 0 <= index <= |texts|
      invariant Reverse(snippets) == texts[index..] && remaining == maxChars - Total(texts[index..])
      invariant remaining > 0 && (snippets == [] <==> index == |texts|)
      decreases index
    {
      var snippet := texts[index - 1];
      OneMoreSnippet(texts, index - 1);
      if |snippet| > remaining {
        if snippets != [] { break; }
        snippet := ClipText(snippet, remaining);
        snippets := snippets + [snippet];
        remaining := remaining - (|snippet| + 2);
        assert remaining <= 0;
        ReverseOne(snippet);
        return Reverse(snippets);
      }
      ReverseSnoc(snippets, snippet);
      snippets := snippets + [snippet];
      index := index - 1;
      remaining := remaining - (|snippet| + 2);
      if remaining <= 0 { break; }
    }
    parts := Reverse(snippets);
    if texts != [] { assert IsSuffixPacking(texts, maxChars, parts, index); }
  }

  // The packed history stays within its budget exactly from 3 characters on, or when there
  // is nothing to pack.
  lemma PackingLengthIff(texts: seq<string>, maxChars: nat, parts: seq<string>)
    requires maxChars > 0 && IsPacking(texts, maxChars, parts)
    requires forall i :: 0 <= i < |texts| ==> |texts[i]| >= 4
    ensures |Join(parts)| <= maxChars <==> maxChars >= 3 || texts == []
  {
    if texts != [] {
      var last := texts[|texts| - 1];
      if |last| > maxChars && parts == [ClipText(last, maxChars)] {
        ClipLengthIff(last, maxChars);
      } else {
        var j: nat :| j < |texts| && IsSuffixPacking(texts, maxChars, parts, j);
        JoinLength(parts);
        assert |parts[0]| >= 4;
      }
    }
  }

  function RecentOf(turns: seq<Turn>): seq<Turn> {
    if turns == [] then []
    else (if turns[0].question != "" || turns[0].answer != "" then [turns[0]] else []) + RecentOf(turns[1..])
  }

  // Turns with a question or an answer are kept, in order.
  lemma {:induction false} FilledAreRecent(turns: seq<Turn>)
    ensures (forall i :: 0 <= i < |turns| ==> Filled(turns[i])) ==> RecentOf(turns) == turns
    ensures forall t :: t in RecentOf(turns) <==> t in turns && Filled(t)
  {
    if turns != [] {
      FilledAreRecent(turns[1..]);
      assert turns == [turns[0]] + turns[1..];
    }
  }

  // So every turn of a history is recent.
  lemma AllTurnsAreRecent(events: seq<Event>)
    ensures RecentOf(GroupAll(RelevantOf(events)).turns) == GroupAll(RelevantOf(events)).turns
  {
    RelevantAreRelevant(events);
    TurnsAreFilled(RelevantOf(events));
    FilledAreRecent(GroupAll(RelevantOf(events)).turns);
  }

  lemma {:induction false} RecentIsTidy(turns: seq<Turn>)
    requires TidyTurns(turns)
    ensures TidyTurns(RecentOf(turns))
  {
    if turns != [] { RecentIsTidy(turns[1..]); }
  }

  method FormatHistoryContext(events: seq<Event>, maxChars: int) returns (r: string)
    ensures maxChars <= 0 ==> r == ""
    ensures maxChars > 0 ==>
              var recent := RecentOf(GroupAll(RelevantOf(events)).turns);
              && (exists parts :: IsPacking(Snippets(recent), maxChars, parts) && r == Join(parts))
              && (|r| <= maxChars <==> maxChars >= 3 || recent == [])
  {
    if maxChars <= 0 { return ""; }
    var turns := GroupTurns(events);
    var recent := RecentOf(turns);
    RecentIsTidy(turns);
    var texts := Snippets(recent);
    forall i | 0 <= i < |texts|
      ensures |texts[i]| >= 4 && (|texts[i]| > maxChars ==> |ClipText(texts[i], maxChars)| + 2 >= maxChars)
    {
      SnippetShape(recent, i);
      if |texts[i]| > maxChars { ClippedFillsBudget(recent, i, maxChars); }
    }
    var parts := PackSnippets(texts, maxChars);
    PackingLengthIff(texts, maxChars, parts);
    r := Join(parts);
  }
}
