/**
 The recommendation prompt (src/agents/core/recommendations.py, `build_recommend_prompt`) is a
 label and a JSON object that reads back as its three texts (sections 4 and 7 of RFC 8259).
 */
module PromptJson {
  import opened Basics
  import opened JsonText
  import P = Prompt

  lemma CodesAppend(a: string, b: string)
    ensures Codes(a + b) == Codes(a) + Codes(b)
  {}

  lemma {:induction false} EscapeCodes(s: string)
    ensures Codes(P.EscapeText(s)) == EscapeAll(Codes(s), false)
  {
    if s == "" {
      assert Codes("") == [];
    } else {
      assert Codes(s)[1..] == Codes(s[1..]);
      EscapeCodes(s[1..]);
      CodesAppend(P.EscapeChar(s[0]), P.EscapeText(s[1..]));
      CharCodes(s[0]);
    }
  }

  lemma CharCodes(c: char)
    ensures Codes(P.EscapeChar(c)) == Escape(c as int, false)
  {
    RawEscapeFacts(c as int);
  }

  lemma StringCodes(s: string)
    ensures Codes(P.JsonString(s)) == Quoted(Codes(s), false)
  {
    EscapeCodes(s);
    CodesAppend(['"'] + P.EscapeText(s), ['"']);
    CodesAppend(['"'], P.EscapeText(s));
    assert Codes(['"']) == [QUOTE];
    Assoc([QUOTE], EscapeAll(Codes(s), false), [QUOTE]);
  }

  // A member without spaces in front of `after`.
  function Compact(key: Text, value: Text, after: Text): Text {
    Quoted(key, false) + ([COLON] + (Quoted(value, false) + after))
  }

  lemma MemberCodes(name: string, text: string, after: Text)
    ensures Codes(P.Member(name, text)) + after == Compact(Codes(name), Codes(text), after)
  {
    StringCodes(name);
    StringCodes(text);
    CodesAppend(P.JsonString(name) + [':'], P.JsonString(text));
    CodesAppend(P.JsonString(name), [':']);
    assert Codes([':']) == [COLON];
    Assoc(Quoted(Codes(name), false) + [COLON], Quoted(Codes(text), false), after);
    Assoc(Quoted(Codes(name), false), [COLON], Quoted(Codes(text), false) + after);
  }

  lemma CompactStart(key: Text, value: Text, after: Text)
    ensures MemberAt(Compact(key, value, after), key, Str(value), after)
    ensures Compact(key, value, after)[0] == QUOTE
  {
    var text := Quoted(value, false) + after;
    var colon := [COLON] + text;
    var s := Compact(key, value, after);
    Enclosed(QUOTE, EscapeAll(key, false), QUOTE, colon);
    assert s[1..] == EscapeAll(key, false) + ([QUOTE] + colon);
    ScanBack(key, false, colon);
    NoSpace(colon);
    assert colon[1..] == text;
    NoSpace(text);
    ParseText(value, after, false);
  }

  lemma CompactNext(key: Text, value: Text, next: Text)
    requires next != [] && next[0] == QUOTE
    ensures var p := ParseMembers(next);
            ParseMembers(Compact(key, value, [COMMA] + next)) == if p.Got? then Got(Member(key, Str(value), p.value), p.rest) else Fail
  {
    var sep := [COMMA] + next;
    CompactStart(key, value, sep);
    NoSpace(sep);
    assert sep[1..] == next;
    NoSpace(next);
  }

  lemma CompactLast(key: Text, value: Text)
    ensures ParseMembers(Compact(key, value, [CLOSE_DICT])) == Got(Member(key, Str(value), End), [])
  {
    CompactStart(key, value, [CLOSE_DICT]);
    AppendEmpty([CLOSE_DICT]);
    ParseLastMember(Compact(key, value, [CLOSE_DICT]), key, Str(value), []);
  }

  function ThreeTexts(names: P.Names, history: string, user: string, output: string): Json {
    Obj(Member(Codes(names.history), Str(Codes(history)),
        Member(Codes(names.user), Str(Codes(user)),
        Member(Codes(names.output), Str(Codes(output)), End))))
  }

  // The three members and the closing brace.
  function Body(names: P.Names, history: string, user: string, output: string): Text {
    Compact(Codes(names.history), Codes(history), [COMMA] +
      Compact(Codes(names.user), Codes(user), [COMMA] +
        Compact(Codes(names.output), Codes(output), [CLOSE_DICT])))
  }

  lemma PartsCodes(names: P.Names, user: string, output: string)
    ensures Codes(P.CurrentParts(names, user, output))
            == Compact(Codes(names.user), Codes(user), [COMMA] + Compact(Codes(names.output), Codes(output), [CLOSE_DICT]))
  {
    var m1, m2 := P.Member(names.user, user), P.Member(names.output, output);
    CodesAppend(m1 + [','] + m2, ['}']);
    CodesAppend(m1 + [','], m2);
    CodesAppend(m1, [',']);
    assert Codes([',']) == [COMMA] && Codes(['}']) == [CLOSE_DICT];
    Assoc(Codes(m1) + [COMMA], Codes(m2), [CLOSE_DICT]);
    Assoc(Codes(m1), [COMMA], Codes(m2) + [CLOSE_DICT]);
    MemberCodes(names.output, output, [CLOSE_DICT]);
    MemberCodes(names.user, user, [COMMA] + Compact(Codes(names.output), Codes(output), [CLOSE_DICT]));
  }

  lemma AssembleCodes(names: P.Names, history: string, user: string, output: string)
    ensures Codes(P.Assemble(names, history, user, output)) == Codes(names.head) + Body(names, history, user, output)
  {
    var m, parts := P.Member(names.history, history), P.CurrentParts(names, user, output);
    CodesAppend(names.head + m + [','], parts);
    CodesAppend(names.head + m, [',']);
    CodesAppend(names.head, m);
    assert Codes([',']) == [COMMA];
    PartsCodes(names, user, output);
    Assoc(Codes(names.head) + Codes(m), [COMMA], Codes(parts));
    Assoc(Codes(names.head), Codes(m), [COMMA] + Codes(parts));
    MemberCodes(names.history, history, [COMMA] + Codes(parts));
  }

  lemma BodyParses(names: P.Names, history: string, user: string, output: string)
    ensures ParseMembers(Body(names, history, user, output)) == Got(ThreeTexts(names, history, user, output).members, [])
    ensures Body(names, history, user, output)[0] == QUOTE
  {
    var last := Compact(Codes(names.output), Codes(output), [CLOSE_DICT]);
    var middle := Compact(Codes(names.user), Codes(user), [COMMA] + last);
    CompactLast(Codes(names.output), Codes(output));
    CompactStart(Codes(names.output), Codes(output), [CLOSE_DICT]);
    CompactNext(Codes(names.user), Codes(user), last);
    CompactStart(Codes(names.user), Codes(user), [COMMA] + last);
    CompactNext(Codes(names.history), Codes(history), middle);
    CompactStart(Codes(names.history), Codes(history), [COMMA] + middle);
  }

  lemma ObjectReads(names: P.Names, history: string, user: string, output: string)
    ensures Loads([OPEN_DICT] + Body(names, history, user, output)) == Some(ThreeTexts(names, history, user, output))
  {
    var body := Body(names, history, user, output);
    BodyParses(names, history, user, output);
    ParseDict(body);
    NoSpace([OPEN_DICT] + body);
  }

  lemma LabelledReads(title: string, names: P.Names, history: string, user: string, output: string)
    requires names.head == title + "{"
    ensures Codes(P.Assemble(names, history, user, output)) == Codes(title) + ([OPEN_DICT] + Body(names, history, user, output))
  {
    AssembleCodes(names, history, user, output);
    CodesAppend(title, "{");
    assert Codes("{") == [OPEN_DICT];
    Assoc(Codes(title), [OPEN_DICT], Body(names, history, user, output));
  }

  // Behind its label the prompt is JSON, and a reader gets back the history and the two
  // current messages under their names, whatever characters they hold.
  lemma PromptReadsBack(title: string, names: P.Names, history: string, user: string, output: string)
    requires names.head == title + "{"
    ensures var prompt := Codes(P.Assemble(names, history, user, output));
            && |title| <= |prompt| && prompt[..|title|] == Codes(title)
            && Loads(prompt[|title|..]) == Some(ThreeTexts(names, history, user, output))
  {
    LabelledReads(title, names, history, user, output);
    ObjectReads(names, history, user, output);
    assert Codes(P.Assemble(names, history, user, output))[|title|..] == [OPEN_DICT] + Body(names, history, user, output);
  }

  lemma NamesHaveLabel()
    ensures P.NAMES.head == P.LABEL + "{"
    ensures P.NAMES.history == "Recent conversation history" && P.NAMES.user == "Current user message"
    ensures P.NAMES.output == "Current assistant answer" && P.LABEL == "conversation_context JSON:\n"
  {}
}
