/**
 The token budget of the recommendation prompt (src/agents/core/recommendations.py:
 `_clip_prompt_to_token_budget`, `build_recommend_prompt`).  The token counter is any
 function that counts nothing in the empty text.
 */
module Prompt {
  import opened Basics
  import opened TextClip
  import J = JsonText

  const MAX_PROMPT_TOKENS: nat := 10000
  const CHARS_PER_TOKEN: nat := 4
  const MAX_PROMPT_CHARS: nat := MAX_PROMPT_TOKENS * CHARS_PER_TOKEN
  const CURRENT_USER_MAX_CHARS: nat := 2000
  const CURRENT_OUTPUT_MAX_CHARS: nat := 4000
  const HISTORY_MAX_CHARS: nat := 32000

  type Counter = string -> nat

  // math.ceil(len(prompt) / 4), the count without a tokenizer.
  function Estimate(s: string): nat { (|s| + CHARS_PER_TOKEN - 1) / CHARS_PER_TOKEN }

  ghost predicate IsEstimate(count: Counter) { forall s :: count(s) == Estimate(s) }

  lemma EstimateFits(s: string, budget: nat)
    ensures Estimate(s) <= budget <==> |s| <= CHARS_PER_TOKEN * budget
  {}

  // From limit 3 on, a larger limit gives a clip at least as long.
  lemma ClipMonotone(s: string, m: nat, n: nat)
    requires 3 <= m <= n < |s|
    ensures |ClipText(s, m)| <= |ClipText(s, n)|
  {
    ClipIs(s, m);
    ClipIs(s, n);
    RStripMonotone(s, m - 3, n - 3);
  }

  // The limits 1 and 2 give a long clip; if that fits at all, so does limit |s| - 1, with
  // the same clip.
  lemma SmallLimits(s: string, n: nat, chars: nat)
    requires 1 <= n <= 2 && 8 <= chars < |s| && |ClipText(s, n)| <= chars
    ensures ClipText(s, |s| - 1) == ClipText(s, n)
  {
    ClipIs(s, n);
    ClipIs(s, |s| - 1);
    var i, j := Cut(|s|, |s| - 1), Cut(|s|, n);
    assert i == |s| - 4 && j == |s| + n - 3;
    RStripShorter(s, i, j);
  }

  // The result fits, and no clip of the text that fits is longer.
  ghost predicate LongestFittingClip(s: string, budget: nat, r: string) {
    && Estimate(r) <= budget
    && (exists n: nat :: n <= |s| && r == ClipText(s, n))
    && forall n: nat :: n <= |s| && Estimate(ClipText(s, n)) <= budget ==> |ClipText(s, n)| <= |r|
  }

  // The state of the search once everything above `high` is known not to fit.
  ghost predicate SearchState(s: string, budget: nat, low: int, high: int, best: string) {
    && 0 <= low <= high + 1 && CHARS_PER_TOKEN * budget <= high <= |s|
    && (low > 0 ==> low > 3 && best == ClipText(s, low - 1) && Estimate(best) <= budget)
    && (low == 0 ==> best == "")
    && forall n: nat :: high < n <= |s| ==> Estimate(ClipText(s, n)) > budget
  }

  lemma SearchStep(s: string, budget: nat, low: int, high: int, best: string)
    requires budget >= 2 && CHARS_PER_TOKEN * budget < |s|
    requires SearchState(s, budget, low, high, best) && low <= high
    ensures var mid := (low + high) / 2;
            var candidate := ClipText(s, mid);
            if Estimate(candidate) <= budget then SearchState(s, budget, mid + 1, high, candidate)
            else SearchState(s, budget, low, mid - 1, best)
  {
    var mid := (low + high) / 2;
    assert mid >= 4;
    ClipLengthIff(s, mid);
    EstimateFits(ClipText(s, mid), budget);
    if Estimate(ClipText(s, mid)) > budget {
      forall n: nat | mid - 1 < n <= |s| ensures Estimate(ClipText(s, n)) > budget {
        EstimateFits(ClipText(s, n), budget);
        if mid <= n < |s| { ClipMonotone(s, mid, n); }
      }
    }
  }

  lemma SearchEnd(s: string, budget: nat, low: int, high: int, best: string)
    requires budget >= 2 && CHARS_PER_TOKEN * budget < |s|
    requires SearchState(s, budget, low, high, best) && low > high
    ensures LongestFittingClip(s, budget, best)
  {
    EstimateFits(s, budget);
    assert best == ClipText(s, high) && ClipText(s, |s|) == s && high < |s|;
    forall n: nat | n <= |s| && Estimate(ClipText(s, n)) <= budget
      ensures |ClipText(s, n)| <= |best|
    {
      NoneLonger(s, budget, high, n);
    }
  }

  // No limit whose clip fits gives more than the largest fitting limit.
  lemma NoneLonger(s: string, budget: nat, high: nat, n: nat)
    requires budget >= 2 && 8 <= CHARS_PER_TOKEN * budget <= high < |s| && Estimate(s) > budget
    requires forall m: nat :: high < m <= |s| ==> Estimate(ClipText(s, m)) > budget
    requires n <= |s| && Estimate(ClipText(s, n)) <= budget
    ensures |ClipText(s, n)| <= |ClipText(s, high)|
  {
    assert n <= high;
    if n >= 3 {
      ClipMonotone(s, n, high);
    } else {
      SmallLimitFits(s, budget, n);
      assert Estimate(ClipText(s, |s| - 1)) <= budget;
      assert high == |s| - 1;
    }
  }

  // A fitting clip of limit 1 or 2 is the one of the largest proper limit; 0 gives the whole
  // text, which does not fit.
  lemma SmallLimitFits(s: string, budget: nat, n: nat)
    requires budget >= 2 && CHARS_PER_TOKEN * budget < |s| && n < 3
    requires Estimate(s) > budget && Estimate(ClipText(s, n)) <= budget
    ensures ClipText(s, |s| - 1) == ClipText(s, n)
  {
    assert n != 0;
    EstimateFits(ClipText(s, n), budget);
    SmallLimits(s, n, CHARS_PER_TOKEN * budget);
  }

  method ClipPromptToTokenBudget(prompt: string, maxTokens: nat, count: Counter) returns (r: string)
    requires count("") == 0
    ensures count(r) <= maxTokens
    ensures r == "" || exists n: nat :: n <= |prompt| && r == ClipText(prompt, n)
    ensures count(prompt) <= maxTokens ==> r == prompt
    // Without a tokenizer the search finds the longest clip, although clips are not
    // monotone in the limit at 0, 1 and 2.
    ensures IsEstimate(count) && maxTokens >= 2 && count(prompt) > maxTokens ==> LongestFittingClip(prompt, maxTokens, r)
  {
    if count(prompt) <= maxTokens {
      assert ClipText(prompt, |prompt|) == prompt;
      return prompt;
    }
    ghost var searching := IsEstimate(count) && maxTokens >= 2;
    var low, high := 0, |prompt|;
    r := "";
    if searching { EstimateFits(prompt, maxTokens); }
    while low <= high
      invariant 0 <= low && high <= |prompt|
      invariant count(r) <= maxTokens
      invariant r == "" || exists n: nat :: n <= |prompt| && r == ClipText(prompt, n)
      invariant searching ==> SearchState(prompt, maxTokens, low, high, r)
      decreases high - low + 1
    {
      var mid := (low + high) / 2;
      var candidate := ClipText(prompt, mid);
      if searching { SearchStep(prompt, maxTokens, low, high, r); }
      if count(candidate) <= maxTokens {
        r := candidate;
        low := mid + 1;
      } else {
        high := mid - 1;
      }
    }
    if searching { SearchEnd(prompt, maxTokens, low, high, r); }
  }

  // ---------------------------------------------------------------- the prompt

  // json.dumps without ensure_ascii.
  function EscapeChar(c: char): (r: string)
    ensures 1 <= |r| <= 6
  {
    J.RawEscapeFacts(c as int);
    var t := J.Escape(c as int, false);
    seq(|t|, i requires 0 <= i < |t| => t[i] as char)
  }

  function EscapeText(s: string): string { if s == "" then "" else EscapeChar(s[0]) + EscapeText(s[1..]) }

  function JsonString(s: string): string { ['"'] + EscapeText(s) + ['"'] }

  // The fixed texts of the prompt: its head and the names of its three parts.
  datatype Names = Names(head: string, history: string, user: string, output: string)

  const LABEL: string := "conversation_context JSON:\n"
  const NAMES: Names := Names(LABEL + "{", "Recent conversation history", "Current user message", "Current assistant answer")

  function Member(name: string, text: string): string { JsonString(name) + [':'] + JsonString(text) }

  function Assemble(names: Names, history: string, user: string, output: string): string {
    names.head + Member(names.history, history) + [','] + CurrentParts(names, user, output)
  }

  function CurrentParts(names: Names, user: string, output: string): string {
    Member(names.user, user) + [','] + Member(names.output, output) + ['}']
  }

  lemma {:induction false} EscapeAppend(a: string, b: string)
    ensures EscapeText(a + b) == EscapeText(a) + EscapeText(b)
  {
    if a == "" {
      AppendEmpty(b);
      AppendEmpty(EscapeText(b));
    } else {
      TailOfAppend(a, b);
      EscapeAppend(a[1..], b);
      Assoc(EscapeChar(a[0]), EscapeText(a[1..]), EscapeText(b));
    }
  }

  lemma {:induction false} EscapeLength(s: string)
    ensures |s| <= |EscapeText(s)| <= 6 * |s|
  {
    if s != "" { EscapeLength(s[1..]); }
  }

  predicate Short(names: Names) {
    |names.head| <= 30 && |names.history| <= 30 && |names.user| <= 30 && |names.output| <= 30
  }

  lemma NamesAreShort()
    ensures Short(NAMES)
  {}

  // The length of the prompt is that of its fixed parts and of the escaped history.
  lemma AssembledLength(names: Names, history: string, user: string, output: string)
    ensures |Assemble(names, history, user, output)| == |Assemble(names, "", user, output)| + |EscapeText(history)|
  {
    assert EscapeText("") == "";
  }

  lemma FixedLength(names: Names, user: string, output: string)
    requires Short(names)
    ensures |Assemble(names, "", user, output)| <= 6 * (|user| + |output|) + 600
  {
    assert EscapeText("") == "";
    EscapeLength(names.history);
    PartsLength(names, user, output);
  }

  lemma PartsLength(names: Names, user: string, output: string)
    requires Short(names)
    ensures |CurrentParts(names, user, output)| <= 6 * (|user| + |output|) + 380
  {
    EscapeLength(user);
    EscapeLength(output);
    EscapeLength(names.user);
    EscapeLength(names.output);
  }

  // The history after the character limit.  A limit of 0, when the current messages leave
  // no room, keeps all of it: the token search below then does the cutting.
  function LimitedHistory(historyContext: string, user: string, output: string): string {
    var remaining := MAX_PROMPT_CHARS as int - |Assemble(NAMES, "", user, output)| - 40;
    ClipText(NormalizeText(historyContext), Min(HISTORY_MAX_CHARS, Max(0, remaining)))
  }

  // The history is kept as it is up to 32000 characters and to what 40000 leave beside the
  // current messages and a margin of 40; a longer one is clipped to that, unless there is
  // no room at all.
  lemma LimitedHistoryIs(historyContext: string, user: string, output: string)
    ensures var history := NormalizeText(historyContext);
            var room := 40000 - |Assemble(NAMES, "", user, output)| - 40;
            var limit := if room < 32000 then room else 32000;
            && (room <= 0 || |history| <= limit ==> LimitedHistory(historyContext, user, output) == history)
            && (3 <= limit < |history| ==> |LimitedHistory(historyContext, user, output)| <= limit)
  {
    var history := NormalizeText(historyContext);
    var limit := Min(HISTORY_MAX_CHARS, Max(0, MAX_PROMPT_CHARS as int - |Assemble(NAMES, "", user, output)| - 40));
    ClipLengthIff(history, limit);
  }

  // The prompt is JSON with the current messages in full and a clip of the history.
  ghost predicate WholeContext(names: Names, r: string, history: string, user: string, output: string) {
    || r == Assemble(names, "", user, output)
    || exists n: nat :: n <= |history| && r == Assemble(names, ClipText(history, n), user, output)
  }

  // ---------------------------------------------------------------- searching for the history

  predicate Fits(history: string, assemble: string -> string, count: Counter, maxTokens: nat, n: nat) {
    count(assemble(ClipText(history, n))) <= maxTokens
  }

  // The whole history is too much; from limit 3 on small clips fit, and a smaller clip fits
  // where a larger one does.
  ghost predicate Searchable(history: string, assemble: string -> string, count: Counter, maxTokens: nat) {
    && |history| > 6 && !Fits(history, assemble, count, maxTokens, |history|)
    && (forall n: nat :: 3 <= n <= 6 ==> Fits(history, assemble, count, maxTokens, n))
    && (forall m: nat, n: nat ::
          3 <= m <= n < |history| && Fits(history, assemble, count, maxTokens, n) ==> Fits(history, assemble, count, maxTokens, m))
  }

  // Limit k gives a fitting clip, and no fitting clip of limit 3 or more is longer.
  ghost predicate LongestAt(history: string, assemble: string -> string, count: Counter, maxTokens: nat, k: nat) {
    && 3 <= k < |history| && Fits(history, assemble, count, maxTokens, k)
    && forall n: nat :: 3 <= n <= |history| && Fits(history, assemble, count, maxTokens, n) ==>
                          |ClipText(history, n)| <= |ClipText(history, k)|
  }

  ghost predicate HistorySearch(history: string, assemble: string -> string, count: Counter, maxTokens: nat,
                                low: int, high: int, best: string) {
    && 0 <= low <= high + 1 && 6 <= high <= |history|
    && (low > 0 ==> low > 3 && best == ClipText(history, low - 1) && Fits(history, assemble, count, maxTokens, low - 1))
    && forall n: nat :: high < n <= |history| ==> !Fits(history, assemble, count, maxTokens, n)
  }

  lemma HistoryStep(history: string, assemble: string -> string, count: Counter, maxTokens: nat,
                    low: int, high: int, best: string)
    requires Searchable(history, assemble, count, maxTokens)
    requires HistorySearch(history, assemble, count, maxTokens, low, high, best) && low <= high
    ensures var mid := (low + high) / 2;
            if Fits(history, assemble, count, maxTokens, mid)
            then HistorySearch(history, assemble, count, maxTokens, mid + 1, high, ClipText(history, mid))
            else HistorySearch(history, assemble, count, maxTokens, low, mid - 1, best)
  {
    var mid := (low + high) / 2;
    assert mid >= 3;
    if !Fits(history, assemble, count, maxTokens, mid) {
      assert mid > 6;
      forall n: nat | mid - 1 < n <= |history| ensures !Fits(history, assemble, count, maxTokens, n) {
        if n < |history| { assert 3 <= mid <= n; }
      }
    }
  }

  lemma HistoryEnd(history: string, assemble: string -> string, count: Counter, maxTokens: nat,
                   low: int, high: int, best: string)
    requires Searchable(history, assemble, count, maxTokens)
    requires HistorySearch(history, assemble, count, maxTokens, low, high, best) && low > high
    ensures best == ClipText(history, high) && LongestAt(history, assemble, count, maxTokens, high)
  {
    assert high < |history|;
    forall n: nat | 3 <= n <= |history| && Fits(history, assemble, count, maxTokens, n)
      ensures |ClipText(history, n)| <= |ClipText(history, high)|
    {
      ClipMonotone(history, n, high);
    }
  }

  // The largest history clip found to fit, or none.
  method FitHistory(history: string, assemble: string -> string, count: Counter, maxTokens: nat)
    returns (best: string)
    ensures best == "" || ((exists n: nat :: n <= |history| && best == ClipText(history, n))
                           && count(assemble(best)) <= maxTokens)
    ensures Searchable(history, assemble, count, maxTokens) ==>
              exists k: nat :: LongestAt(history, assemble, count, maxTokens, k) && best == ClipText(history, k)
  {
    ghost var searchable := Searchable(history, assemble, count, maxTokens);
    var low, high := 0, |history|;
    best := "";
    while low <= high
      invariant 0 <= low && high <= |history|
      invariant best == "" || ((exists n: nat :: n <= |history| && best == ClipText(history, n))
                               && count(assemble(best)) <= maxTokens)
      invariant searchable ==> HistorySearch(history, assemble, count, maxTokens, low, high, best)
      decreases high - low + 1
    {
      var mid := (low + high) / 2;
      var candidate := ClipText(history, mid);
      if searchable { HistoryStep(history, assemble, count, maxTokens, low, high, best); }
      if count(assemble(candidate)) <= maxTokens {
        best := candidate;
        low := mid + 1;
      } else {
        high := mid - 1;
      }
    }
    if searchable { HistoryEnd(history, assemble, count, maxTokens, low, high, best); }
  }

  // The budget loop over any way of assembling the prompt.  It is cut as a text, rather
  // than by dropping history, only when the current messages alone exceed the budget.
  method FitPrompt(history: string, assemble: string -> string, count: Counter) returns (r: string)
    requires count("") == 0
    ensures count(r) <= MAX_PROMPT_TOKENS
    ensures count(assemble(history)) <= MAX_PROMPT_TOKENS ==> r == assemble(history)
    ensures count(assemble("")) <= MAX_PROMPT_TOKENS ==>
              r == assemble("") || exists n: nat :: n <= |history| && r == assemble(ClipText(history, n))
    ensures Searchable(history, assemble, count, MAX_PROMPT_TOKENS) ==>
              exists k: nat :: LongestAt(history, assemble, count, MAX_PROMPT_TOKENS, k) && r == assemble(ClipText(history, k))
  {
    assert ClipText(history, |history|) == history;
    r := assemble(history);
    if count(r) <= MAX_PROMPT_TOKENS { return r; }
    var best := FitHistory(history, assemble, count, MAX_PROMPT_TOKENS);
    r := assemble(best);
    if count(r) <= MAX_PROMPT_TOKENS { return r; }
    r := ClipPromptToTokenBudget(assemble(""), MAX_PROMPT_TOKENS, count);
  }

  lemma PrefixEscape(s: string, a: nat, b: nat)
    requires a <= b <= |s|
    ensures |EscapeText(s[..a])| <= |EscapeText(s[..b])|
  {
    assert s[..b] == s[..a] + s[a..b];
    EscapeAppend(s[..a], s[a..b]);
  }

  // A clip of limit 3 or more is no longer, escaped, than one of a larger limit.
  lemma EscapedMonotone(s: string, m: nat, n: nat)
    requires 3 <= m <= n < |s|
    ensures |EscapeText(ClipText(s, m))| <= |EscapeText(ClipText(s, n))|
  {
    var a, b := ClippedPrefixes(s, m, n);
    EscapeAppend(s[..a], ELLIPSIS);
    EscapeAppend(s[..b], ELLIPSIS);
    PrefixEscape(s, a, b);
  }

  lemma ClippedPrefixes(s: string, m: nat, n: nat) returns (a: nat, b: nat)
    requires 3 <= m <= n < |s|
    ensures a <= b <= |s| && ClipText(s, m) == s[..a] + ELLIPSIS && ClipText(s, n) == s[..b] + ELLIPSIS
  {
    a := ClippedPrefix(s, m);
    b := ClippedPrefix(s, n);
    RStripMonotone(s, m - 3, n - 3);
  }

  lemma ClippedPrefix(s: string, n: nat) returns (k: nat)
    requires 3 <= n < |s|
    ensures k <= |s| && k == |RStrip(s[..n - 3])| && ClipText(s, n) == s[..k] + ELLIPSIS
  {
    ClipIs(s, n);
    k := |RStrip(s[..n - 3])|;
    assert RStrip(s[..n - 3]) == s[..k];
  }

  // With the character estimate and current messages within their limits the prompt is
  // searchable as soon as the whole history is too much.
  lemma PromptIsSearchable(names: Names, history: string, user: string, output: string, assemble: string -> string,
                           count: Counter)
    requires Short(names) && IsEstimate(count) && |user| <= CURRENT_USER_MAX_CHARS && |output| <= CURRENT_OUTPUT_MAX_CHARS
    requires forall h :: assemble(h) == Assemble(names, h, user, output)
    requires count(Assemble(names, history, user, output)) > MAX_PROMPT_TOKENS
    ensures Searchable(history, assemble, count, MAX_PROMPT_TOKENS)
  {
    var fixed := |Assemble(names, "", user, output)|;
    FixedLength(names, user, output);
    forall n: nat
      ensures Fits(history, assemble, count, MAX_PROMPT_TOKENS, n)
              <==> fixed + |EscapeText(ClipText(history, n))| <= MAX_PROMPT_CHARS
    {
      FitsIff(names, history, user, output, assemble, count, n);
    }
    SearchableByLength(history, assemble, count, fixed);
  }

  // The same for any prompt whose length is that of a fixed part and the escaped history.
  lemma SearchableByLength(history: string, assemble: string -> string, count: Counter, fixed: nat)
    requires fixed <= 36600
    requires count(assemble(history)) > MAX_PROMPT_TOKENS
    requires forall n: nat :: Fits(history, assemble, count, MAX_PROMPT_TOKENS, n)
                              <==> fixed + |EscapeText(ClipText(history, n))| <= MAX_PROMPT_CHARS
    ensures Searchable(history, assemble, count, MAX_PROMPT_TOKENS)
  {
    assert ClipText(history, |history|) == history;
    assert !Fits(history, assemble, count, MAX_PROMPT_TOKENS, |history|);
    EscapeLength(history);
    forall n: nat | 3 <= n <= 6 ensures Fits(history, assemble, count, MAX_PROMPT_TOKENS, n) {
      ClipLengthIff(history, n);
      EscapeLength(ClipText(history, n));
    }
    forall m: nat, n: nat | 3 <= m <= n < |history| && Fits(history, assemble, count, MAX_PROMPT_TOKENS, n)
      ensures Fits(history, assemble, count, MAX_PROMPT_TOKENS, m)
    {
      EscapedMonotone(history, m, n);
    }
  }

  lemma FitsIff(names: Names, history: string, user: string, output: string, assemble: string -> string, count: Counter,
                n: nat)
    requires IsEstimate(count) && forall h :: assemble(h) == Assemble(names, h, user, output)
    ensures Fits(history, assemble, count, MAX_PROMPT_TOKENS, n)
            <==> |Assemble(names, "", user, output)| + |EscapeText(ClipText(history, n))| <= MAX_PROMPT_CHARS
  {
    var p := Assemble(names, ClipText(history, n), user, output);
    AssembledLength(names, ClipText(history, n), user, output);
    EstimateFits(p, MAX_PROMPT_TOKENS);
    assert count(assemble(ClipText(history, n))) == Estimate(p);
  }

  method BuildRecommendPrompt(userInput: string, outputText: string, historyContext: string, count: Counter)
    returns (r: string)
    requires count("") == 0
    ensures count(r) <= MAX_PROMPT_TOKENS
    ensures
      var user := ClipText(NormalizeText(userInput), CURRENT_USER_MAX_CHARS);
      var output := ClipText(NormalizeText(outputText), CURRENT_OUTPUT_MAX_CHARS);
      |user| <= CURRENT_USER_MAX_CHARS && |output| <= CURRENT_OUTPUT_MAX_CHARS
      && FilledPrompt(NAMES, r, LimitedHistory(historyContext, user, output), user, output, count)
  {
    var user := ClipText(NormalizeText(userInput), CURRENT_USER_MAX_CHARS);
    var output := ClipText(NormalizeText(outputText), CURRENT_OUTPUT_MAX_CHARS);
    ClipLengthIff(NormalizeText(userInput), CURRENT_USER_MAX_CHARS);
    ClipLengthIff(NormalizeText(outputText), CURRENT_OUTPUT_MAX_CHARS);
    NamesAreShort();
    r := FillPrompt(NAMES, LimitedHistory(historyContext, user, output), user, output, count);
  }

  // The whole history if it fits; else, if the current messages fit, these in full with a
  // clip of the history or none; and without a tokenizer the longest such clip.
  ghost predicate FilledPrompt(names: Names, r: string, history: string, user: string, output: string, count: Counter) {
    && (count(Assemble(names, history, user, output)) <= MAX_PROMPT_TOKENS ==> r == Assemble(names, history, user, output))
    && (count(Assemble(names, "", user, output)) <= MAX_PROMPT_TOKENS ==> WholeContext(names, r, history, user, output))
    && (IsEstimate(count) && count(Assemble(names, history, user, output)) > MAX_PROMPT_TOKENS ==>
          exists k: nat :: LongestAt(history, h => Assemble(names, h, user, output), count, MAX_PROMPT_TOKENS, k)
                           && r == Assemble(names, ClipText(history, k), user, output))
  }

  method FillPrompt(names: Names, history: string, user: string, output: string, count: Counter) returns (r: string)
    requires Short(names) && count("") == 0
    requires |user| <= CURRENT_USER_MAX_CHARS && |output| <= CURRENT_OUTPUT_MAX_CHARS
    ensures count(r) <= MAX_PROMPT_TOKENS && FilledPrompt(names, r, history, user, output, count)
  {
    var assemble := h => Assemble(names, h, user, output);
    if IsEstimate(count) && count(Assemble(names, history, user, output)) > MAX_PROMPT_TOKENS {
      PromptIsSearchable(names, history, user, output, assemble, count);
    }
    r := FitPrompt(history, assemble, count);
  }
}
