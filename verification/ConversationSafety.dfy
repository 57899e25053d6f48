/** Quotation spans and the output policy (src/reckoning/conversation_safety.py:176-272, 344-397). */
module ConversationSafety {
  import opened Wrappers
  import opened Text

  /** The indices of an opening and of its closing quotation mark. */
  datatype Span = Span(open: nat, close: nat)

  function Closer(c: char): Option<char> {
    if c == '"' then Some('"')
    else if c == '\'' then Some('\'')
    else if c == '\U{201c}' then Some('\U{201d}')
    else if c == '\U{2018}' then Some('\U{2019}')
    else if c == '\U{ab}' then Some('\U{bb}')
    else if c == '\U{300c}' then Some('\U{300d}')
    else None
  }

  predicate IsOpener(c: char) { Closer(c).Some? }

  /** The pairs of marks: the straight ones, double and single quotes, guillemets and corner brackets. */
  const MARKS: set<(char, char)> := {
    ('"', '"'), ('\'', '\''), ('\U{201c}', '\U{201d}'), ('\U{2018}', '\U{2019}'), ('\U{ab}', '\U{bb}'),
    ('\U{300c}', '\U{300d}')
  }

  lemma MarksArePairs(a: char, b: char)
    ensures Closer(a) == Some(b) <==> (a, b) in MARKS
    ensures IsOpener(a) <==> exists c :: (a, c) in MARKS
  {
    if IsOpener(a) { assert (a, Closer(a).value) in MARKS; }
  }

  /** A straight apostrophe between two word characters. */
  predicate Contraction(isAlnum: char -> bool, text: string, i: int) {
    0 < i < |text| - 1 && text[i] == '\'' && isAlnum(text[i - 1]) && isAlnum(text[i + 1])
  }

  // ---------------------------------------------------------------------
  // The scan
  // ---------------------------------------------------------------------

  datatype Scan = Scan(spans: seq<Span>, stack: seq<nat>)

  predicate Closes(text: string, stack: seq<nat>, c: char) {
    stack != [] && stack[|stack| - 1] < |text| && Closer(text[stack[|stack| - 1]]) == Some(c)
  }

  function ScanOne(isAlnum: char -> bool, text: string, i: nat, s: Scan): Scan
    requires i < |text|
  {
    if Contraction(isAlnum, text, i) then s
    else if Closes(text, s.stack, text[i]) then
      Scan(s.spans + [Span(s.stack[|s.stack| - 1], i)], s.stack[..|s.stack| - 1])
    else if IsOpener(text[i]) then Scan(s.spans, s.stack + [i])
    else s
  }

  /** The state of the scan after `n` characters. */
  function ScanTo(isAlnum: char -> bool, text: string, n: nat): Scan
    requires n <= |text|
  {
    if n == 0 then Scan([], []) else ScanOne(isAlnum, text, n - 1, ScanTo(isAlnum, text, n - 1))
  }

  function QuoteSpans(isAlnum: char -> bool, text: string): seq<Span> { ScanTo(isAlnum, text, |text|).spans }

  method CollectQuoteSpans(isAlnum: char -> bool, text: string) returns (spans: seq<Span>)
    ensures spans == QuoteSpans(isAlnum, text)
  {
    spans := [];
    var stack: seq<nat> := [];
    for index := 0 to |text|
      invariant Scan(spans, stack) == ScanTo(isAlnum, text, index)
    {
      var c := text[index];
      if c == '\'' && 0 < index < |text| - 1 && isAlnum(text[index - 1]) && isAlnum(text[index + 1]) { continue; }
      if Closes(text, stack, c) {
        spans := spans + [Span(stack[|stack| - 1], index)];
        stack := stack[..|stack| - 1];
      } else if IsOpener(c) {
        stack := stack + [index];
      }
    }
  }

  // ---------------------------------------------------------------------
  // What the spans are
  // ---------------------------------------------------------------------

  /** A matching pair of quotation marks, neither of them a contraction. */
  predicate Matching(isAlnum: char -> bool, text: string, s: Span) {
    && s.open < s.close < |text| && Closer(text[s.open]) == Some(text[s.close])
    && !Contraction(isAlnum, text, s.open) && !Contraction(isAlnum, text, s.close)
  }

  predicate Within(inner: Span, outer: Span) { outer.open < inner.open && inner.close < outer.close }

  predicate Apart(a: Span, b: Span) { a.close < b.open || b.close < a.open }

  predicate NestedOrApart(a: Span, b: Span) { Apart(a, b) || Within(a, b) || Within(b, a) }

  predicate EndsAt(s: Span, i: int) { s.open == i || s.close == i }

  /** An opening mark strictly between the ends of `outer` is itself an end of a span within it. */
  ghost predicate Balanced(isAlnum: char -> bool, text: string, spans: seq<Span>, outer: Span) {
    forall i :: outer.open < i < outer.close && i < |text| && IsOpener(text[i]) && !Contraction(isAlnum, text, i) ==>
      exists s :: s in spans && EndsAt(s, i) && Within(s, outer)
  }

  ghost predicate StackSound(isAlnum: char -> bool, text: string, n: nat, stack: seq<nat>) {
    && (forall k :: 0 <= k < |stack| ==>
          stack[k] < n && stack[k] < |text| && IsOpener(text[stack[k]]) && !Contraction(isAlnum, text, stack[k]))
    && (forall j, k :: 0 <= j < k < |stack| ==> stack[j] < stack[k])
  }

  ghost predicate SpansSound(isAlnum: char -> bool, text: string, n: nat, spans: seq<Span>) {
    && (forall s :: s in spans ==> Matching(isAlnum, text, s) && s.close < n)
    && (forall i, j :: 0 <= i < j < |spans| ==> NestedOrApart(spans[i], spans[j]))
    && (forall s :: s in spans ==> Balanced(isAlnum, text, spans, s))
  }

  /** No span reaches over an opening mark that is still open, and every other one is the end of a span. */
  ghost predicate OpenOrEnded(isAlnum: char -> bool, text: string, n: nat, s: Scan) {
    && (forall k, p :: 0 <= k < |s.stack| && p in s.spans ==> p.close < s.stack[k] || s.stack[k] < p.open)
    && (forall i :: 0 <= i < n && i < |text| && IsOpener(text[i]) && !Contraction(isAlnum, text, i) && i !in s.stack ==>
          exists p :: p in s.spans && EndsAt(p, i))
  }

  ghost predicate ScanSound(isAlnum: char -> bool, text: string, n: nat, s: Scan) {
    StackSound(isAlnum, text, n, s.stack) && SpansSound(isAlnum, text, n, s.spans) && OpenOrEnded(isAlnum, text, n, s)
  }

  lemma BalancedGrows(isAlnum: char -> bool, text: string, spans: seq<Span>, more: seq<Span>, outer: Span)
    requires Balanced(isAlnum, text, spans, outer) && forall s :: s in spans ==> s in more
    ensures Balanced(isAlnum, text, more, outer)
  {
    hide IsOpener, Contraction;
    forall i | outer.open < i < outer.close && i < |text| && IsOpener(text[i]) && !Contraction(isAlnum, text, i)
      ensures exists s :: s in more && EndsAt(s, i) && Within(s, outer)
    {
      var s :| s in spans && EndsAt(s, i) && Within(s, outer);
      assert s in more;
    }
  }

  /** Closing the innermost open mark makes a span around everything ended since it was opened. */
  lemma ClosedSound(isAlnum: char -> bool, text: string, i: nat, s: Scan)
    requires i < |text| && ScanSound(isAlnum, text, i, s) && !Contraction(isAlnum, text, i)
    requires Closes(text, s.stack, text[i])
    ensures ScanSound(isAlnum, text, i + 1, ScanOne(isAlnum, text, i, s))
  {
    hide Contraction, Closer, IsOpener;
    var open := s.stack[|s.stack| - 1];
    var span := Span(open, i);
    var t := ScanOne(isAlnum, text, i, s);
    assert span in t.spans;
    assert IsOpener(text[open]) && Closer(text[open]) == Some(text[i]);
    assert Matching(isAlnum, text, span);
    assert Balanced(isAlnum, text, t.spans, span) by {
      forall k | open < k < i && k < |text| && IsOpener(text[k]) && !Contraction(isAlnum, text, k)
        ensures exists p :: p in t.spans && EndsAt(p, k) && Within(p, span)
      {
        assert k !in s.stack;
        var p :| p in s.spans && EndsAt(p, k);
        assert p in t.spans && Within(p, span);
      }
    }
    forall p | p in t.spans
      ensures Matching(isAlnum, text, p) && p.close < i + 1 && Balanced(isAlnum, text, t.spans, p) {
      if p != span { BalancedGrows(isAlnum, text, s.spans, t.spans, p); }
    }
    EndedAfterClose(isAlnum, text, i, s, t);
  }

  lemma EndedAfterClose(isAlnum: char -> bool, text: string, i: nat, s: Scan, t: Scan)
    requires i < |text| && ScanSound(isAlnum, text, i, s) && s.stack != []
    requires t == Scan(s.spans + [Span(s.stack[|s.stack| - 1], i)], s.stack[..|s.stack| - 1])
    ensures OpenOrEnded(isAlnum, text, i + 1, t)
  {
    hide Contraction, IsOpener, SpansSound;
    var span := Span(s.stack[|s.stack| - 1], i);
    assert span in t.spans && s.stack == t.stack + [span.open];
    forall k | 0 <= k < i + 1 && k < |text| && IsOpener(text[k]) && !Contraction(isAlnum, text, k) && k !in t.stack
      ensures exists p :: p in t.spans && EndsAt(p, k)
    {
      if k == i || k == span.open {
        assert EndsAt(span, k);
      } else {
        assert k !in s.stack;
        var p :| p in s.spans && EndsAt(p, k);
        assert p in t.spans;
      }
    }
  }

  lemma OpenedSound(isAlnum: char -> bool, text: string, i: nat, s: Scan)
    requires i < |text| && ScanSound(isAlnum, text, i, s) && !Contraction(isAlnum, text, i)
    requires !Closes(text, s.stack, text[i]) && IsOpener(text[i])
    ensures ScanSound(isAlnum, text, i + 1, ScanOne(isAlnum, text, i, s))
  {
    hide Contraction, IsOpener, Closer, Balanced;
    var t := ScanOne(isAlnum, text, i, s);
    assert t == Scan(s.spans, s.stack + [i]);
  }

  lemma {:induction false} ScanToSound(isAlnum: char -> bool, text: string, n: nat)
    requires n <= |text|
    ensures ScanSound(isAlnum, text, n, ScanTo(isAlnum, text, n))
  {
    if n > 0 {
      ScanToSound(isAlnum, text, n - 1);
      var s := ScanTo(isAlnum, text, n - 1);
      if !Contraction(isAlnum, text, n - 1) && Closes(text, s.stack, text[n - 1]) {
        hide ScanSound, ScanOne;
        ClosedSound(isAlnum, text, n - 1, s);
      } else if !Contraction(isAlnum, text, n - 1) && IsOpener(text[n - 1]) {
        hide ScanSound, ScanOne;
        OpenedSound(isAlnum, text, n - 1, s);
      } else {
        SkippedSound(isAlnum, text, n - 1, s);
      }
    }
  }

  lemma SkippedSound(isAlnum: char -> bool, text: string, i: nat, s: Scan)
    requires i < |text| && ScanSound(isAlnum, text, i, s)
    requires Contraction(isAlnum, text, i) || !IsOpener(text[i])
    ensures ScanSound(isAlnum, text, i + 1, s)
  {
    hide Contraction, IsOpener, Closer, Balanced;
  }

  /** Quotation spans are matching pairs of marks, none of them a contraction; any two are nested or apart
      and share no end; and inside a span every opening mark is an end of a span within it. */
  lemma QuoteSpansAreWellFormed(isAlnum: char -> bool, text: string)
    ensures var spans := QuoteSpans(isAlnum, text);
            && (forall s :: s in spans ==> Matching(isAlnum, text, s) && Balanced(isAlnum, text, spans, s))
            && (forall i, j :: 0 <= i < j < |spans| ==> NestedOrApart(spans[i], spans[j]))
  {
    ScanToSound(isAlnum, text, |text|);
  }

  /** And none is missed: an opening mark that is the end of no span was never closed, which means that no
      span reaches over it. */
  lemma UnclosedMarksHideNothing(isAlnum: char -> bool, text: string, i: nat)
    requires i < |text| && IsOpener(text[i]) && !Contraction(isAlnum, text, i)
    requires forall s :: s in QuoteSpans(isAlnum, text) ==> !EndsAt(s, i)
    ensures forall s :: s in QuoteSpans(isAlnum, text) ==> s.close < i || i < s.open
  {
    ScanToSound(isAlnum, text, |text|);
    var s := ScanTo(isAlnum, text, |text|);
    assert i in s.stack;
  }

  /** A mark open after `n` characters has been open since it was read. */
  lemma {:induction false} OpenSince(isAlnum: char -> bool, text: string, m: nat, n: nat, i: nat)
    requires i < m <= n <= |text| && i in ScanTo(isAlnum, text, n).stack
    ensures i in ScanTo(isAlnum, text, m).stack
    decreases n
  {
    if m < n {
      hide Contraction, Closes, IsOpener;
      OpenSince(isAlnum, text, m, n - 1, i);
    }
  }

  /** A span of the whole text that is not there after `m` characters closes later. */
  lemma {:induction false} ClosedLater(isAlnum: char -> bool, text: string, m: nat, n: nat, s: Span)
    requires m <= n <= |text| && s in ScanTo(isAlnum, text, n).spans
    ensures s in ScanTo(isAlnum, text, m).spans || s.close >= m
    decreases n
  {
    if m < n && s in ScanTo(isAlnum, text, n - 1).spans {
      hide Contraction, Closes, IsOpener;
      ClosedLater(isAlnum, text, m, n - 1, s);
    }
  }

  /** No closing is missed: an opening mark that ends no span, and a mark after it that could have closed it,
      have another opening mark between them that was not closed before that. */
  lemma NoClosingIsMissed(isAlnum: char -> bool, text: string, i: nat, c: nat) returns (u: nat)
    requires i < c < |text| && IsOpener(text[i]) && !Contraction(isAlnum, text, i)
    requires Closer(text[i]) == Some(text[c]) && !Contraction(isAlnum, text, c)
    requires forall s :: s in QuoteSpans(isAlnum, text) ==> !EndsAt(s, i)
    ensures i < u < c && IsOpener(text[u]) && !Contraction(isAlnum, text, u)
    ensures forall s :: s in QuoteSpans(isAlnum, text) && EndsAt(s, u) ==> s.open == u && s.close >= c
  {
    hide Contraction, Closer;
    ScanToSound(isAlnum, text, |text|);
    ScanToSound(isAlnum, text, c);
    var before, last := ScanTo(isAlnum, text, c), ScanTo(isAlnum, text, |text|);
    assert i in last.stack;
    OpenSince(isAlnum, text, c, |text|, i);
    OpenSince(isAlnum, text, c + 1, |text|, i);
    u := before.stack[|before.stack| - 1];
    hide ScanTo;
    assert u != i;
    forall s | s in last.spans && EndsAt(s, u) ensures s.open == u && s.close >= c {
      ClosedLater(isAlnum, text, c, |text|, s);
    }
  }

  // ---------------------------------------------------------------------
  // The output policy
  // ---------------------------------------------------------------------

  predicate Unquoted(start: nat, length: nat, spans: seq<Span>) {
    !exists s :: s in spans && s.open < start && start + length <= s.close
  }

  predicate Occurs(text: string, fragment: string, i: nat) { OccursAt(text, fragment, i) }

  /** `text.find(fragment, start)` */
  method FindFragment(text: string, fragment: string, start: nat) returns (r: Option<nat>)
    ensures r.Some? ==> start <= r.value && Occurs(text, fragment, r.value)
    ensures forall i: nat :: start <= i && Occurs(text, fragment, i) ==> r.Some? && r.value <= i
  {
    var i := start;
    while i + |fragment| <= |text|
      invariant start <= i
      invariant forall k: nat :: start <= k < i ==> !Occurs(text, fragment, k)
      decreases |text| - i
    {
      if text[i..i + |fragment|] == fragment { return Some(i); }
      i := i + 1;
    }
    r := None;
  }

  datatype OutputAction = Allow | Replace | Uncertain

  datatype OutputPolicyDecision = OutputPolicyDecision(action: OutputAction, deliveredSpeech: string)

  /** The word lists and Unicode tables the policy is given. */
  datatype Policy = Policy(
    fragments: seq<string>, replacement: string, casefold: string -> string, isAlnum: char -> bool,
    safeContext: string -> bool)

  /** The fragment stands at `i`, and every span begins at or behind it, or ends within it or before it. */
  ghost predicate Exposed(p: Policy, text: string, spans: seq<Span>, k: nat, i: nat) {
    && k < |p.fragments| && Occurs(text, p.fragments[k], i)
    && forall s :: s in spans ==> i <= s.open || s.close < i + |p.fragments[k]|
  }

  lemma UnquotedIsExposed(p: Policy, text: string, spans: seq<Span>, k: nat, i: nat)
    requires k < |p.fragments|
    ensures Exposed(p, text, spans, k, i)
        <==> Occurs(text, p.fragments[k], i) && Unquoted(i, |p.fragments[k]|, spans)
  {
  }

  ghost predicate Mentions(p: Policy, text: string, k: nat, i: nat) {
    k < |p.fragments| && Occurs(text, p.fragments[k], i)
  }

  /** Replaced exactly when some occurrence of some prohibited fragment, overlapping ones included, lies in no
      span; otherwise uncertain exactly when there is a quoted one without a safe context; and only what is
      allowed is delivered as it was proposed. */
  method ClassifyOutput(p: Policy, proposed: string) returns (d: OutputPolicyDecision)
    ensures var text := p.casefold(proposed);
            var spans := QuoteSpans(p.isAlnum, text);
            && (d.action == Replace <==> exists k, i :: Exposed(p, text, spans, k, i))
            && (d.action == Uncertain
                <==> (!exists k, i :: Exposed(p, text, spans, k, i)) && (exists k, i :: Mentions(p, text, k, i))
                     && !p.safeContext(text))
    ensures d.deliveredSpeech == if d.action == Allow then proposed else p.replacement
  {
    hide QuoteSpans, Unquoted, Occurs;
    var text := p.casefold(proposed);
    var spans := CollectQuoteSpans(p.isAlnum, text);
    assert forall k: nat, i: nat :: Exposed(p, text, spans, k, i) ==> k < |p.fragments|;
    hide Exposed;
    var quoted := false;
    for k := 0 to |p.fragments|
      invariant forall j, i :: 0 <= j < k ==> !Exposed(p, text, spans, j, i)
      invariant quoted <==> exists j, i :: 0 <= j < k && Mentions(p, text, j, i)
    {
      var exposed, found := SearchFragment(text, p.fragments[k], spans);
      forall i: nat
        ensures Exposed(p, text, spans, k, i)
            <==> Occurs(text, p.fragments[k], i) && Unquoted(i, |p.fragments[k]|, spans)
      {
        UnquotedIsExposed(p, text, spans, k, i);
      }
      if exposed.Some? {
        assert Exposed(p, text, spans, k, exposed.value);
        return OutputPolicyDecision(Replace, p.replacement);
      }
      assert forall i: nat :: !Exposed(p, text, spans, k, i);
      if found.Some? {
        assert Mentions(p, text, k, found.value);
        quoted := true;
      }
    }
    if quoted && !p.safeContext(text) { return OutputPolicyDecision(Uncertain, p.replacement); }
    d := OutputPolicyDecision(Allow, proposed);
  }

  /** The inner loop: the first occurrence outside every span, and some occurrence if there is one. */
  method SearchFragment(text: string, fragment: string, spans: seq<Span>)
    returns (exposed: Option<nat>, found: Option<nat>)
    ensures exposed.Some? ==> Occurs(text, fragment, exposed.value) && Unquoted(exposed.value, |fragment|, spans)
    ensures exposed == None ==>
              forall i: nat :: Occurs(text, fragment, i) ==> !Unquoted(i, |fragment|, spans) && found.Some?
    ensures found.Some? ==> Occurs(text, fragment, found.value)
  {
    hide Unquoted;
    exposed, found := None, None;
    var occurrence := FindFragment(text, fragment, 0);
    while occurrence.Some?
      invariant occurrence.Some? ==> Occurs(text, fragment, occurrence.value)
      invariant forall i: nat :: Occurs(text, fragment, i) && (occurrence == None || i < occurrence.value) ==>
                  !Unquoted(i, |fragment|, spans) && found.Some?
      invariant found.Some? ==> Occurs(text, fragment, found.value)
      decreases if occurrence.Some? then |text| + 1 - occurrence.value else 0
    {
      if Unquoted(occurrence.value, |fragment|, spans) { return occurrence, occurrence; }
      found := occurrence;
      occurrence := FindFragment(text, fragment, occurrence.value + 1);
    }
  }
}
