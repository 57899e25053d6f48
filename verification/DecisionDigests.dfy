/** Which requests the digest of an operation tells apart (src/reckoning/application.py:640-642): it is a hash of
    the parts of the request joined with a bar, and does not hold the kind of the request. */
module DecisionDigests {
  import opened Wrappers
  import opened DecisionProtocol
  import Text

  // ---------------------------------------------------------------------
  // Parts without a bar
  // ---------------------------------------------------------------------

  function Bars(text: string): nat {
    if text == "" then 0 else Bars(text[..|text| - 1]) + (if text[|text| - 1] == '|' then 1 else 0)
  }

  lemma {:induction false} BarsOfSum(a: string, b: string)
    ensures Bars(a + b) == Bars(a) + Bars(b)
    decreases |b|
  {
    if b == "" {
      assert a + b == a;
    } else {
      assert (a + b)[..|a + b| - 1] == a + b[..|b| - 1];
      BarsOfSum(a, b[..|b| - 1]);
    }
  }

  lemma {:induction false} NoBars(text: string)
    ensures Bars(text) == 0 <==> '|' !in text
    decreases |text|
  {
    if text != "" {
      assert text == text[..|text| - 1] + [text[|text| - 1]];
      NoBars(text[..|text| - 1]);
    }
  }

  function InnerBars(parts: seq<string>): nat {
    if parts == [] then 0 else Bars(parts[0]) + InnerBars(parts[1..])
  }

  lemma {:induction false} BarsOfJoined(parts: seq<string>)
    requires parts != []
    ensures Bars(Joined(parts)) == |parts| - 1 + InnerBars(parts)
    decreases |parts|
  {
    if |parts| > 1 {
      BarsOfJoined(parts[1..]);
      BarsOfSum(parts[0] + "|", Joined(parts[1..]));
      BarsOfSum(parts[0], "|");
      assert Bars("|") == 1 by { assert "|"[..0] == ""; }
    }
  }

  lemma {:induction false} NoInnerBars(parts: seq<string>)
    ensures InnerBars(parts) == 0 <==> forall p :: p in parts ==> '|' !in p
    decreases |parts|
  {
    if parts != [] {
      assert parts == [parts[0]] + parts[1..];
      NoBars(parts[0]);
      NoInnerBars(parts[1..]);
    }
  }

  lemma FirstBar(a: string, x: string, b: string, y: string)
    requires '|' !in a && '|' !in b && a + "|" + x == b + "|" + y
    ensures a == b && x == y
  {
    var text := a + "|" + x;
    assert text[|a|] == '|' && text[|b|] == '|';
    assert forall k :: 0 <= k < |a| ==> text[k] == a[k];
    assert forall k :: 0 <= k < |b| ==> text[k] == b[k];
    assert |a| == |b|;
    assert text[..|a|] == a && text[..|b|] == b;
    assert text[|a| + 1..] == x && text[|b| + 1..] == y;
  }

  lemma {:induction false} JoinedIsInjective(a: seq<string>, b: seq<string>)
    requires |a| == |b| && Joined(a) == Joined(b)
    requires forall p :: p in a ==> '|' !in p
    requires forall p :: p in b ==> '|' !in p
    ensures a == b
    decreases |a|
  {
    if |a| > 1 {
      FirstBar(a[0], Joined(a[1..]), b[0], Joined(b[1..]));
      JoinedIsInjective(a[1..], b[1..]);
      assert a == [a[0]] + a[1..] && b == [b[0]] + b[1..];
    } else if |a| == 1 {
      assert a == [a[0]] && b == [b[0]];
    }
  }

  /** Lists of parts without a bar are told apart, whatever their lengths. */
  lemma BarFreePartsAreToldApart(a: seq<string>, b: seq<string>)
    requires a != [] && b != [] && Joined(a) == Joined(b)
    requires forall p :: p in a ==> '|' !in p
    requires forall p :: p in b ==> '|' !in p
    ensures a == b
  {
    hide Joined;
    BarsOfJoined(a);
    BarsOfJoined(b);
    NoInnerBars(a);
    NoInnerBars(b);
    JoinedIsInjective(a, b);
  }

  ghost predicate BarFree(r: Request) { forall p :: p in Parts(r) ==> '|' !in p }

  /** Requests of any two kinds in which no part holds a bar have one joined text exactly when they have the
      same parts; and then they are of one kind. */
  lemma BarFreeRequestsAreToldApart(a: Request, b: Request)
    requires !a.CheckInRequest? && !b.CheckInRequest? && BarFree(a) && BarFree(b)
    ensures Joined(Parts(a)) == Joined(Parts(b)) <==> Parts(a) == Parts(b)
    ensures Parts(a) == Parts(b) ==>
              (a.StartRequest? <==> b.StartRequest?) && (a.ConfirmRequest? <==> b.ConfirmRequest?)
  {
    hide Joined;
    if Joined(Parts(a)) == Joined(Parts(b)) { BarFreePartsAreToldApart(Parts(a), Parts(b)); }
  }

  // ---------------------------------------------------------------------
  // The joined texts
  // ---------------------------------------------------------------------

  lemma StripFixed(text: string)
    requires text != ""
    ensures Text.Strip(text) == text <==> !Text.IsSpace(text[0]) && !Text.IsSpace(text[|text| - 1])
  {
    hide Text.IsSpace;
    var left := Text.LeftStrip(text);
    var stripped := Text.RightStrip(left);
    hide Text.LeftStrip, Text.RightStrip;
    if |stripped| == |text| {
      assert left == text && stripped == text;
    } else if |left| == |text| {
      assert left == text && Text.IsSpace(text[|text| - 1]);
    } else {
      assert Text.IsSpace(text[0]);
    }
  }

  lemma StripIsStripped(text: string)
    ensures Text.Strip(Text.Strip(text)) == Text.Strip(text)
  {
    var stripped := Text.Strip(text);
    if stripped != "" {
      StripFixed(stripped);
      assert stripped[0] == Text.LeftStrip(text)[0];
    }
  }

  /** A revision is never empty and holds neither a bar nor white space. */
  lemma RevisionIsPlain(e: Option<int>)
    ensures var r := RevisionText(e); r != "" && '|' !in r && forall c :: c in r ==> !Text.IsSpace(c)
  {
    hide Text.Decimal;
    if e.Some? {
      var digits := Text.Decimal(if e.value < 0 then -e.value else e.value);
      assert forall c :: c in digits ==> '0' <= c <= '9';
    }
  }

  /** What was written for `str(expected)`. */
  function Revision(text: string): Option<int> {
    if text == "None" then None
    else if text != "" && text[0] == '-' then Some(-Text.Value(text[1..])) else Some(Text.Value(text))
  }

  /** A revision reads back from its text, so two of them have the same text only if they are the same. */
  lemma RevisionReads(e: Option<int>)
    ensures Revision(RevisionText(e)) == e
  {
    if e.Some? {
      var n := if e.value < 0 then -e.value else e.value;
      Text.DecimalReads(n);
      ReadsBack(e.value, Text.Decimal(n));
    }
  }

  lemma ReadsBack(n: int, digits: string)
    requires digits != "" && (forall c :: c in digits ==> '0' <= c <= '9')
    requires Text.Value(digits) == if n < 0 then -n else n
    ensures Revision(if n < 0 then "-" + digits else digits) == Some(n)
  {
    hide Text.Value;
    var text := if n < 0 then "-" + digits else digits;
    assert digits[0] in digits;
    assert "None"[0] == 'N' && text[0] != 'N';
    assert n < 0 ==> text[1..] == digits;
  }

  lemma RevisionsAreToldApart(a: Option<int>, b: Option<int>)
    ensures RevisionText(a) == RevisionText(b) <==> a == b
  {
    RevisionReads(a);
    RevisionReads(b);
    hide RevisionText, Revision;
  }

  lemma JoinedConfirmation(r: Request)
    requires r.ConfirmRequest?
    ensures Joined(Parts(r)) == r.reckoningId + "|" + RevisionText(r.expected) + "|" + r.submission
  {
    hide RevisionText;
    var parts := [r.reckoningId, RevisionText(r.expected), r.submission];
    assert Parts(r) == parts && parts[1..] == [parts[1], parts[2]];
    assert [parts[1], parts[2]][1..] == [parts[2]];
    assert Joined([parts[1], parts[2]]) == parts[1] + "|" + parts[2];
    assert Joined(parts) == parts[0] + "|" + (parts[1] + "|" + parts[2]);
  }

  function Head(id: string, recordId: string, meaning: string): string { id + "|" + recordId + "|" + meaning }

  lemma JoinedCorrection(r: Request)
    requires r.CorrectRequest?
    ensures Joined(Parts(r))
         == Head(r.reckoningId, r.recordId, Text.Strip(r.meaning)) + "|" + RevisionText(r.expected) + "|" + r.submission
  {
    hide RevisionText, Text.Strip;
    var rest := [RevisionText(r.expected), r.submission];
    var parts := [r.reckoningId, r.recordId, Text.Strip(r.meaning)] + rest;
    assert Parts(r) == parts && parts[1..] == [parts[1], parts[2]] + rest;
    assert ([parts[1], parts[2]] + rest)[1..] == [parts[2]] + rest && ([parts[2]] + rest)[1..] == rest;
    assert rest[1..] == [rest[1]];
    assert Joined(rest) == rest[0] + "|" + rest[1];
    assert Joined([parts[2]] + rest) == parts[2] + "|" + (rest[0] + "|" + rest[1]);
    assert Joined([parts[1], parts[2]] + rest) == parts[1] + "|" + (parts[2] + "|" + (rest[0] + "|" + rest[1]));
    assert Joined(parts) == parts[0] + "|" + (parts[1] + "|" + (parts[2] + "|" + (rest[0] + "|" + rest[1])));
  }

  // ---------------------------------------------------------------------
  // Cutting a text at a revision
  // ---------------------------------------------------------------------

  /** After `before`, the text holds a revision between two bars. */
  predicate RevisionAfter(text: string, before: string, e: Option<int>) {
    before + "|" + RevisionText(e) + "|" <= text
  }

  function RestAfter(text: string, before: string, e: Option<int>): (rest: string)
    requires RevisionAfter(text, before, e)
    ensures text == before + "|" + RevisionText(e) + "|" + rest
  {
    text[|before| + |RevisionText(e)| + 2..]
  }

  /** The bars of `p|r|s` around `r`. */
  lemma BarsAround(p: string, r: string, s: string)
    ensures var text := p + "|" + r + "|" + s;
            && text[|p|] == '|' && text[|p| + 1 + |r|] == '|'
            && (forall k :: |p| < k < |p| + 1 + |r| ==> text[k] == r[k - |p| - 1])
            && text[..|p|] == p && text[..|p| + 1] == p + "|" && text[..|p| + 1 + |r|] == p + "|" + r
            && text[|p| + 1 + |r|..] == "|" + s
  {
  }

  lemma PrefixOfTake(a: string, text: string, n: nat)
    requires a <= text && |a| <= n <= |text|
    ensures a <= text[..n]
  {
    assert a == text[..|a|] == text[..n][..|a|];
  }

  /** What a cut says of the characters. */
  lemma CutMeans(text: string, p: string, e: Option<int>)
    requires RevisionAfter(text, p, e)
    ensures var r := RevisionText(e);
            && |p| + 1 + |r| < |text| && text[|p|] == '|' && text[|p| + 1 + |r|] == '|' && p <= text
            && forall k :: |p| < k < |p| + 1 + |r| ==> text[k] != '|'
  {
    RevisionIsPlain(e);
    hide RevisionText;
    BarsAround(p, RevisionText(e), RestAfter(text, p, e));
  }

  lemma LaterCut(text: string, q: string, s: string, p: string, e: Option<int>)
    requires text == q + "|" + s && |q| <= |p| && p <= text
    ensures q <= p && (RevisionAfter(text, p, e) <==> RevisionAfter("|" + s, p[|q|..], e))
  {
    hide RevisionText;
    var bars := "|" + RevisionText(e) + "|";
    assert q == text[..|q|] == p[..|q|];
    assert p == q + p[|q|..];
    assert text == q + ("|" + s);
    assert p + "|" + RevisionText(e) + "|" == q + (p[|q|..] + "|" + RevisionText(e) + "|");
    PrefixesShift(q, p[|q|..] + "|" + RevisionText(e) + "|", "|" + s);
  }

  lemma PrefixesShift(q: string, a: string, b: string)
    ensures q + a <= q + b <==> a <= b
  {
    assert forall k :: 0 <= k < |a| ==> (q + a)[|q| + k] == a[k];
    assert forall k :: 0 <= k < |b| ==> (q + b)[|q| + k] == b[k];
    if q + a <= q + b { assert a == b[..|a|]; }
  }

  /** A text cut at one revision can be cut at that revision, at one before it, or at one after it. */
  lemma CutsExactly(p: string, e: Option<int>, s: string, p': string, e': Option<int>)
    ensures var q := p + "|" + RevisionText(e);
            RevisionAfter(q + "|" + s, p', e')
            <==> || (p' == p && RevisionText(e') == RevisionText(e))
                 || RevisionAfter(p + "|", p', e')
                 || (q <= p' && RevisionAfter("|" + s, p'[|q|..], e'))
  {
    var q := p + "|" + RevisionText(e);
    var text := q + "|" + s;
    if RevisionAfter(text, p', e') {
      CutIsOneOfThree(p, e, s, p', e');
    } else if q <= p' && RevisionAfter("|" + s, p'[|q|..], e') {
      LaterCutHolds(q, s, p', e');
    }
  }

  lemma LaterCutHolds(q: string, s: string, p: string, e: Option<int>)
    requires q <= p && RevisionAfter("|" + s, p[|q|..], e)
    ensures RevisionAfter(q + "|" + s, p, e)
  {
    hide RevisionText;
    assert p == q + p[|q|..];
    assert q + "|" + s == q + ("|" + s);
    assert p + "|" + RevisionText(e) + "|" == q + (p[|q|..] + "|" + RevisionText(e) + "|");
    PrefixesShift(q, p[|q|..] + "|" + RevisionText(e) + "|", "|" + s);
  }

  lemma CutIsOneOfThree(p: string, e: Option<int>, s: string, p': string, e': Option<int>)
    requires RevisionAfter(p + "|" + RevisionText(e) + "|" + s, p', e')
    ensures var q := p + "|" + RevisionText(e);
            || (p' == p && RevisionText(e') == RevisionText(e))
            || RevisionAfter(p + "|", p', e')
            || (q <= p' && RevisionAfter("|" + s, p'[|q|..], e'))
  {
    var r, r' := RevisionText(e), RevisionText(e');
    var text := p + "|" + r + "|" + s;
    RevisionIsPlain(e);
    CutMeans(text, p', e');
    BarsAround(p, r, s);
    hide RevisionText;
    if |p'| == |p| {
      assert |r'| == |r|;
      assert r == text[|p| + 1..|p| + 1 + |r|] && r' == text[|p| + 1..|p| + 1 + |r|];
    } else if |p'| < |p| {
      PrefixOfTake(p' + "|" + r' + "|", text, |p| + 1);
    } else {
      LaterCut(text, p + "|" + r, s, p', e');
    }
  }

  // ---------------------------------------------------------------------
  // A start against the other kinds
  // ---------------------------------------------------------------------

  /** A confirmation or correction shares its joined text with some start exactly when that text neither begins
      nor ends with white space. */
  lemma StartsCollideExactly(r: Request)
    requires r.ConfirmRequest? || r.CorrectRequest?
    ensures (exists a: Request :: a.StartRequest? && !Empty(a) && Joined(Parts(a)) == Joined(Parts(r)))
            <==> Text.Strip(Joined(Parts(r))) == Joined(Parts(r))
  {
    var text := Joined(Parts(r));
    assert text != "" by {
      if r.ConfirmRequest? { JoinedConfirmation(r); } else { JoinedCorrection(r); }
    }
    hide Text.Strip, Joined;
    forall a: Request | a.StartRequest? ensures Joined(Parts(a)) == Text.Strip(a.text) {
      StartText(a);
    }
    if a: Request :| a.StartRequest? && Joined(Parts(a)) == text { StripIsStripped(a.text); }
    var a := StartRequest(text, None);
    assert Joined(Parts(a)) == Text.Strip(text);
  }

  lemma StartText(a: Request)
    requires a.StartRequest?
    ensures Joined(Parts(a)) == Text.Strip(a.text)
  {
    hide Text.Strip;
  }

  /** An input: a situation that reads like the parts of a confirmation has the digest of that confirmation. */
  lemma KindIsNotInTheDigest(hash: Hash, id: string, op: Option<string>)
    requires Text.Strip(id + "|None|") == id + "|None|"
    ensures DigestOf(hash, StartRequest(id + "|None|", op)) == DigestOf(hash, ConfirmRequest(id, None, op, ""))
  {
    hide Text.Strip;
    JoinedConfirmation(ConfirmRequest(id, None, op, ""));
    assert id + "|" + "None" + "|" + "" == id + "|None|";
  }

  // ---------------------------------------------------------------------
  // Confirmations among themselves
  // ---------------------------------------------------------------------

  /** Another confirmation with the joined text of this one. */
  predicate ConfirmedAlike(a: Request, b: Request) {
    b.ConfirmRequest? && Parts(b) != Parts(a) && Joined(Parts(b)) == Joined(Parts(a))
  }

  /** The confirmation that a cut of a text spells. */
  lemma ConfirmationAtCut(text: string, p: string, e: Option<int>) returns (b: Request)
    requires RevisionAfter(text, p, e)
    ensures b.ConfirmRequest? && b.reckoningId == p && b.expected == e && Joined(Parts(b)) == text
  {
    hide RevisionText, Joined;
    b := ConfirmRequest(p, e, None, RestAfter(text, p, e));
    JoinedConfirmation(b);
  }

  lemma CutOfConfirmation(b: Request)
    requires b.ConfirmRequest?
    ensures RevisionAfter(Joined(Parts(b)), b.reckoningId, b.expected)
    ensures RestAfter(Joined(Parts(b)), b.reckoningId, b.expected) == b.submission
  {
    hide RevisionText, Joined;
    JoinedConfirmation(b);
  }

  /** A confirmation shares its joined text with another one exactly when its decision id, or its submission,
      holds a revision between bars, the bar at its own side of the revision included. */
  lemma ConfirmationsCollideExactly(a: Request)
    requires a.ConfirmRequest?
    ensures (exists b :: ConfirmedAlike(a, b))
            <==> || (exists x, e :: RevisionAfter(a.reckoningId + "|", x, e))
                 || (exists x, e :: RevisionAfter("|" + a.submission, x, e))
  {
    hide RevisionText, Joined, RevisionAfter;
    var text, id, r := Joined(Parts(a)), a.reckoningId, RevisionText(a.expected);
    JoinedConfirmation(a);
    if b :| ConfirmedAlike(a, b) {
      CutOfConfirmation(a);
      CutOfConfirmation(b);
      CutsExactly(id, a.expected, a.submission, b.reckoningId, b.expected);
    }
    if x, e :| RevisionAfter(id + "|", x, e) {
      CutsExactly(id, a.expected, a.submission, x, e);
      CutIsShorter(id, x, e);
      var b := ConfirmationAtCut(text, x, e);
      assert Parts(b)[0] == x;
      assert ConfirmedAlike(a, b);
    }
    if x, e :| RevisionAfter("|" + a.submission, x, e) {
      var q := id + "|" + r;
      assert (q + x)[|q|..] == x;
      CutsExactly(id, a.expected, a.submission, q + x, e);
      var b := ConfirmationAtCut(text, q + x, e);
      assert Parts(b)[0] == q + x;
      assert ConfirmedAlike(a, b);
    }
  }

  lemma CutIsShorter(id: string, x: string, e: Option<int>)
    requires RevisionAfter(id + "|", x, e)
    ensures |x| < |id|
  {
    RevisionIsPlain(e);
    hide RevisionText;
  }

  // ---------------------------------------------------------------------
  // Corrections
  // ---------------------------------------------------------------------

  /** A meaning as it stands in the parts: stripped, and not empty. */
  predicate Meaning(m: string) { m != "" && Text.Strip(m) == m }

  predicate SplitsAs(text: string, id: string, recordId: string, m: string) {
    Meaning(m) && text == Head(id, recordId, m)
  }

  /** The text can be read as decision, record and meaning. */
  ghost predicate IsHead(text: string) { exists id, recordId, m :: SplitsAs(text, id, recordId, m) }

  lemma CutOfCorrection(b: Request)
    requires b.CorrectRequest? && !Empty(b)
    ensures var head := Head(b.reckoningId, b.recordId, Text.Strip(b.meaning));
            && SplitsAs(head, b.reckoningId, b.recordId, Text.Strip(b.meaning))
            && RevisionAfter(Joined(Parts(b)), head, b.expected)
            && RestAfter(Joined(Parts(b)), head, b.expected) == b.submission
  {
    hide RevisionText, Joined, Text.Strip;
    JoinedCorrection(b);
    StripIsStripped(b.meaning);
  }

  /** The correction that a cut of a text behind a head spells. */
  lemma CorrectionAtCut(text: string, p: string, e: Option<int>, id: string, recordId: string, m: string)
    returns (b: Request)
    requires RevisionAfter(text, p, e) && SplitsAs(p, id, recordId, m)
    ensures b.CorrectRequest? && !Empty(b) && Joined(Parts(b)) == text
    ensures b.reckoningId == id && b.recordId == recordId && Text.Strip(b.meaning) == m && b.expected == e
    ensures b.submission == RestAfter(text, p, e)
  {
    hide RevisionText, Joined, Text.Strip;
    b := CorrectRequest(id, recordId, m, e, None, RestAfter(text, p, e));
    JoinedCorrection(b);
  }

  /** Every correction has the joined text of a confirmation: its decision, record and meaning read as one id. */
  lemma EveryCorrectionReadsAsAConfirmation(a: Request)
    requires a.CorrectRequest?
    ensures var id := Head(a.reckoningId, a.recordId, Text.Strip(a.meaning));
            Joined(Parts(ConfirmRequest(id, a.expected, None, a.submission))) == Joined(Parts(a))
  {
    hide RevisionText, Text.Strip, Joined;
    JoinedCorrection(a);
    JoinedConfirmation(ConfirmRequest(Head(a.reckoningId, a.recordId, Text.Strip(a.meaning)), a.expected, None,
                                      a.submission));
  }

  predicate CorrectedAlike(text: string, b: Request) {
    b.CorrectRequest? && !Empty(b) && Joined(Parts(b)) == text
  }

  /** What stands before some revision of the text can be read as decision, record and meaning. */
  ghost predicate HeadBeforeRevision(text: string) { exists p, e :: RevisionAfter(text, p, e) && IsHead(p) }

  /** A text is that of some correction exactly when it has a revision behind a head. */
  lemma CorrectionTextsExactly(text: string)
    ensures (exists b :: CorrectedAlike(text, b)) <==> HeadBeforeRevision(text)
  {
    hide RevisionText, Joined, RevisionAfter, SplitsAs, Empty;
    if b :| CorrectedAlike(text, b) { CutOfCorrection(b); }
    if p, e :| RevisionAfter(text, p, e) && IsHead(p) { CorrectionAtHead(text, p, e); }
  }

  /** A confirmation has the joined text of some correction exactly when what stands before its revision, or
      before another one that its id or submission holds, can be read as decision, record and meaning. */
  lemma ConfirmationReadsAsACorrectionExactly(a: Request)
    requires a.ConfirmRequest?
    ensures var id, r := a.reckoningId, RevisionText(a.expected);
            (exists b :: CorrectedAlike(Joined(Parts(a)), b))
            <==> || IsHead(id)
                 || (exists x, e :: RevisionAfter(id + "|", x, e) && IsHead(x))
                 || (exists x, e :: RevisionAfter("|" + a.submission, x, e) && IsHead(id + "|" + r + x))
  {
    hide RevisionText, Joined, RevisionAfter, IsHead, CorrectedAlike;
    JoinedConfirmation(a);
    CorrectionTextsExactly(Joined(Parts(a)));
    HeadsOfCuts(a.reckoningId, a.expected, a.submission);
  }

  lemma HeadsOfCuts(id: string, e0: Option<int>, s: string)
    ensures var q := id + "|" + RevisionText(e0);
            HeadBeforeRevision(q + "|" + s)
            <==> || IsHead(id)
                 || (exists x, e :: RevisionAfter(id + "|", x, e) && IsHead(x))
                 || (exists x, e :: RevisionAfter("|" + s, x, e) && IsHead(q + x))
  {
    hide RevisionText, RevisionAfter, IsHead;
    var q := id + "|" + RevisionText(e0);
    var text := q + "|" + s;
    if p, e :| RevisionAfter(text, p, e) && IsHead(p) {
      CutsExactly(id, e0, s, p, e);
      assert q <= p ==> p == q + p[|q|..];
    }
    CutsExactly(id, e0, s, id, e0);
    if x, e :| RevisionAfter(id + "|", x, e) && IsHead(x) { CutsExactly(id, e0, s, x, e); }
    if x, e :| RevisionAfter("|" + s, x, e) && IsHead(q + x) {
      assert (q + x)[|q|..] == x && q <= q + x;
      CutsExactly(id, e0, s, q + x, e);
    }
  }

  lemma CorrectionAtHead(text: string, p: string, e: Option<int>)
    requires RevisionAfter(text, p, e) && IsHead(p)
    ensures exists b :: CorrectedAlike(text, b)
  {
    hide RevisionText, Joined, SplitsAs, RevisionAfter;
    var id, recordId, m :| SplitsAs(p, id, recordId, m);
    var b := CorrectionAtCut(text, p, e, id, recordId, m);
    assert CorrectedAlike(text, b);
  }

  // ---------------------------------------------------------------------
  // Corrections among themselves
  // ---------------------------------------------------------------------

  /** The meaning goes on, behind its bar at `k`, with something that is a meaning as well. */
  predicate MeaningAfterBar(m: string, k: int) {
    0 <= k < |m| - 1 && m[k] == '|' && !Text.IsSpace(m[k + 1])
  }

  /** The first two bars of a head whose decision and record hold none, and where another head that reads
      the same as far as it goes has its own. */
  lemma HeadBars(id: string, recordId: string, m: string)
    ensures var head := Head(id, recordId, m);
            var b := |id| + 1 + |recordId|;
            && |head| == b + 1 + |m| && head[|id|] == '|' && head[b] == '|'
            && (forall k :: 0 <= k < |id| ==> head[k] == id[k])
            && (forall k :: |id| < k < b ==> head[k] == recordId[k - |id| - 1])
            && (forall k :: b < k < |head| ==> head[k] == m[k - b - 1])
            && head[..|id|] == id && head[|id| + 1..b] == recordId && head[b + 1..] == m
  {
  }

  /** Two heads, the one a prefix of the other or longer, of which the first holds no bar in decision and record:
      the bars of the second are not before those of the first. */
  lemma BarsNotBefore(id: string, recordId: string, m: string, id': string, recordId': string, m': string, n: nat)
    requires '|' !in id && '|' !in recordId
    requires var a, b := Head(id, recordId, m), Head(id', recordId', m');
             n <= |a| && n <= |b| && a[..n] == b[..n]
    requires |id'| + 1 + |recordId'| < n
    ensures |id'| >= |id| && |id'| + 1 + |recordId'| >= |id| + 1 + |recordId|
    ensures |id'| + 1 + |recordId'| == |id| + 1 + |recordId| ==> id' == id && recordId' == recordId
  {
    var a, b := Head(id, recordId, m), Head(id', recordId', m');
    HeadBars(id, recordId, m);
    HeadBars(id', recordId', m');
    hide Head;
    assert forall k :: 0 <= k < n ==> a[k] == a[..n][k] == b[..n][k] == b[k];
    assert a[|id'|] == '|' && a[|id'| + 1 + |recordId'|] == '|';
    if |id'| + 1 + |recordId'| == |id| + 1 + |recordId| {
      assert |id'| == |id|;
      assert id' == id && recordId' == recordId by {
        assert forall k :: 0 <= k < |id| ==> id'[k] == b[k] == a[k] == id[k];
        assert forall k :: 0 <= k < |recordId| ==> recordId'[k] == b[|id| + 1 + k] == a[|id| + 1 + k] == recordId[k];
      }
    }
  }

  predicate EndsPlainly(x: string) { x == "" || !Text.IsSpace(x[|x| - 1]) }

  /** Another correction with the joined text of this one. */
  predicate OtherCorrection(a: Request, b: Request) {
    CorrectedAlike(Joined(Parts(a)), b) && Parts(b) != Parts(a)
  }

  ghost predicate AmbiguousCorrection(a: Request)
    requires a.CorrectRequest?
  {
    || '|' in a.reckoningId || '|' in a.recordId
    || (exists k :: MeaningAfterBar(Text.Strip(a.meaning), k))
    || (exists x, e :: RevisionAfter("|" + a.submission, x, e) && EndsPlainly(x))
  }

  /** A correction shares its joined text with another one exactly when its decision or record id holds a bar,
      its meaning goes on behind a bar with something other than white space, or its submission holds a revision
      between bars, directly at its start or not behind white space. */
  lemma CorrectionsCollideExactly(a: Request)
    requires a.CorrectRequest? && !Empty(a)
    ensures (exists b :: OtherCorrection(a, b)) <==> AmbiguousCorrection(a)
  {
    hide Joined, RevisionText, Text.Strip, RevisionAfter, Empty, MeaningAfterBar, CorrectedAlike;
    if b :| OtherCorrection(a, b) {
      if '|' !in a.reckoningId && '|' !in a.recordId { OtherCorrectionMeans(a, b); }
    }
    if '|' in a.reckoningId || '|' in a.recordId { BarInAnId(a); }
    if k :| MeaningAfterBar(Text.Strip(a.meaning), k) { BarInTheMeaning(a, k); }
    if x, e :| RevisionAfter("|" + a.submission, x, e) && EndsPlainly(x) { RevisionInTheSubmission(a, x, e); }
  }

  lemma MeaningEnds(m: string)
    requires m != ""
    ensures Meaning(m) <==> !Text.IsSpace(m[0]) && !Text.IsSpace(m[|m| - 1])
  {
    StripFixed(m);
  }

  // --- where another correction puts its revision ---

  /** At the same place: then it splits the same head later. */
  lemma SameHeadSplitLater(id: string, recordId: string, m: string, id': string, recordId': string, m': string)
    requires '|' !in id && '|' !in recordId && Meaning(m) && Meaning(m')
    requires Head(id', recordId', m') == Head(id, recordId, m) && (id', recordId', m') != (id, recordId, m)
    ensures exists k :: MeaningAfterBar(m, k)
  {
    MeaningEnds(m');
    hide Text.Strip, Meaning;
    var head := Head(id, recordId, m);
    HeadLength(id, recordId, m);
    HeadLength(id', recordId', m');
    BarsNotBefore(id, recordId, m, id', recordId', m', |head|);
    var b, b' := |id| + 1 + |recordId|, |id'| + 1 + |recordId'|;
    assert b' != b by {
      HeadBars(id, recordId, m);
      HeadBars(id', recordId', m');
    }
    BarOfOther(id, recordId, m, id', recordId', m', |head|);
    assert MeaningAfterBar(m, b' - b - 1);
  }

  lemma HeadLength(id: string, recordId: string, m: string)
    ensures |Head(id, recordId, m)| == |id| + 1 + |recordId| + 1 + |m|
  {
  }

  /** The bar before the second meaning, and what follows it, seen in the first. */
  lemma BarOfOther(id: string, recordId: string, m: string, id': string, recordId': string, m': string, n: nat)
    requires var a, b := Head(id, recordId, m), Head(id', recordId', m');
             n <= |a| && n <= |b| && a[..n] == b[..n]
    requires |id| + 1 + |recordId| < |id'| + 1 + |recordId'| && |id'| + 1 + |recordId'| + 1 < n
    ensures var k := |id'| + 1 + |recordId'| - (|id| + 1 + |recordId|) - 1;
            0 <= k && k + 1 < |m| && m[k] == '|' && m' != "" && m[k + 1] == m'[0]
  {
    var a, b := Head(id, recordId, m), Head(id', recordId', m');
    HeadBars(id, recordId, m);
    HeadBars(id', recordId', m');
    hide Head;
    var i := |id'| + 1 + |recordId'|;
    assert a[i] == a[..n][i] == b[..n][i] == b[i];
    assert a[i + 1] == a[..n][i + 1] == b[..n][i + 1] == b[i + 1];
  }

  /** Before it: then the meaning holds it. */
  lemma EarlierRevisionIsInTheMeaning(id: string, recordId: string, m: string,
                                      id': string, recordId': string, m': string, e: Option<int>)
    requires '|' !in id && '|' !in recordId && m' != ""
    requires RevisionAfter(Head(id, recordId, m) + "|", Head(id', recordId', m'), e)
    ensures exists k :: MeaningAfterBar(m, k)
  {
    var head, head' := Head(id, recordId, m), Head(id', recordId', m');
    RevisionIsPlain(e);
    var r := RevisionText(e);
    hide RevisionText;
    BarsAround(head', r, RestAfter(head + "|", head', e));
    HeadBars(id, recordId, m);
    HeadBars(id', recordId', m');
    var n := |head'|;
    assert head[..n] == (head + "|")[..n] == head'[..n];
    BarsNotBefore(id, recordId, m, id', recordId', m', n);
    hide Head;
    var b := |id| + 1 + |recordId|;
    assert head[n] == (head + "|")[n] == '|' && head[n + 1] == (head + "|")[n + 1] == r[0];
    assert MeaningAfterBar(m, n - b - 1);
  }

  /** After it: then the submission holds it, not behind white space. */
  lemma LaterRevisionEndsPlainly(q: string, id': string, recordId': string, m': string)
    requires Meaning(m') && q <= Head(id', recordId', m')
    ensures EndsPlainly(Head(id', recordId', m')[|q|..])
  {
    MeaningEnds(m');
    hide Text.Strip;
  }

  lemma OtherCorrectionMeans(a: Request, b: Request)
    requires a.CorrectRequest? && !Empty(a) && '|' !in a.reckoningId && '|' !in a.recordId
    requires OtherCorrection(a, b)
    ensures AmbiguousCorrection(a)
  {
    hide Joined, RevisionText, Text.Strip, RevisionAfter, MeaningAfterBar, Head, Meaning;
    var m, m' := Text.Strip(a.meaning), Text.Strip(b.meaning);
    var head, head' := Head(a.reckoningId, a.recordId, m), Head(b.reckoningId, b.recordId, m');
    var q := head + "|" + RevisionText(a.expected);
    CutOfBoth(a, b);
    if head' == head && RevisionText(b.expected) == RevisionText(a.expected) {
      DifferentHeads(a, b);
      SameHeadSplitLater(a.reckoningId, a.recordId, m, b.reckoningId, b.recordId, m');
    } else if RevisionAfter(head + "|", head', b.expected) {
      EarlierRevisionIsInTheMeaning(a.reckoningId, a.recordId, m, b.reckoningId, b.recordId, m', b.expected);
    } else {
      LaterRevisionEndsPlainly(q, b.reckoningId, b.recordId, m');
    }
  }

  lemma CutOfBoth(a: Request, b: Request)
    requires a.CorrectRequest? && !Empty(a) && OtherCorrection(a, b)
    ensures var m, m' := Text.Strip(a.meaning), Text.Strip(b.meaning);
            var head, head' := Head(a.reckoningId, a.recordId, m), Head(b.reckoningId, b.recordId, m');
            var q := head + "|" + RevisionText(a.expected);
            && Meaning(m) && Meaning(m')
            && ((head' == head && RevisionText(b.expected) == RevisionText(a.expected))
                || RevisionAfter(head + "|", head', b.expected)
                || (q <= head' && RevisionAfter("|" + a.submission, head'[|q|..], b.expected)))
  {
    var m, m' := Text.Strip(a.meaning), Text.Strip(b.meaning);
    CutOfCorrection(a);
    CutOfCorrection(b);
    JoinedCorrection(a);
    hide Joined, RevisionText, Text.Strip, RevisionAfter, Empty, Head, Meaning, Parts;
    CutsExactly(Head(a.reckoningId, a.recordId, m), a.expected, a.submission,
                Head(b.reckoningId, b.recordId, m'), b.expected);
  }

  /** One head and one revision leave one submission, so that the difference is in the head. */
  lemma DifferentHeads(a: Request, b: Request)
    requires a.CorrectRequest? && !Empty(a) && OtherCorrection(a, b)
    requires Head(b.reckoningId, b.recordId, Text.Strip(b.meaning))
          == Head(a.reckoningId, a.recordId, Text.Strip(a.meaning))
    requires RevisionText(b.expected) == RevisionText(a.expected)
    ensures (b.reckoningId, b.recordId, Text.Strip(b.meaning)) != (a.reckoningId, a.recordId, Text.Strip(a.meaning))
  {
    CutOfCorrection(a);
    CutOfCorrection(b);
    SameRest(Joined(Parts(a)), Head(a.reckoningId, a.recordId, Text.Strip(a.meaning)), a.expected, b.expected);
    hide Joined, RevisionText, Text.Strip, RevisionAfter, Empty, Head, Meaning;
    assert a.submission == b.submission;
  }

  lemma SameRest(text: string, p: string, e: Option<int>, e': Option<int>)
    requires RevisionAfter(text, p, e) && RevisionAfter(text, p, e') && RevisionText(e) == RevisionText(e')
    ensures RestAfter(text, p, e) == RestAfter(text, p, e')
  {
    hide RevisionText;
  }

  // --- the other corrections there are ---

  lemma SplitAt(text: string, k: nat)
    requires k < |text| && text[k] == '|'
    ensures text == text[..k] + "|" + text[k + 1..]
  {
  }

  lemma HeadShifts(x: string, y: string, z: string, w: string)
    ensures Head(x + "|" + y, z, w) == Head(x, y + "|" + z, w)
    ensures Head(x, y, z + "|" + w) == Head(x, y + "|" + z, w)
  {
    assert x + "|" + y + "|" + z == x + "|" + (y + "|" + z);
    assert x + "|" + y + "|" + (z + "|" + w) == x + "|" + (y + "|" + z) + "|" + w;
  }

  lemma DifferentFields(a: Request, b: Request)
    requires a.CorrectRequest? && b.CorrectRequest?
    requires a.reckoningId != b.reckoningId || a.recordId != b.recordId
             || Text.Strip(a.meaning) != Text.Strip(b.meaning)
    ensures Parts(a) != Parts(b)
  {
    hide RevisionText, Text.Strip;
    assert Parts(a)[0] == a.reckoningId && Parts(a)[1] == a.recordId && Parts(a)[2] == Text.Strip(a.meaning);
    assert Parts(b)[0] == b.reckoningId && Parts(b)[1] == b.recordId && Parts(b)[2] == Text.Strip(b.meaning);
  }

  /** Any other reading of the text, cut at some revision behind some head, is another correction. */
  lemma OtherAtCut(a: Request, p: string, e: Option<int>, id: string, recordId: string, m: string)
    requires a.CorrectRequest? && RevisionAfter(Joined(Parts(a)), p, e) && SplitsAs(p, id, recordId, m)
    requires id != a.reckoningId || recordId != a.recordId || m != Text.Strip(a.meaning)
    ensures exists b :: OtherCorrection(a, b)
  {
    hide Joined, RevisionText, Text.Strip, RevisionAfter, Empty, SplitsAs, Parts;
    var b := CorrectionAtCut(Joined(Parts(a)), p, e, id, recordId, m);
    DifferentFields(a, b);
    assert OtherCorrection(a, b);
  }

  lemma BarInAnId(a: Request)
    requires a.CorrectRequest? && !Empty(a) && ('|' in a.reckoningId || '|' in a.recordId)
    ensures exists b :: OtherCorrection(a, b)
  {
    var m := Text.Strip(a.meaning);
    var head := Head(a.reckoningId, a.recordId, m);
    CutOfCorrection(a);
    hide Joined, RevisionText, Text.Strip, RevisionAfter, Empty, Head, Meaning, Parts, OtherCorrection;
    if k :| 0 <= k < |a.reckoningId| && a.reckoningId[k] == '|' {
      var x, y := a.reckoningId[..k], a.reckoningId[k + 1..];
      SplitAt(a.reckoningId, k);
      HeadShifts(x, y, a.recordId, m);
      assert |x| < |a.reckoningId|;
      OtherAtCut(a, head, a.expected, x, y + "|" + a.recordId, m);
    } else {
      var k :| 0 <= k < |a.recordId| && a.recordId[k] == '|';
      var x, y := a.recordId[..k], a.recordId[k + 1..];
      SplitAt(a.recordId, k);
      HeadShifts(a.reckoningId, x, y, m);
      assert |y| < |a.recordId|;
      OtherAtCut(a, head, a.expected, a.reckoningId + "|" + x, y, m);
    }
  }

  lemma BarInTheMeaning(a: Request, k: int)
    requires a.CorrectRequest? && !Empty(a) && MeaningAfterBar(Text.Strip(a.meaning), k)
    ensures exists b :: OtherCorrection(a, b)
  {
    var m := Text.Strip(a.meaning);
    var head := Head(a.reckoningId, a.recordId, m);
    CutOfCorrection(a);
    var x, y := m[..k], m[k + 1..];
    MeaningEnds(m);
    MeaningEnds(y);
    hide Joined, RevisionText, Text.Strip, RevisionAfter, Empty, Head, Meaning, Parts, OtherCorrection;
    SplitAt(m, k);
    HeadShifts(a.reckoningId, a.recordId, x, y);
    assert |y| < |m|;
    OtherAtCut(a, head, a.expected, a.reckoningId, a.recordId + "|" + x, y);
  }

  lemma RevisionInTheSubmission(a: Request, x: string, e: Option<int>)
    requires a.CorrectRequest? && !Empty(a) && RevisionAfter("|" + a.submission, x, e) && EndsPlainly(x)
    ensures exists b :: OtherCorrection(a, b)
  {
    var m, r := Text.Strip(a.meaning), RevisionText(a.expected);
    var head := Head(a.reckoningId, a.recordId, m);
    CutOfCorrection(a);
    JoinedCorrection(a);
    LongerMeaning(m, a.expected, x);
    hide Joined, RevisionText, Text.Strip, RevisionAfter, Empty, Meaning, Parts, OtherCorrection, Head;
    var q := head + "|" + r;
    assert (q + x)[|q|..] == x && q <= q + x;
    CutsExactly(head, a.expected, a.submission, q + x, e);
    LongerHead(a.reckoningId, a.recordId, m, r, x);
    var longer := m + "|" + r + x;
    assert |longer| > |m|;
    OtherAtCut(a, q + x, e, a.reckoningId, a.recordId, longer);
  }

  lemma LongerMeaning(m: string, e: Option<int>, x: string)
    requires Meaning(m) && EndsPlainly(x)
    ensures Meaning(m + "|" + RevisionText(e) + x)
  {
    RevisionIsPlain(e);
    MeaningEnds(m);
    hide RevisionText, Text.Strip;
    MeaningEnds(m + "|" + RevisionText(e) + x);
  }

  lemma LongerHead(id: string, recordId: string, m: string, r: string, x: string)
    ensures Head(id, recordId, m) + "|" + r + x == Head(id, recordId, m + "|" + r + x)
  {
  }

  /** An input: two different corrections with one digest, whatever the hash; the second, sent under the operation
      id of the first, is taken for a replay of it. */
  lemma DifferentCorrectionsShareADigest(hash: Hash, a: Request, b: Request)
    requires a == CorrectRequest("d", "r|s", "m", None, Some("op"), "")
    requires b == CorrectRequest("d|r", "s", "m", None, Some("op"), "")
    ensures OpOf(a) == OpOf(b) && DigestOf(hash, a) == DigestOf(hash, b)
  {
    hide Text.Strip, Joined, RevisionText, Head;
    JoinedCorrection(a);
    JoinedCorrection(b);
    HeadShifts("d", "r", "s", Text.Strip("m"));
    assert "d" + "|" + "r" == "d|r" && "r" + "|" + "s" == "r|s";
  }
}
