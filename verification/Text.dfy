/** The string operations of Python that the modelled code relies on. */
module Text {

  /** `str.isspace` on one character. */
  predicate IsSpace(c: char) {
    var n := c as int;
    || 0x09 <= n <= 0x0d || 0x1c <= n <= 0x20 || n == 0x85 || n == 0xa0 || n == 0x1680
    || 0x2000 <= n <= 0x200a || n == 0x2028 || n == 0x2029 || n == 0x202f || n == 0x205f || n == 0x3000
  }

  /** The characters one by one. */
  const SPACES :=
    "\U{9}\U{a}\U{b}\U{c}\U{d}\U{1c}\U{1d}\U{1e}\U{1f}\U{20}\U{85}\U{a0}\U{1680}\U{2000}\U{2001}\U{2002}\U{2003}"
    + "\U{2004}\U{2005}\U{2006}\U{2007}\U{2008}\U{2009}\U{200a}\U{2028}\U{2029}\U{202f}\U{205f}\U{3000}"

  lemma SpacesExactly(c: char)
    ensures IsSpace(c) <==> c in SPACES
  {
    assert forall i :: 0 <= i < |SPACES| ==> IsSpace(SPACES[i]);
    if IsSpace(c) { SpaceIsListed(c); }
  }

  lemma SpaceIsListed(c: char)
    requires IsSpace(c)
    ensures c in SPACES
  {
    var n := c as int;
    var i := if n <= 0x0d then n - 9 else if n <= 0x20 then n - 0x1c + 5 else if n == 0x85 then 10
             else if n == 0xa0 then 11 else if n == 0x1680 then 12 else if n <= 0x200a then n - 0x2000 + 13
             else if n <= 0x2029 then n - 0x2028 + 24 else if n == 0x202f then 26 else if n == 0x205f then 27 else 28;
    assert |SPACES| == 29;
    assert SPACES[i] == c;
  }

  /** `text.lstrip()` */
  function LeftStrip(text: string): (r: string)
    ensures |r| <= |text| && text[|text| - |r|..] == r
    ensures forall i :: 0 <= i < |text| - |r| ==> IsSpace(text[i])
    ensures r != [] ==> !IsSpace(r[0])
  {
    if text != [] && IsSpace(text[0]) then LeftStrip(text[1..]) else text
  }

  /** `not text.strip()` */
  predicate Blank(text: string) { forall c :: c in text ==> IsSpace(c) }

  /** `text.strip()` */
  function Strip(text: string): (r: string)
    ensures r == "" <==> Blank(text)
  {
    var left := LeftStrip(text);
    RightStrip(left)
  }

  function RightStrip(text: string): (r: string)
    ensures r <= text && forall i :: |r| <= i < |text| ==> IsSpace(text[i])
    ensures r != [] ==> !IsSpace(r[|r| - 1])
  {
    if text != [] && IsSpace(text[|text| - 1]) then RightStrip(text[..|text| - 1]) else text
  }

  /** `kept` is the text without the white space around it. */
  ghost predicate Trims(kept: string, text: string) {
    && (exists before, after :: text == before + kept + after && Blank(before) && Blank(after))
    && (kept != "" ==> !IsSpace(kept[0]) && !IsSpace(kept[|kept| - 1]))
  }

  lemma StripTrims(text: string)
    ensures Trims(Strip(text), text)
  {
    hide IsSpace, Trims;
    var left := LeftStrip(text);
    var kept := RightStrip(left);
    TrimsAround(text, left, kept);
  }

  /** There is only one such part of a text. */
  lemma TrimsOnlyThat(kept: string, text: string)
    requires Trims(kept, text)
    ensures kept == Strip(text)
  {
    StripTrims(text);
    var a, b :| text == a + kept + b && Blank(a) && Blank(b);
    var strip := Strip(text);
    var c, d :| text == c + strip + d && Blank(c) && Blank(d);
    hide IsSpace, Strip, Trims;
    SameTrims(a, kept, b, c, strip, d);
  }

  lemma SameTrims(a: string, k: string, b: string, c: string, l: string, d: string)
    requires a + k + b == c + l + d && Blank(a) && Blank(b) && Blank(c) && Blank(d)
    requires k != "" ==> !IsSpace(k[0]) && !IsSpace(k[|k| - 1])
    requires l != "" ==> !IsSpace(l[0]) && !IsSpace(l[|l| - 1])
    ensures k == l
  {
    BlankExactly(a, k, b);
    BlankExactly(c, l, d);
    hide IsSpace;
    var text := a + k + b;
    if k != "" && l != "" {
      assert text[|a|] == k[0] && text[|c|] == l[0];
      assert text[|a| + |k| - 1] == k[|k| - 1] && text[|c| + |l| - 1] == l[|l| - 1];
      assert |a| == |c| && |a| + |k| == |c| + |l|;
      assert k == text[|a|..|a| + |k|] && l == text[|c|..|c| + |l|];
    }
  }

  lemma BlankExactly(a: string, k: string, b: string)
    requires Blank(a) && Blank(b) && (k != "" ==> !IsSpace(k[0]))
    ensures Blank(a + k + b) <==> k == ""
  {
    hide IsSpace;
    if k != "" { assert (a + k + b)[|a|] == k[0]; }
  }

  lemma TrimsAround(text: string, left: string, kept: string)
    requires |left| <= |text| && text[|text| - |left|..] == left && kept <= left
    requires forall i :: 0 <= i < |text| - |left| ==> IsSpace(text[i])
    requires forall i :: |kept| <= i < |left| ==> IsSpace(left[i])
    requires (left != [] ==> !IsSpace(left[0])) && (kept != [] ==> !IsSpace(kept[|kept| - 1]))
    ensures Trims(kept, text)
  {
    hide IsSpace;
    var before, after := text[..|text| - |left|], left[|kept|..];
    assert Blank(before);
    assert Blank(after);
    assert text == before + left;
    assert left == kept + after;
    assert before + (kept + after) == before + kept + after;
  }

  predicate OccursAt(text: string, fragment: string, i: int) {
    0 <= i <= |text| - |fragment| && text[i..i + |fragment|] == fragment
  }

  /** `fragment in text` */
  predicate Contains(text: string, fragment: string) {
    exists i :: 0 <= i <= |text| - |fragment| && OccursAt(text, fragment, i)
  }

  lemma ContainsExactly(text: string, fragment: string)
    ensures Contains(text, fragment) <==> exists before, after :: text == before + fragment + after
  {
    if Contains(text, fragment) {
      var i :| 0 <= i <= |text| - |fragment| && OccursAt(text, fragment, i);
      assert text == text[..i] + fragment + text[i + |fragment|..];
    }
    if before, after :| text == before + fragment + after {
      assert OccursAt(text, fragment, |before|);
    }
  }

  /** `str(n)` */
  function Decimal(n: nat): (r: string)
    ensures r != "" && forall c :: c in r ==> '0' <= c <= '9'
  {
    if n < 10 then ["0123456789"[n]] else Decimal(n / 10) + ["0123456789"[n % 10]]
  }

  /** `int(digits)` */
  function Value(digits: string): int {
    if digits == "" then 0
    else 10 * Value(digits[..|digits| - 1]) + (digits[|digits| - 1] as int - '0' as int)
  }

  /** The digits of a number read as that number, and lead with a zero only for zero itself. */
  lemma {:induction false} DecimalReads(n: nat)
    ensures Value(Decimal(n)) == n && (n != 0 ==> Decimal(n)[0] != '0')
  {
    assert forall i :: 0 <= i < 10 ==> "0123456789"[i] as int == '0' as int + i;
    var r := Decimal(n);
    if n < 10 {
      assert r[..|r| - 1] == "" && Value("") == 0;
    } else {
      DecimalReads(n / 10);
      assert r[..|r| - 1] == Decimal(n / 10);
    }
  }

  lemma DecimalIsInjective(m: nat, n: nat)
    requires Decimal(m) == Decimal(n)
    ensures m == n
  {
    DecimalReads(m);
    DecimalReads(n);
  }
}
