/** The JavaScript string built-ins the application relies on, over strings
    seen as sequences of characters (`char`, a Unicode scalar value). */
module Text {
  import opened Wrappers

  /** `WhiteSpace` or `LineTerminator` in the ECMAScript sense: what
      `String.prototype.trim` removes. */
  predicate IsJsSpace(c: char) {
    // tab, line feed, vertical tab, form feed, carriage return
    ('\U{9}' <= c <= '\U{D}') ||
    // space, no-break space, ogham space mark
    c == ' ' || c == '\U{A0}' || c == '\U{1680}' ||
    // en quad .. hair space
    ('\U{2000}' <= c <= '\U{200A}') ||
    // line separator, paragraph separator
    c == '\U{2028}' || c == '\U{2029}' ||
    // narrow no-break space, medium mathematical space, ideographic space, byte order mark
    c == '\U{202F}' || c == '\U{205F}' || c == '\U{3000}' || c == '\U{FEFF}'
  }

  /** A line terminator: what `.` in a regular expression does not match. */
  predicate IsLineTerminator(c: char) {
    c == '\n' || c == '\r' || c == '\U{2028}' || c == '\U{2029}'
  }

  predicate AllSpace(s: string) {
    forall i :: 0 <= i < |s| ==> IsJsSpace(s[i])
  }

  lemma AllSpaceConcat(a: string, b: string)
    requires AllSpace(a) && AllSpace(b)
    ensures AllSpace(a + b)
  {
    forall i | 0 <= i < |a + b| ensures IsJsSpace((a + b)[i]) {
      if i < |a| { assert (a + b)[i] == a[i]; } else { assert (a + b)[i] == b[i - |a|]; }
    }
  }

  function TrimStart(s: string): (r: string)
    ensures |r| <= |s| && r == s[|s| - |r|..]
    ensures AllSpace(s[..|s| - |r|])
    ensures r == [] || !IsJsSpace(r[0])
  {
    if |s| > 0 && IsJsSpace(s[0]) then
      var r := TrimStart(s[1..]);
      LeadingSpaceStep(s, r);
      r
    else s
  }

  /** A white-space character in front of a suffix preceded only by white
      space gives a longer such prefix. */
  lemma LeadingSpaceStep(s: string, r: string)
    requires |s| > 0 && IsJsSpace(s[0])
    requires |r| <= |s| - 1 && r == s[1..][|s| - 1 - |r|..] && AllSpace(s[1..][..|s| - 1 - |r|])
    ensures r == s[|s| - |r|..] && AllSpace(s[..|s| - |r|])
  {
    var t := s[1..];
    assert t[|t| - |r|..] == s[|s| - |r|..];
    assert s[..|s| - |r|] == [s[0]] + t[..|t| - |r|];
    AllSpaceConcat([s[0]], t[..|t| - |r|]);
  }

  function TrimEnd(s: string): (r: string)
    ensures |r| <= |s| && r == s[..|r|]
    ensures AllSpace(s[|r|..])
    ensures r == [] || !IsJsSpace(r[|r| - 1])
  {
    if |s| > 0 && IsJsSpace(s[|s| - 1]) then
      var t := s[..|s| - 1];
      var r := TrimEnd(t);
      assert r == s[..|r|] by { assert t[..|r|] == s[..|r|]; }
      assert AllSpace(s[|r|..]) by {
        assert s[|r|..] == t[|r|..] + [s[|s| - 1]];
        AllSpaceConcat(t[|r|..], [s[|s| - 1]]);
      }
      r
    else s
  }

  /** `r` is the infix of `s` at `i`, with only white space around it. */
  ghost predicate InfixBetweenSpace(s: string, r: string, i: int) {
    0 <= i <= |s| - |r| && r == s[i..i + |r|] && AllSpace(s[..i]) && AllSpace(s[i + |r|..])
  }

  /** Cutting white space from the end of what remains after cutting it
      from the start leaves an infix with white space on both sides. */
  lemma TrimStartThenEnd(s: string)
    ensures InfixBetweenSpace(s, TrimEnd(TrimStart(s)), |s| - |TrimStart(s)|)
  {
    var t := TrimStart(s);
    var r := TrimEnd(t);
    var i := |s| - |t|;
    assert t == s[i..];
    assert r == t[..|r|];
    assert r == s[i..i + |r|];
    assert s[i + |r|..] == t[|r|..];
    assert AllSpace(s[..i]);
    assert AllSpace(s[i + |r|..]);
    assert InfixBetweenSpace(s, r, i);
  }

  /** `s.trim()`: the longest infix of `s` that neither starts nor ends with
      white space; everything cut off on either side is white space. */
  function Trim(s: string): (r: string)
    ensures exists i :: InfixBetweenSpace(s, r, i)
    ensures r == [] || (!IsJsSpace(r[0]) && !IsJsSpace(r[|r| - 1]))
  {
    TrimStartThenEnd(s);
    TrimEnd(TrimStart(s))
  }

  lemma TrimIdempotent(s: string)
    ensures Trim(Trim(s)) == Trim(s)
  {
    var r := Trim(s);
    if r != [] {
      assert TrimStart(r) == r;
      assert TrimEnd(r) == r;
    }
  }

  /** `s.startsWith(p)`. */
  predicate StartsWith(s: string, p: string) {
    |p| <= |s| && s[..|p|] == p
  }

  predicate OccursAt(s: string, sub: string, i: nat) {
    i + |sub| <= |s| && s[i..i + |sub|] == sub
  }

  /** `s.indexOf(sub)`: the first position at which `sub` occurs. */
  function IndexOf(s: string, sub: string): (r: Option<nat>)
    ensures r.Some? ==> OccursAt(s, sub, r.value)
    ensures r.Some? ==> forall j :: 0 <= j < r.value ==> !OccursAt(s, sub, j)
    ensures r.None? ==> forall j :: 0 <= j <= |s| ==> !OccursAt(s, sub, j)
    decreases |s|
  {
    if StartsWith(s, sub) then Some(0)
    else if |s| == 0 then None
    else
      var t := IndexOf(s[1..], sub);
      assert forall j :: 1 <= j <= |s| ==> (OccursAt(s, sub, j) <==> OccursAt(s[1..], sub, j - 1));
      if t.Some? then Some(t.value + 1) else None
  }

  /** An occurrence with none before it is the one `indexOf` finds. */
  lemma IndexOfIsFirst(s: string, sub: string, i: nat)
    requires OccursAt(s, sub, i)
    requires forall j :: 0 <= j < i ==> !OccursAt(s, sub, j)
    ensures IndexOf(s, sub) == Some(i)
  {
  }

  /** `s.includes(sub)`. */
  predicate Includes(s: string, sub: string) {
    IndexOf(s, sub).Some?
  }

  /** The replacement-pattern expansion of `String.prototype.replace` when the
      pattern is a string (so there are no capture groups): `$$` is `$`, `$&`
      the matched text, `` $` `` the text before the match, `$'` the text after;
      every other character, including a lone `$`, stands for itself. The
      expansion brings in no character that is not in the pattern or in one
      of the three texts. */
  function ExpandReplacement(rep: string, matched: string, before: string, after: string): (r: string)
    ensures forall c :: c in r ==> c in rep || c in matched || c in before || c in after
  {
    if |rep| >= 2 && rep[0] == '$' && rep[1] == '$' then "$" + ExpandReplacement(rep[2..], matched, before, after)
    else if |rep| >= 2 && rep[0] == '$' && rep[1] == '&' then matched + ExpandReplacement(rep[2..], matched, before, after)
    else if |rep| >= 2 && rep[0] == '$' && rep[1] == '`' then before + ExpandReplacement(rep[2..], matched, before, after)
    else if |rep| >= 2 && rep[0] == '$' && rep[1] == '\'' then after + ExpandReplacement(rep[2..], matched, before, after)
    else if |rep| == 0 then ""
    else [rep[0]] + ExpandReplacement(rep[1..], matched, before, after)
  }

  lemma {:induction false} ExpandWithoutDollar(rep: string, matched: string, before: string, after: string)
    requires '$' !in rep
    ensures ExpandReplacement(rep, matched, before, after) == rep
  {
    if |rep| > 0 {
      assert rep[0] in rep;
      assert forall c :: c in rep[1..] ==> c in rep;
      ExpandWithoutDollar(rep[1..], matched, before, after);
    }
  }

  /** `s.endsWith(p)`. */
  predicate EndsWith(s: string, p: string) {
    |p| <= |s| && s[|s| - |p|..] == p
  }

  /** `s.replace(sub, rep)` with a string pattern: only the first occurrence
      is replaced, and `rep` goes through the replacement-pattern expansion.
      Whatever `rep` holds, the text before and after that occurrence is kept. */
  function ReplaceFirst(s: string, sub: string, rep: string): (r: string)
    ensures IndexOf(s, sub).None? ==> r == s
    ensures IndexOf(s, sub).Some? ==>
              var i := IndexOf(s, sub).value; StartsWith(r, s[..i]) && EndsWith(r, s[i + |sub|..])
    ensures IndexOf(s, sub).Some? && '$' !in rep ==>
              var i := IndexOf(s, sub).value; r == s[..i] + rep + s[i + |sub|..]
  {
    match IndexOf(s, sub)
    case None => s
    case Some(i) =>
      var before, after := s[..i], s[i + |sub|..];
      ExpandWithoutDollarIf(rep, sub, before, after);
      var r := before + ExpandReplacement(rep, sub, before, after) + after;
      assert r[..|before|] == before && r[|r| - |after|..] == after;
      r
  }

  lemma ExpandWithoutDollarIf(rep: string, matched: string, before: string, after: string)
    ensures '$' !in rep ==> ExpandReplacement(rep, matched, before, after) == rep
  {
    if '$' !in rep { ExpandWithoutDollar(rep, matched, before, after); }
  }

  function DigitChar(d: nat): (c: char)
    requires d < 10
    ensures '0' <= c <= '9' && DigitValue(c) == d
  {
    ('0' as int + d) as char
  }

  function DigitValue(c: char): int {
    c as int - '0' as int
  }

  /** The number a string of decimal digits denotes, read left to right. */
  function DecimalValue(s: string): nat
    requires forall i :: 0 <= i < |s| ==> '0' <= s[i] <= '9'
  {
    if s == [] then 0 else DecimalValue(s[..|s| - 1]) * 10 + DigitValue(s[|s| - 1])
  }

  /** The decimal digits of `n`, without leading zeros; read back they give `n`. */
  function NatToString(n: nat): (r: string)
    ensures |r| >= 1
    ensures forall i :: 0 <= i < |r| ==> '0' <= r[i] <= '9'
    ensures |r| > 1 ==> r[0] != '0'
    ensures DecimalValue(r) == n
  {
    if n < 10 then [DigitChar(n)]
    else
      var r := NatToString(n / 10) + [DigitChar(n % 10)];
      assert r[..|r| - 1] == NatToString(n / 10);
      r
  }

  /** `String(n)` for an integer-valued number: its decimal digits, after a
      `-` when negative. */
  function IntToString(n: int): (r: string)
    ensures |r| >= 1
    ensures forall i :: 0 <= i < |r| ==> ('0' <= r[i] <= '9') || (i == 0 && r[i] == '-')
    ensures (r[0] == '-') <==> n < 0
    ensures n < 0 ==> DecimalValue(r[1..]) == -n
    ensures n >= 0 ==> DecimalValue(r) == n
  {
    if n < 0 then "-" + NatToString(-n) else NatToString(n)
  }

  lemma IntToStringHasNoSigils(n: int)
    ensures ':' !in IntToString(n) && '$' !in IntToString(n)
  {
    var r := IntToString(n);
    assert forall i :: 0 <= i < |r| ==> r[i] != ':' && r[i] != '$';
  }
}
