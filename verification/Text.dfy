// Strings as page/tools/build-wiki.mjs sees them: JavaScript white space, trimming, splitting
// and joining, and the regular expressions that classify a line.

module Text {
  // The characters matched by \s and removed by trim().
  predicate IsSpace(c: char) {
    || '\t' <= c <= '\r' || c == ' ' || c == '\U{00A0}' || c == '\U{1680}'
    || '\U{2000}' <= c <= '\U{200A}' || c == '\U{2028}' || c == '\U{2029}'
    || c == '\U{202F}' || c == '\U{205F}' || c == '\U{3000}' || c == '\U{FEFF}'
  }

  // The characters a dot does not match.
  predicate IsLineTerminator(c: char) {
    c == '\n' || c == '\r' || c == '\U{2028}' || c == '\U{2029}'
  }

  predicate AllSpace(s: string) {
    forall i :: 0 <= i < |s| ==> IsSpace(s[i])
  }

  function TrimStart(s: string): (r: string)
    ensures |r| <= |s| && r == s[|s| - |r|..]
    ensures AllSpace(s[..|s| - |r|])
    ensures r != "" ==> !IsSpace(r[0])
  {
    if s != "" && IsSpace(s[0]) then
      var r := TrimStart(s[1..]);
      assert s[..|s| - |r|] == [s[0]] + s[1..][..|s[1..]| - |r|];
      r
    else s
  }

  function TrimEnd(s: string): (r: string)
    ensures |r| <= |s| && r == s[..|r|]
    ensures AllSpace(s[|r|..])
    ensures r != "" ==> !IsSpace(r[|r| - 1])
  {
    if s != "" && IsSpace(s[|s| - 1]) then
      var r := TrimEnd(s[..|s| - 1]);
      assert s[|r|..] == s[..|s| - 1][|r|..] + [s[|s| - 1]];
      r
    else s
  }

  function Trim(s: string): string {
    TrimEnd(TrimStart(s))
  }

  predicate Trimmed(s: string) {
    s == "" || (!IsSpace(s[0]) && !IsSpace(s[|s| - 1]))
  }

  lemma TrimIsTrimmed(s: string)
    ensures Trimmed(Trim(s))
  {
  }

  lemma {:induction false} TrimStartPadding(pad: string, s: string)
    requires AllSpace(pad) && (s == "" || !IsSpace(s[0]))
    ensures TrimStart(pad + s) == s
    decreases |pad|
  {
    if pad == "" {
      assert pad + s == s;
    } else {
      assert (pad + s)[1..] == pad[1..] + s;
      TrimStartPadding(pad[1..], s);
    }
  }

  lemma {:induction false} TrimEndPadding(s: string, pad: string)
    requires AllSpace(pad) && (s == "" || !IsSpace(s[|s| - 1]))
    ensures TrimEnd(s + pad) == s
    decreases |pad|
  {
    if pad == "" {
      assert s + pad == s;
    } else {
      assert (s + pad)[..|s + pad| - 1] == s + pad[..|pad| - 1];
      TrimEndPadding(s, pad[..|pad| - 1]);
    }
  }

  // Trimming takes off exactly the surrounding white space.
  lemma TrimPadding(before: string, s: string, after: string)
    requires AllSpace(before) && AllSpace(after) && Trimmed(s)
    ensures Trim(before + s + after) == s
  {
    if s == "" {
      assert before + s + after == (before + after) + s;
      TrimStartPadding(before + after, s);
    } else {
      assert before + s + after == before + (s + after);
      TrimStartPadding(before, s + after);
      TrimEndPadding(s, after);
    }
  }

  // ----- splitting and joining -----

  // `s.split(c)`: always at least one piece.
  function Split(s: string, c: char): (pieces: seq<string>)
    ensures pieces != []
    ensures forall i :: 0 <= i < |pieces| ==> c !in pieces[i]
  {
    if s == "" then [""]
    else
      var rest := Split(s[1..], c);
      if s[0] == c then [""] + rest else [[s[0]] + rest[0]] + rest[1..]
  }

  function Join(pieces: seq<string>, sep: string): string {
    if pieces == [] then "" else if |pieces| == 1 then pieces[0] else pieces[0] + sep + Join(pieces[1..], sep)
  }

  lemma {:induction false} SplitPiece(p: string, c: char)
    requires c !in p
    ensures Split(p, c) == [p]
  {
    if p == "" {
    } else {
      SplitPiece(p[1..], c);
      assert [p[0]] + p[1..] == p;
    }
  }

  lemma {:induction false} SplitFirst(p: string, c: char, rest: string)
    requires c !in p
    ensures Split(p + [c] + rest, c) == [p] + Split(rest, c)
    decreases |p|
  {
    var s := p + [c] + rest;
    if p == "" {
      assert s[1..] == rest;
    } else {
      assert s[1..] == p[1..] + [c] + rest;
      SplitFirst(p[1..], c, rest);
      assert [p[0]] + p[1..] == p;
    }
  }

  lemma {:induction false} SplitJoin(pieces: seq<string>, c: char)
    requires pieces != [] && forall i :: 0 <= i < |pieces| ==> c !in pieces[i]
    ensures Split(Join(pieces, [c]), c) == pieces
    decreases |pieces|
  {
    if |pieces| == 1 {
      SplitPiece(pieces[0], c);
    } else {
      SplitJoin(pieces[1..], c);
      SplitFirst(pieces[0], c, Join(pieces[1..], [c]));
      assert [pieces[0]] + pieces[1..] == pieces;
    }
  }

  // `md.split(/\r?\n/)`: a carriage return right before a line feed belongs to the break.
  function SplitLines(md: string): seq<string> {
    var raw := Split(md, '\n');
    seq(|raw|, i requires 0 <= i < |raw| => if i < |raw| - 1 then DropReturn(raw[i]) else raw[i])
  }

  function DropReturn(s: string): string {
    if s != "" && s[|s| - 1] == '\r' then s[..|s| - 1] else s
  }

  lemma LinesHaveNoBreaks(md: string, i: nat)
    requires i < |SplitLines(md)|
    ensures '\n' !in SplitLines(md)[i]
  {
    assert '\n' !in Split(md, '\n')[i];
  }

  // Lines put together with either kind of break; the flag of the last one says nothing.
  function JoinBreaks(lines: seq<string>, crlf: seq<bool>): string
    requires lines != [] && |crlf| == |lines|
  {
    if |lines| == 1 then lines[0]
    else lines[0] + (if crlf[0] then "\r\n" else "\n") + JoinBreaks(lines[1..], crlf[1..])
  }

  // The pieces between the line feeds.
  function Raw(lines: seq<string>, crlf: seq<bool>): seq<string>
    requires lines != [] && |crlf| == |lines|
  {
    if |lines| == 1 then [lines[0]]
    else [if crlf[0] then lines[0] + "\r" else lines[0]] + Raw(lines[1..], crlf[1..])
  }

  lemma {:induction false} RawAt(lines: seq<string>, crlf: seq<bool>, i: nat)
    requires lines != [] && |crlf| == |lines| && i < |lines|
    ensures |Raw(lines, crlf)| == |lines|
    ensures Raw(lines, crlf)[i] == if crlf[i] && i < |lines| - 1 then lines[i] + "\r" else lines[i]
    decreases |lines|
  {
    if |lines| == 1 {
    } else {
      RawAt(lines[1..], crlf[1..], if i == 0 then 0 else i - 1);
    }
  }

  lemma {:induction false} RawJoins(lines: seq<string>, crlf: seq<bool>)
    requires lines != [] && |crlf| == |lines|
    ensures JoinBreaks(lines, crlf) == Join(Raw(lines, crlf), "\n")
    decreases |lines|
  {
    if |lines| == 1 {
    } else {
      RawJoins(lines[1..], crlf[1..]);
      RawAt(lines[1..], crlf[1..], 0);
      hide JoinBreaks;
      var rest := Raw(lines[1..], crlf[1..]);
      JoinFirst(if crlf[0] then lines[0] + "\r" else lines[0], rest, "\n");
      hide Join, Raw;
      BreakBefore(lines[0], crlf[0], Join(rest, "\n"));
    }
  }

  lemma JoinFirst(first: string, rest: seq<string>, sep: string)
    requires rest != []
    ensures Join([first] + rest, sep) == first + sep + Join(rest, sep)
  {
    assert ([first] + rest)[1..] == rest;
  }

  lemma BreakBefore(line: string, crlf: bool, rest: string)
    ensures (if crlf then line + "\r" else line) + "\n" + rest == line + (if crlf then "\r\n" else "\n") + rest
  {
    var both := "\r\n";
    assert both == "\r" + "\n";
  }

  // A page splits into its lines whichever breaks it was written with, unless a line ends in a
  // carriage return that its own line feed would swallow.
  lemma LinesRoundTrip(lines: seq<string>, crlf: seq<bool>)
    requires lines != [] && |crlf| == |lines| && forall i :: 0 <= i < |lines| ==> '\n' !in lines[i]
    requires forall i :: 0 <= i < |lines| - 1 && !crlf[i] ==> lines[i] == "" || lines[i][|lines[i]| - 1] != '\r'
    ensures SplitLines(JoinBreaks(lines, crlf)) == lines
  {
    hide Split, Raw, Join, JoinBreaks;
    var raw := Raw(lines, crlf);
    RawAt(lines, crlf, 0);
    forall i | 0 <= i < |lines|
      ensures '\n' !in raw[i] && (if i < |raw| - 1 then DropReturn(raw[i]) else raw[i]) == lines[i]
    {
      RawAt(lines, crlf, i);
      assert "\r" == ['\r'];
    }
    RawJoins(lines, crlf);
    assert "\n" == ['\n'];
    SplitJoin(raw, '\n');
  }

  // ----- line classifiers -----

  // Number of leading white-space characters from `i` on.
  function SkipSpace(s: string, i: nat): (j: nat)
    requires i <= |s|
    ensures i <= j <= |s|
    ensures j < |s| ==> !IsSpace(s[j])
    ensures forall k :: i <= k < j ==> IsSpace(s[k])
    decreases |s| - i
  {
    if i < |s| && IsSpace(s[i]) then SkipSpace(s, i + 1) else i
  }

  function CountHashes(s: string): (n: nat)
    ensures n <= |s| && (n < |s| ==> s[n] != '#')
    ensures forall k :: 0 <= k < n ==> s[k] == '#'
  {
    if s != "" && s[0] == '#' then 1 + CountHashes(s[1..]) else 0
  }

  predicate IsBlank(line: string) { AllSpace(line) }

  predicate IsHr(line: string) { Trim(line) == "---" || Trim(line) == "***" }

  predicate IsFence(line: string) { "```" <= line }

  // One to four hashes, white space, and something after it.
  predicate IsHeading(line: string) {
    var n := CountHashes(line);
    1 <= n <= 4 && n < SkipSpace(line, n) < |line|
  }

  predicate IsBlockquote(line: string) { ">" <= line }

  predicate IsList(line: string) {
    var i := SkipSpace(line, 0);
    i + 1 < |line| && line[i] == '-' && IsSpace(line[i + 1])
  }

  predicate IsRow(line: string) {
    var i := SkipSpace(line, 0);
    i < |line| && line[i] == '|'
  }

  predicate IsTableSeparator(line: string) {
    '-' in line && forall i :: 0 <= i < |line| ==> IsSpace(line[i]) || line[i] in ":|-"
  }

  predicate IsTableStart(lines: seq<string>, i: nat)
    requires i < |lines|
  {
    IsRow(lines[i]) && i + 1 < |lines| && IsTableSeparator(lines[i + 1])
  }

  // The language-switch line at the top of either page.
  predicate IsLanguageLine(line: string) {
    var t := Trim(line);
    || "**语言:" <= t || "**语言：" <= t || "**Language:" <= t || "**Language：" <= t
  }

  function Lower(c: char): char {
    if 'A' <= c <= 'Z' then c - 'A' + 'a' else c
  }

  function LowerAscii(s: string): string {
    seq(|s|, i requires 0 <= i < |s| => Lower(s[i]))
  }

  // A second-level heading that says it is the table of contents, in any letter case.
  predicate IsContentsHeading(line: string) {
    && IsHeading(line) && CountHashes(line) == 2
    && (Trim(line[2..]) == "目录" || LowerAscii(Trim(line[2..])) == "table of contents")
  }

  // ----- the classifiers are their regular expressions -----

  predicate SpaceFrom(line: string, i: int, k: int) {
    0 <= i <= k <= |line| && forall j :: i <= j < k ==> IsSpace(line[j])
  }

  // /^#{1,4}\s+\S/, with the white space at `n` up to `k`
  predicate HeadingAt(line: string, n: nat, k: nat) {
    && 1 <= n <= 4 && n < k < |line| && SpaceFrom(line, n, k) && !IsSpace(line[k])
    && forall i :: 0 <= i < n ==> line[i] == '#'
  }

  // /^\s*-\s+/, with the dash at `i`
  predicate ListAt(line: string, i: nat) {
    i + 1 < |line| && SpaceFrom(line, 0, i) && line[i] == '-' && IsSpace(line[i + 1])
  }

  // /^\s*\|/, with the bar at `i`
  predicate RowAt(line: string, i: nat) {
    i < |line| && SpaceFrom(line, 0, i) && line[i] == '|'
  }

  // /^\s*(---|\*\*\*)\s*$/, with the rule at `a`
  predicate RuleAt(line: string, a: nat) {
    && a + 3 <= |line| && SpaceFrom(line, 0, a) && SpaceFrom(line, a + 3, |line|)
    && (line[a..a + 3] == "---" || line[a..a + 3] == "***")
  }

  // /^\s*\|?[\s:|-]+\|?\s*$/ and a dash, at `d`; the bars and white space at the ends are in the class
  predicate SeparatorAt(line: string, d: nat) {
    && d < |line| && line[d] == '-'
    && forall i :: 0 <= i < |line| ==> IsSpace(line[i]) || line[i] == ':' || line[i] == '|' || line[i] == '-'
  }

  // /^\*\*(语言|Language)[:：]/
  predicate Tagged(s: string) {
    "**语言:" <= s || "**语言：" <= s || "**Language:" <= s || "**Language：" <= s
  }

  // The same on the trimmed line, at `a`
  predicate LanguageAt(line: string, a: nat) {
    a <= |line| && SpaceFrom(line, 0, a) && Tagged(line[a..])
  }

  lemma TestsAreRegular(line: string)
    ensures IsHeading(line) <==> exists n: nat, k: nat :: HeadingAt(line, n, k)
    ensures IsList(line) <==> exists i: nat :: ListAt(line, i)
    ensures IsRow(line) <==> exists i: nat :: RowAt(line, i)
    ensures IsHr(line) <==> exists a: nat :: RuleAt(line, a)
    ensures IsTableSeparator(line) <==> exists d: nat :: SeparatorAt(line, d)
    ensures IsLanguageLine(line) <==> exists a: nat :: LanguageAt(line, a)
    ensures IsBlank(line) <==> SpaceFrom(line, 0, |line|)
    ensures IsFence(line) <==> |line| >= 3 && line[0] == line[1] == line[2] == '`'
    ensures IsBlockquote(line) <==> line != "" && line[0] == '>'
  {
    hide IsHeading, IsList, IsRow, IsHr, IsTableSeparator, IsLanguageLine, IsSpace;
    hide HeadingAt, ListAt, RowAt, RuleAt, SeparatorAt, LanguageAt;
    PrefixTests(line);
    SeparatorTest(line);
    LanguageTest(line);
    HeadingTest(line);
    BulletTest(line);
    RuleTest(line);
  }

  lemma PrefixTests(line: string)
    ensures IsFence(line) <==> |line| >= 3 && line[0] == line[1] == line[2] == '`'
    ensures IsBlockquote(line) <==> line != "" && line[0] == '>'
  {
    var ticks, angle := "```", ">";
    assert ticks == ['`', '`', '`'] && angle == ['>'];
  }

  lemma SeparatorTest(line: string)
    ensures IsTableSeparator(line) <==> exists d: nat :: SeparatorAt(line, d)
  {
    hide IsSpace;
    var others := ":|-";
    assert others == [':', '|', '-'];
    if IsTableSeparator(line) {
      var d :| 0 <= d < |line| && line[d] == '-';
      assert SeparatorAt(line, d);
    }
    if d: nat :| SeparatorAt(line, d) {
      assert line[d] in line;
      assert others[0] == ':' && others[1] == '|' && others[2] == '-';
    }
  }

  lemma TagEnds(tag: string)
    requires tag in {"**语言:", "**语言：", "**Language:", "**Language："}
    ensures tag != "" && !IsSpace(tag[0]) && !IsSpace(tag[|tag| - 1])
  {
  }

  // Trimming at the end cannot reach the tag.
  lemma TagKept(s: string, tag: string)
    requires tag in {"**语言:", "**语言：", "**Language:", "**Language："}
    ensures tag <= TrimEnd(s) <==> tag <= s
  {
    hide IsSpace;
    TagEnds(tag);
    var r := TrimEnd(s);
    assert forall k :: |r| <= k < |s| ==> s[k] == s[|r|..][k - |r|];
    if tag <= s { assert s[|tag| - 1] == tag[|tag| - 1]; }
  }

  lemma TaggedTrim(s: string)
    ensures Tagged(TrimEnd(s)) <==> Tagged(s)
    ensures Tagged(s) ==> s != "" && !IsSpace(s[0])
  {
    hide IsSpace;
    TagKept(s, "**语言:");
    TagKept(s, "**语言：");
    TagKept(s, "**Language:");
    TagKept(s, "**Language：");
    TagEnds("**语言:");
    TagEnds("**语言：");
    TagEnds("**Language:");
    TagEnds("**Language：");
  }

  lemma LanguageTest(line: string)
    ensures IsLanguageLine(line) <==> exists a: nat :: LanguageAt(line, a)
  {
    hide IsSpace, Tagged;
    var s := TrimStart(line);
    var a := |line| - |s|;
    assert forall j :: 0 <= j < a ==> line[j] == line[..a][j];
    assert SpaceFrom(line, 0, a) && line[a..] == s;
    TaggedTrim(s);
    LanguageIsTagged(line);
    if IsLanguageLine(line) { assert LanguageAt(line, a); }
    if b: nat :| LanguageAt(line, b) {
      TaggedTrim(line[b..]);
      assert !IsSpace(line[b..][0]);
      assert a == b;
    }
  }

  lemma LanguageIsTagged(line: string)
    ensures IsLanguageLine(line) <==> Tagged(Trim(line))
  {
    hide Trim;
  }

  lemma HeadingTest(line: string)
    ensures IsHeading(line) <==> exists n: nat, k: nat :: HeadingAt(line, n, k)
  {
    if IsHeading(line) {
      assert HeadingAt(line, CountHashes(line), SkipSpace(line, CountHashes(line)));
    }
    if n: nat, k: nat :| HeadingAt(line, n, k) {
      assert IsSpace(line[n]) && !IsSpace('#');
      assert CountHashes(line) == n;
      assert SkipSpace(line, n) == k;
    }
  }

  lemma BulletTest(line: string)
    ensures IsList(line) <==> exists i: nat :: ListAt(line, i)
    ensures IsRow(line) <==> exists i: nat :: RowAt(line, i)
  {
    var k := SkipSpace(line, 0);
    assert !IsSpace('-') && !IsSpace('|');
    hide IsSpace;
    if IsList(line) { assert ListAt(line, k); }
    if IsRow(line) { assert RowAt(line, k); }
    if i: nat :| ListAt(line, i) { assert k == i; }
    if i: nat :| RowAt(line, i) { assert k == i; }
  }

  lemma RuleTest(line: string)
    ensures IsHr(line) <==> exists a: nat :: RuleAt(line, a)
  {
    hide IsSpace;
    if IsHr(line) { RuleHere(line); }
    if a: nat :| RuleAt(line, a) {
      var mid := line[a..a + 3];
      assert line == line[..a] + mid + line[a + 3..];
      RuleEnds(mid);
      TrimPadding(line[..a], mid, line[a + 3..]);
    }
  }

  lemma RuleEnds(mid: string)
    requires mid == "---" || mid == "***"
    ensures |mid| == 3 && Trimmed(mid)
  {
  }

  lemma RuleHere(line: string)
    requires IsHr(line)
    ensures exists a: nat :: RuleAt(line, a)
  {
    hide IsSpace;
    var s := TrimStart(line);
    var a := |line| - |s|;
    assert |Trim(line)| == 3 && line[a..a + 3] == Trim(line);
    assert forall j :: 0 <= j < a ==> line[j] == line[..a][j];
    assert forall j :: a + 3 <= j < |line| ==> line[j] == s[3..][j - a - 3];
    assert RuleAt(line, a);
  }
}
