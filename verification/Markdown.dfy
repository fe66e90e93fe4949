// Printing Markdown, and reading it back: whatever a page is made of, the scan of its lines gives
// exactly that.

module Markdown {
  import opened Text
  import opened TableRow
  import opened Blocks
  import Html

  // The colons of one cell of a table's separator row.
  datatype Mark = Mark(left: bool, right: bool)

  function Marker(m: Mark): string {
    (if m.left then ":" else "") + "---" + (if m.right then ":" else "")
  }

  function Meaning(m: Mark): Align {
    if m.left && m.right then Center else if m.right then Right else Left
  }

  // What an author writes. The language line and the table of contents do not show.
  datatype Piece =
    | Fenced(name: string, code: seq<string>)
    | Title(level: nat, text: string)
    | Line
    | Grid(header: seq<string>, marks: seq<Mark>, rows: seq<seq<string>>)
    | Quoted(quote: seq<string>)
    | Listed(items: seq<string>)
    | Prose(lines: seq<string>)
    | Language(tag: string, rest: string)
    | Contents(title: string, entries: seq<string>)

  function Hashes(n: nat): string {
    if n == 0 then "" else "#" + Hashes(n - 1)
  }

  function Each(prefix: string, lines: seq<string>): seq<string> {
    seq(|lines|, i requires 0 <= i < |lines| => prefix + lines[i])
  }

  function Markers(marks: seq<Mark>): (cells: seq<string>)
    ensures |cells| == |marks|
  {
    seq(|marks|, i requires 0 <= i < |marks| => Marker(marks[i]))
  }

  function Meanings(marks: seq<Mark>): seq<Align> {
    seq(|marks|, i requires 0 <= i < |marks| => Meaning(marks[i]))
  }

  function PrintRows(rows: seq<seq<string>>): seq<string>
    requires forall i :: 0 <= i < |rows| ==> rows[i] != []
  {
    seq(|rows|, i requires 0 <= i < |rows| => PrintRow(rows[i]))
  }

  function Lines(p: Piece): (lines: seq<string>)
    requires Sound(p)
    ensures lines != []
  {
    match p
    case Fenced(name, code) => ["```" + name] + code + ["```"]
    case Title(level, text) => [Hashes(level) + " " + text]
    case Line => ["---"]
    case Grid(header, marks, rows) => [PrintRow(header), PrintRow(Markers(marks))] + PrintRows(rows)
    case Quoted(quote) => Each("> ", quote)
    case Listed(items) => Each("- ", items)
    case Prose(lines) => lines
    case Language(tag, rest) => [tag + rest]
    case Contents(title, entries) => ["## " + title] + entries + ["---"]
  }

  // The block it shows as.
  function Shows(p: Piece): seq<Block> {
    match p
    case Fenced(name, code) => [Code(if name == "" then "text" else name, code)]
    case Title(level, text) => [Heading(level, text)]
    case Line => [Rule]
    case Grid(header, marks, rows) => [Table(header, Meanings(marks), rows)]
    case Quoted(quote) => [Quote(quote)]
    case Listed(items) => [Bullets(items)]
    case Prose(lines) => [Paragraph(lines)]
    case Language(_, _) => []
    case Contents(_, _) => []
  }

  predicate PrintableRow(cells: seq<string>) {
    cells != [] && forall i :: 0 <= i < |cells| ==> Printable(cells[i])
  }

  predicate NamesContents(title: string) {
    title == "目录" || LowerAscii(title) == "table of contents"
  }

  // A line of running text: it does not start anything else.
  predicate Plain(line: string) {
    && !IsBlank(line) && !IsFence(line) && !IsHeading(line) && !IsHr(line)
    && !IsBlockquote(line) && !IsList(line)
  }

  predicate Sound(p: Piece) {
    match p
    case Fenced(name, code) =>
      && Trimmed(name) && !Html.IsInherited(name)
      && forall i :: 0 <= i < |code| ==> !("```" <= code[i])
    case Title(level, text) =>
      && 1 <= level <= 4 && text != "" && Trimmed(text) && !(level == 2 && NamesContents(text))
      && forall i :: 0 <= i < |text| ==> !IsLineTerminator(text[i])
    case Line => true
    case Grid(header, marks, rows) =>
      && PrintableRow(header) && marks != [] && forall i :: 0 <= i < |rows| ==> PrintableRow(rows[i])
    case Quoted(quote) => quote != []
    case Listed(items) => items != [] && forall i :: 0 <= i < |items| ==> items[i] == "" || !IsSpace(items[i][0])
    case Prose(lines) =>
      && lines != [] && !IsLanguageLine(lines[0])
      && (forall i :: 0 <= i < |lines| ==> Plain(lines[i]))
      && forall i :: 0 <= i < |lines| - 1 ==> !(IsRow(lines[i]) && IsTableSeparator(lines[i + 1]))
    case Language(tag, _) => tag in {"**语言:", "**语言：", "**Language:", "**Language："}
    case Contents(title, entries) =>
      && Trimmed(title) && NamesContents(title)
      && forall i :: 0 <= i < |entries| ==> !IsHr(entries[i])
  }

  // ----- what the tests say about a line, from its first character -----

  lemma FirstCharacter(line: string)
    requires line != "" && !IsSpace(line[0])
    ensures !IsBlank(line) && (IsLanguageLine(line) ==> line[0] == '*')
    ensures IsFence(line) ==> line[0] == '`'
    ensures IsHeading(line) ==> line[0] == '#'
    ensures IsHr(line) ==> line[0] == '-' || line[0] == '*'
    ensures IsBlockquote(line) <==> line[0] == '>'
    ensures IsList(line) <==> |line| > 1 && line[0] == '-' && IsSpace(line[1])
    ensures IsRow(line) <==> line[0] == '|'
  {
    assert SkipSpace(line, 0) == 0;
    TrimKeepsFirst(line);
    hide Trim, IsSpace;
    assert "```"[0] == '`' && "---"[0] == '-' && "***"[0] == '*';
    assert "**语言:"[0] == '*' && "**语言："[0] == '*' && "**Language:"[0] == '*' && "**Language："[0] == '*';
  }

  lemma TrimKeepsFirst(line: string)
    requires line != "" && !IsSpace(line[0])
    ensures Trim(line) != "" && Trim(line)[0] == line[0]
  {
    assert TrimStart(line) == line;
    var r := TrimEnd(line);
    assert !AllSpace(line[0..]) by { assert line[0..][0] == line[0]; }
  }

  // ----- where a piece ends -----

  // What may come right behind a piece.
  predicate Follows(p: Piece, t: seq<string>)
    requires Sound(p)
  {
    t == [] ||
    match p
    case Quoted(_) => !IsBlockquote(t[0])
    case Listed(_) => !IsList(t[0])
    case Grid(_, _, _) => !IsRow(t[0])
    case Prose(lines) => Stops(InParagraph, t, 0) && !(IsRow(lines[|lines| - 1]) && IsTableSeparator(t[0]))
    case _ => true
  }

  lemma {:induction false} EndIs(span: Span, lines: seq<string>, j: nat, k: nat)
    requires j <= k <= |lines| && (k < |lines| ==> Stops(span, lines, k))
    requires forall i :: j <= i < k ==> !Stops(span, lines, i)
    ensures End(span, lines, j) == k
    decreases k - j
  {
    hide Stops;
    if j < k { EndIs(span, lines, j + 1, k); }
  }

  // One turn over a piece that takes exactly its own lines.
  lemma Turn(a: seq<string>, t: seq<string>, branch: Branch)
    requires a != [] && Choose(a + t) == branch && (branch.TableBranch? ==> |a| >= 2)
    requires var k := Extent(branch, a + t);
             if branch.ContentsBranch? || branch.FenceBranch? then k == |a| - 1 && k > 0 else k == |a|
    ensures var lines := if branch.ContentsBranch? || branch.FenceBranch? then a[..|a| - 1] else a;
            Take(a + t) == Item(|a|, Build(branch, lines))
  {
    hide Choose, Extent, Build;
    assert (a + t)[..|a|] == a && (a + t)[..|a| - 1] == a[..|a| - 1];
  }

  lemma RuleLine(line: string)
    requires line == "---"
    ensures line != "" && IsHr(line) && !IsBlank(line) && !IsLanguageLine(line) && !IsFence(line)
    ensures !IsHeading(line) && !IsRow(line) && !IsBlockquote(line) && !IsList(line) && !IsContentsHeading(line)
  {
    hide IsLanguageLine, IsBlank, IsFence, IsHeading, IsRow, IsBlockquote, IsList, Trim;
    assert |line| == 3 && line[0] == '-' && line[1] == '-';
    FirstCharacter(line);
    TrimPadding("", line, "");
    assert "" + line + "" == line;
  }

  lemma RuleChosen(rest: seq<string>)
    requires rest != [] && IsHr(rest[0]) && !IsFence(rest[0]) && !IsBlank(rest[0]) && !IsHeading(rest[0])
    requires !IsLanguageLine(rest[0]) && !IsContentsHeading(rest[0])
    ensures Choose(rest).RuleBranch?
  {
    hide IsLanguageLine, IsBlank, IsContentsHeading, IsFence, IsHeading, IsHr;
  }

  lemma LineTaken(t: seq<string>)
    ensures Take(Lines(Line) + t) == Item(1, Made(Rule))
  {
    hide IsLanguageLine, IsBlank, IsContentsHeading, IsFence, IsHeading, IsHr, IsRow, IsBlockquote, IsList, Choose;
    hide Take;
    RuleLine("---");
    assert (Lines(Line) + t)[0] == "---";
    RuleChosen(Lines(Line) + t);
    Turn(Lines(Line), t, RuleBranch);
  }

  // ----- headings -----

  lemma {:induction false} HashesAre(n: nat)
    ensures |Hashes(n)| == n && forall i :: 0 <= i < n ==> Hashes(n)[i] == '#'
  {
    if n == 0 {
    } else {
      HashesAre(n - 1);
      assert Hashes(n) == ['#'] + Hashes(n - 1);
    }
  }

  lemma CountIs(line: string, n: nat)
    requires n < |line| && line[n] != '#' && forall i :: 0 <= i < n ==> line[i] == '#'
    ensures CountHashes(line) == n
  {
    hide CountHashes;
    var m := CountHashes(line);
    assert m < |line| ==> line[m] != '#';
  }

  lemma {:induction false} SkipOver(line: string, i: nat, j: nat)
    requires i <= j < |line| && (forall k :: i <= k < j ==> IsSpace(line[k])) && !IsSpace(line[j])
    ensures SkipSpace(line, i) == j
    decreases j - i
  {
    hide IsSpace;
    if i < j { SkipOver(line, i + 1, j); }
  }

  lemma NoSpaceInHash(c: char)
    requires IsSpace(c)
    ensures c != '#' && c != '-' && c != '>' && c != '|'
  {
  }

  // Hashes, white space, the text and whatever comes after it.
  lemma LooseHashes(line: string, level: nat, gap: string, text: string, after: string)
    requires line == Hashes(level) + gap + text + after
    requires 1 <= level <= 4 && gap != "" && AllSpace(gap) && text != "" && Trimmed(text)
    ensures line != "" && line[0] == '#' && CountHashes(line) == level && IsHeading(line)
    ensures HeadingStart(line) == level + |gap| && line[level + |gap|..] == text + after
    ensures line[level..] == gap + text + after
  {
    hide IsSpace, CountHashes, SkipSpace, Hashes;
    HashesAre(level);
    var k := level + |gap|;
    assert forall i :: 0 <= i < level ==> line[i] == Hashes(level)[i];
    assert forall i :: level <= i < k ==> line[i] == gap[i - level];
    assert line[level] == gap[0] && line[k] == text[0];
    NoSpaceInHash(gap[0]);
    CountIs(line, level);
    SkipOver(line, level, k);
  }

  lemma TitleLine(level: nat, text: string)
    requires 1 <= level <= 4 && text != "" && Trimmed(text)
    ensures var line := Hashes(level) + " " + text;
            && line != "" && line[0] == '#' && IsHeading(line)
            && CountHashes(line) == level && HeadingStart(line) == level + 1 && line[level + 1..] == text
            && (IsContentsHeading(line) <==> level == 2 && NamesContents(text))
  {
    hide Trim, LowerAscii, IsHeading, CountHashes, SkipSpace, Hashes, Trimmed;
    var line, gap := Hashes(level) + " " + text, " ";
    assert gap == [' '] && AllSpace(gap);
    assert line == Hashes(level) + gap + text + "" && text + "" == text;
    LooseHashes(line, level, gap, text, "");
    TrimPadding(gap, text, "");
    assert gap + text + "" == gap + text;
  }

  lemma TitleMatches(level: nat, text: string)
    requires Sound(Title(level, text))
    ensures var line := Hashes(level) + " " + text;
            IsHeading(line) && HeadingOut(line) == Made(Heading(level, text))
  {
    hide IsHeading, CountHashes, SkipSpace, Trim, IsContentsHeading, Hashes, Trimmed, IsSpace, IsLineTerminator;
    hide NamesContents, HeadingOut;
    var line := Hashes(level) + " " + text;
    TitleLine(level, text);
    TrimPadding("", text, "");
    assert "" + text + "" == text;
    MadeHeading(line, level, text, text);
  }

  // What a heading makes, once it is known where its text starts.
  lemma MadeHeading(line: string, level: nat, text: string, rest: string)
    requires IsHeading(line) && CountHashes(line) == level && HeadingStart(line) <= |line|
    requires line[HeadingStart(line)..] == rest && Trim(rest) == text
    requires forall i :: 0 <= i < |rest| ==> !IsLineTerminator(rest[i])
    ensures HeadingOut(line) == Made(Heading(level, text))
  {
    hide IsHeading, CountHashes, SkipSpace, Trim, IsLineTerminator;
    var k := HeadingStart(line);
    assert forall i :: k <= i < |line| ==> line[i] == line[k..][i - k];
  }

  lemma TitleTaken(level: nat, text: string, t: seq<string>)
    requires Sound(Title(level, text))
    ensures Take(Lines(Title(level, text)) + t) == Item(1, Made(Heading(level, text)))
  {
    hide IsLanguageLine, IsBlank, IsContentsHeading, IsFence, IsHeading, IsHr, IsRow, IsBlockquote, IsList, Choose;
    hide Take, HeadingOut, Trim, CountHashes, SkipSpace, Hashes, Trimmed;
    var a, line := Lines(Title(level, text)), Hashes(level) + " " + text;
    TitleLine(level, text);
    TitleMatches(level, text);
    FirstCharacter(line);
    assert (a + t)[0] == line;
    HeadingChosen(a + t);
    Turn(a, t, HeadingBranch);
  }

  // ----- fences -----

  lemma FencedTaken(name: string, code: seq<string>, t: seq<string>)
    requires Sound(Fenced(name, code))
    ensures var p := Fenced(name, code); Take(Lines(p) + t) == Item(|Lines(p)|, Made(Shows(p)[0]))
  {
    hide IsLanguageLine, IsBlank, IsContentsHeading, IsHeading, Choose, Take, Lang, Trimmed, Html.IsInherited, Build;
    var a, first := Lines(Fenced(name, code)), "```" + name;
    NamedFence(first, name);
    assert a == [first] + code + ["```"] && (a + t)[0] == first;
    FenceChosen(a + t);
    forall i | 1 <= i < |a| - 1
      ensures !Stops(InFence, a + t, i)
    {
      assert (a + t)[i] == code[i - 1];
    }
    assert (a + t)[|a| - 1] == "```";
    EndIs(InFence, a + t, 1, |a| - 1);
    Turn(a, t, FenceBranch);
    assert a[..|a| - 1] == [first] + code;
    FenceBuilt(first, name, code);
  }

  lemma FenceBuilt(first: string, name: string, code: seq<string>)
    requires Lang(first) == (if name == "" then "text" else name) && !Html.IsInherited(name)
    ensures Build(FenceBranch, [first] + code) == Made(Code(if name == "" then "text" else name, code))
  {
    hide Lang;
    assert ([first] + code)[1..] == code;
    assert |"text"| == 4 && "text"[0] == 't' && "text"[1] == 'e';
  }

  // A fence with a name, or without.
  lemma NamedFence(line: string, name: string)
    requires line == "```" + name && Trimmed(name)
    ensures line[0] == '`' && IsFence(line) && !IsBlank(line) && !IsLanguageLine(line) && !IsContentsHeading(line)
    ensures Lang(line) == if name == "" then "text" else name
  {
    hide IsLanguageLine, IsBlank, IsHeading, IsHr, IsRow, IsList, Trim;
    assert |"```"| == 3 && "```"[0] == '`' && line[0] == '`';
    FirstCharacter(line);
    assert line[3..] == name;
    TrimPadding("", name, "");
    assert "" + name + "" == name;
  }

  // ----- quotes and lists -----

  lemma QuoteLine(line: string, text: string)
    requires line == "> " + text
    ensures line[0] == '>' && Unquoted(line) == text
    ensures IsBlockquote(line) && !IsBlank(line) && !IsLanguageLine(line) && !IsFence(line) && !IsHeading(line)
    ensures !IsHr(line) && !IsRow(line) && !IsList(line) && !IsContentsHeading(line)
  {
    hide IsLanguageLine, IsBlank, IsFence, IsHeading, IsHr, IsRow, IsList;
    assert "> " == ['>', ' '] && line[0] == '>' && line[1] == ' ';
    FirstCharacter(line);
    assert line[2..] == text;
  }

  lemma QuoteChosen(rest: seq<string>)
    requires rest != [] && IsBlockquote(rest[0]) && !IsFence(rest[0]) && !IsBlank(rest[0]) && !IsHeading(rest[0])
    requires !IsLanguageLine(rest[0]) && !IsContentsHeading(rest[0]) && !IsHr(rest[0]) && !IsRow(rest[0])
    ensures Choose(rest).QuoteBranch?
  {
    hide IsLanguageLine, IsBlank, IsContentsHeading, IsFence, IsHeading, IsHr, IsRow, IsBlockquote;
  }

  lemma QuotedTaken(quote: seq<string>, t: seq<string>)
    requires Sound(Quoted(quote)) && Follows(Quoted(quote), t)
    ensures var p := Quoted(quote); Take(Lines(p) + t) == Item(|Lines(p)|, Made(Quote(quote)))
  {
    hide IsLanguageLine, IsBlank, IsContentsHeading, IsFence, IsHeading, IsHr, IsRow, IsBlockquote, IsList, Unquoted;
    hide Choose, Take;
    var a := Lines(Quoted(quote));
    forall i | 0 <= i < |a|
      ensures IsBlockquote(a[i]) && Unquoted(a[i]) == quote[i] && (a + t)[i] == a[i]
    {
      QuoteLine(a[i], quote[i]);
    }
    QuoteLine(a[0], quote[0]);
    QuoteChosen(a + t);
    assert t != [] ==> (a + t)[|a|] == t[0];
    EndIs(InQuote, a + t, 0, |a|);
    Turn(a, t, QuoteBranch);
    assert UnquotedAll(a) == quote;
  }

  lemma ListLine(line: string, text: string)
    requires line == "- " + text && (text == "" || !IsSpace(text[0]))
    ensures line[0] == '-' && Unbulleted(line) == text
    ensures IsList(line) && !IsBlank(line) && !IsLanguageLine(line) && !IsFence(line) && !IsHeading(line)
    ensures !IsHr(line) && !IsRow(line) && !IsBlockquote(line) && !IsContentsHeading(line)
  {
    hide IsLanguageLine, IsBlank, IsFence, IsHeading, IsRow, IsBlockquote, Trim;
    assert "- " == ['-', ' '] && line[0] == '-' && line[1] == ' ' && IsSpace(' ') && !IsSpace('-');
    FirstCharacter(line);
    assert SkipSpace(line, 0) == 0 && SkipSpace(line, 2) == 2 && SkipSpace(line, 1) == 2;
    assert line[2..] == text;
    assert !IsHr(line) by { NotARule(line); }
  }

  lemma NotARule(line: string)
    requires |line| > 1 && line[0] == '-' && line[1] == ' '
    ensures !IsHr(line)
  {
    var s := TrimStart(line);
    assert s == line;
    var r := Trim(line);
    assert r == line[..|r|];
    assert "---" == ['-', '-', '-'] && "***"[0] == '*';
  }

  lemma ListChosen(rest: seq<string>)
    requires rest != [] && IsList(rest[0]) && !IsFence(rest[0]) && !IsBlank(rest[0]) && !IsHeading(rest[0])
    requires !IsLanguageLine(rest[0]) && !IsContentsHeading(rest[0]) && !IsHr(rest[0]) && !IsRow(rest[0])
    requires !IsBlockquote(rest[0])
    ensures Choose(rest).ListBranch?
  {
    hide IsLanguageLine, IsBlank, IsContentsHeading, IsFence, IsHeading, IsHr, IsRow, IsBlockquote, IsList;
  }

  lemma ListedTaken(items: seq<string>, t: seq<string>)
    requires Sound(Listed(items)) && Follows(Listed(items), t)
    ensures var p := Listed(items); Take(Lines(p) + t) == Item(|Lines(p)|, Made(Bullets(items)))
  {
    hide IsLanguageLine, IsBlank, IsContentsHeading, IsFence, IsHeading, IsHr, IsRow, IsBlockquote, IsList, Unbulleted;
    hide Choose, Take, IsSpace;
    var a := Lines(Listed(items));
    forall i | 0 <= i < |a|
      ensures IsList(a[i]) && Unbulleted(a[i]) == items[i] && (a + t)[i] == a[i]
    {
      ListLine(a[i], items[i]);
    }
    ListLine(a[0], items[0]);
    ListChosen(a + t);
    assert t != [] ==> (a + t)[|a|] == t[0];
    EndIs(InList, a + t, 0, |a|);
    Turn(a, t, ListBranch);
    assert UnbulletedAll(a) == items;
  }

  // ----- tables -----

  lemma {:induction false} NothingSpecial(s: string)
    requires '`' !in s && '|' !in s
    ensures Bars(s, false) == 0 && !EndsInCode(s, false)
  {
    if s == "" {
    } else {
      NothingSpecial(s[1..]);
    }
  }

  lemma MarkerChars(m: Mark)
    ensures var s := Marker(m);
            && |s| >= 3 && s == (if m.left then [':'] else []) + ['-', '-', '-'] + (if m.right then [':'] else [])
            && s[if m.left then 1 else 0] == '-'
  {
    var dashes, colon := "---", ":";
    assert dashes == ['-', '-', '-'] && colon == [':'];
  }

  lemma MarkerFacts(m: Mark)
    ensures Printable(Marker(m)) && AlignOf(Marker(m)) == Meaning(m)
    ensures '-' in Marker(m) && forall i :: 0 <= i < |Marker(m)| ==> Marker(m)[i] == ':' || Marker(m)[i] == '-'
  {
    hide Bars, EndsInCode, Trim, Marker;
    var s := Marker(m);
    MarkerChars(m);
    NothingSpecial(s);
    TrimPadding("", s, "");
    assert "" + s + "" == s;
  }

  // Only white space, bars, colons and dashes, with a dash among them.
  lemma {:induction false} SeparatorBody(marks: seq<Mark>)
    requires marks != []
    ensures var body := Body(Markers(marks));
            && '-' in body
            && forall i :: 0 <= i < |body| ==> body[i] == ' ' || body[i] == '|' || body[i] == ':' || body[i] == '-'
    decreases |marks|
  {
    hide Printable, AlignOf;
    MarkerFacts(marks[0]);
    var cells := Markers(marks);
    assert cells[0] == Marker(marks[0]);
    hide Marker;
    var cell := cells[0];
    assert (" " + cell + " ")[1..|cell| + 1] == cell;
    if |marks| == 1 {
    } else {
      SeparatorBody(marks[1..]);
      assert cells[1..] == Markers(marks[1..]);
      assert " |" == [' ', '|'];
    }
  }

  lemma SeparatorLine(marks: seq<Mark>)
    requires marks != []
    ensures IsTableSeparator(PrintRow(Markers(marks)))
    ensures Aligns(RowCells(PrintRow(Markers(marks)))) == Meanings(marks)
  {
    hide Body, Printable, AlignOf, Marker, RowCells;
    var cells := Markers(marks);
    SeparatorBody(marks);
    forall i | 0 <= i < |cells|
      ensures Printable(cells[i]) && AlignOf(cells[i]) == Meaning(marks[i])
    {
      MarkerFacts(marks[i]);
    }
    RowRoundTrip(cells);
    SeparatorChars(PrintRow(cells), Body(cells));
  }

  lemma SeparatorChars(line: string, body: string)
    requires line == "|" + body + "|" && '-' in body
    requires forall i :: 0 <= i < |body| ==> body[i] == ' ' || body[i] == '|' || body[i] == ':' || body[i] == '-'
    ensures IsTableSeparator(line)
  {
    assert "|" == ['|'] && ":|-" == [':', '|', '-'] && IsSpace(' ');
    assert line[1..|body| + 1] == body;
    hide IsSpace;
    assert ':' in ":|-" && '|' in ":|-" && '-' in ":|-";
    forall i | 0 <= i < |line|
      ensures IsSpace(line[i]) || line[i] in ":|-"
    {
      if 0 < i < |line| - 1 { assert line[i] == body[i - 1]; }
    }
  }

  lemma RowLine(cells: seq<string>)
    requires PrintableRow(cells)
    ensures var line := PrintRow(cells);
            && line != "" && line[0] == '|' && IsRow(line) && !IsBlank(line) && !IsLanguageLine(line) && !IsFence(line)
            && !IsHeading(line) && !IsHr(line) && !IsContentsHeading(line)
  {
    hide IsLanguageLine, IsBlank, IsFence, IsHeading, IsHr, IsRow, IsBlockquote, IsList, Body, Printable;
    var line := PrintRow(cells);
    assert line[0] == '|';
    FirstCharacter(line);
  }

  lemma TableChosen(rest: seq<string>)
    requires |rest| >= 2 && IsRow(rest[0]) && IsTableSeparator(rest[1]) && !IsFence(rest[0]) && !IsBlank(rest[0])
    requires !IsLanguageLine(rest[0]) && !IsContentsHeading(rest[0]) && !IsHr(rest[0]) && !IsHeading(rest[0])
    ensures Choose(rest).TableBranch?
  {
    hide IsLanguageLine, IsBlank, IsContentsHeading, IsFence, IsHeading, IsHr, IsRow, IsTableSeparator;
  }

  lemma GridTaken(header: seq<string>, marks: seq<Mark>, rows: seq<seq<string>>, t: seq<string>)
    requires var p := Grid(header, marks, rows); Sound(p) && Follows(p, t)
    ensures var p := Grid(header, marks, rows);
            Take(Lines(p) + t) == Item(|Lines(p)|, Made(Table(header, Meanings(marks), rows)))
  {
    hide IsLanguageLine, IsBlank, IsContentsHeading, IsFence, IsHeading, IsHr, IsRow, IsBlockquote, IsList;
    hide Choose, Take, PrintRow, RowCells, Aligns, IsTableSeparator, Printable, Markers, Meanings;
    var a := Lines(Grid(header, marks, rows));
    assert a[0] == PrintRow(header) && a[1] == PrintRow(Markers(marks));
    RowLine(header);
    SeparatorLine(marks);
    assert (a + t)[0] == a[0] && (a + t)[1] == a[1];
    TableChosen(a + t);
    forall i | 2 <= i < |a|
      ensures IsRow((a + t)[i]) && (a + t)[i] == PrintRow(rows[i - 2])
    {
      RowLine(rows[i - 2]);
    }
    assert t != [] ==> (a + t)[|a|] == t[0];
    EndIs(InTable, a + t, 2, |a|);
    Turn(a, t, TableBranch);
    RowRoundTrip(header);
    forall i | 0 <= i < |rows|
      ensures Rows(a[2..])[i] == rows[i]
    {
      RowRoundTrip(rows[i]);
    }
    assert Rows(a[2..]) == rows;
  }

  // ----- running text, and what does not show -----

  lemma ProseChosen(rest: seq<string>)
    requires rest != [] && Plain(rest[0]) && !IsLanguageLine(rest[0]) && !IsTableStart(rest, 0)
    ensures Choose(rest).ParagraphBranch?
  {
    hide IsLanguageLine, IsBlank, IsFence, IsHeading, IsHr, IsTableStart, IsBlockquote, IsList;
  }

  lemma ProseTaken(lines: seq<string>, t: seq<string>)
    requires Sound(Prose(lines)) && Follows(Prose(lines), t)
    ensures Take(lines + t) == Item(|lines|, Made(Paragraph(lines)))
  {
    hide IsLanguageLine, IsBlank, IsFence, IsHeading, IsHr, IsRow, IsTableSeparator, IsBlockquote, IsList, Choose, Take;
    var all := lines + t;
    forall i | 0 <= i < |lines|
      ensures Plain(all[i]) && !IsTableStart(all, i)
    {
      assert all[i] == lines[i];
      if i + 1 < |lines| {
        assert all[i + 1] == lines[i + 1];
      } else if t != [] {
        assert all[i + 1] == t[0];
        NoSeparatorNext(lines, t);
      }
    }
    ProseChosen(all);
    if t != [] {
      assert all[|lines|] == t[0];
      if |t| > 1 { assert all[|lines| + 1] == t[1]; }
    }
    EndIs(InParagraph, all, 1, |lines|);
    Turn(lines, t, ParagraphBranch);
  }

  lemma NoSeparatorNext(lines: seq<string>, t: seq<string>)
    requires Sound(Prose(lines)) && Follows(Prose(lines), t) && t != []
    ensures !(IsRow(lines[|lines| - 1]) && IsTableSeparator(t[0]))
  {
    hide IsRow, IsTableSeparator, Stops;
  }

  lemma LanguageTaken(tag: string, rest: string, t: seq<string>)
    requires Sound(Language(tag, rest))
    ensures Take(Lines(Language(tag, rest)) + t) == Item(1, Nothing)
  {
    hide IsLanguageLine, Take, Choose;
    LanguageLine(tag, rest);
    var a := Lines(Language(tag, rest));
    assert (a + t)[0] == tag + rest;
    LanguageChosen(a + t);
    Turn(a, t, Skipped);
  }

  lemma LanguageChosen(rest: seq<string>)
    requires rest != [] && IsLanguageLine(rest[0])
    ensures Choose(rest).Skipped?
  {
    hide IsLanguageLine;
  }

  lemma LanguageLine(tag: string, rest: string)
    requires tag in {"**语言:", "**语言：", "**Language:", "**Language："}
    ensures (tag + rest) != "" && (tag + rest)[0] == '*' && IsLanguageLine(tag + rest)
  {
    hide IsLanguageLine, IsSpace;
    var line := tag + rest;
    assert tag[0] == '*' && tag <= line && line[0..] == line;
    assert LanguageAt(line, 0);
    LanguageTest(line);
  }

  lemma ContentsTaken(title: string, entries: seq<string>, t: seq<string>)
    requires Sound(Contents(title, entries))
    ensures var p := Contents(title, entries); Take(Lines(p) + t) == Item(|Lines(p)|, Nothing)
  {
    hide IsLanguageLine, IsBlank, IsContentsHeading, IsHeading, IsHr, Choose, Take, NamesContents, Trimmed;
    var a, first := Lines(Contents(title, entries)), "## " + title;
    ContentsLine(first, title);
    assert a == [first] + entries + ["---"] && (a + t)[0] == first;
    ContentsChosen(a + t);
    forall i | 1 <= i < |a| - 1
      ensures !Stops(InContents, a + t, i)
    {
      assert (a + t)[i] == entries[i - 1];
    }
    assert (a + t)[|a| - 1] == "---";
    RuleLine("---");
    EndIs(InContents, a + t, 1, |a| - 1);
    Turn(a, t, ContentsBranch);
  }

  lemma ContentsChosen(rest: seq<string>)
    requires rest != [] && IsContentsHeading(rest[0]) && !IsLanguageLine(rest[0]) && !IsBlank(rest[0])
    ensures Choose(rest).ContentsBranch?
  {
    hide IsLanguageLine, IsBlank, IsContentsHeading;
  }

  lemma ContentsLine(line: string, title: string)
    requires line == "## " + title && Trimmed(title) && NamesContents(title)
    ensures line[0] == '#' && IsContentsHeading(line) && IsHeading(line) && !IsLanguageLine(line) && !IsBlank(line)
  {
    hide IsContentsHeading, IsHeading, IsLanguageLine, IsBlank, IsFence, IsHr, IsRow, IsList, NamesContents;
    assert title != "" by { ContentsIsNamed(title); }
    assert "## " == "##" + " " && Hashes(2) == "##" by { TwoHashes(); }
    assert Hashes(2) + " " + title == line;
    TitleLine(2, title);
    FirstCharacter(line);
  }

  lemma TwoHashes()
    ensures Hashes(2) == "##" && "## " == "##" + " "
  {
    assert Hashes(1) == "#" + Hashes(0);
  }

  lemma ContentsIsNamed(title: string)
    requires NamesContents(title)
    ensures title != ""
  {
    assert |"目录"| == 2 && |"table of contents"| == 17;
    assert |LowerAscii(title)| == |title|;
  }

  // ----- any piece -----

  // One turn over a piece, whatever may follow it, takes its lines and makes what it shows as.
  lemma PieceTaken(p: Piece, t: seq<string>)
    requires Sound(p) && Follows(p, t)
    ensures Lines(p) != []
    ensures Take(Lines(p) + t) == Item(|Lines(p)|, if Shows(p) == [] then Nothing else Made(Shows(p)[0]))
  {
    hide Take;
    match p
    case Fenced(name, code) => FencedTaken(name, code, t);
    case Title(level, text) => TitleTaken(level, text, t);
    case Line => LineTaken(t);
    case Grid(header, marks, rows) => GridTaken(header, marks, rows, t);
    case Quoted(quote) => QuotedTaken(quote, t);
    case Listed(items) => ListedTaken(items, t);
    case Prose(lines) => ProseTaken(lines, t);
    case Language(tag, rest) => LanguageTaken(tag, rest, t);
    case Contents(title, entries) => ContentsTaken(title, entries, t);
  }

  // ----- whole documents -----

  // A piece, and whether a blank line comes after it.
  datatype Part = Part(piece: Piece, gap: bool)

  // What may stand right behind what, without a blank line.
  predicate MayTouch(p: Piece, q: Piece)
    requires Sound(p) && Sound(q)
  {
    match p
    case Quoted(_) => !q.Quoted?
    case Listed(_) => !q.Listed?
    case Grid(_, _, _) => !q.Grid? && !(q.Prose? && IsRow(q.lines[0]))
    case Prose(lines) => !q.Prose? && !q.Language? && !(IsRow(lines[|lines| - 1]) && IsTableSeparator(Lines(q)[0]))
    case _ => true
  }

  predicate WellMade(doc: seq<Part>) {
    && (forall i :: 0 <= i < |doc| ==> Sound(doc[i].piece))
    && forall i :: 0 <= i < |doc| - 1 ==> doc[i].gap || MayTouch(doc[i].piece, doc[i + 1].piece)
  }

  function Print(doc: seq<Part>): seq<string>
    requires forall i :: 0 <= i < |doc| ==> Sound(doc[i].piece)
  {
    if doc == [] then []
    else Lines(doc[0].piece) + (if doc[0].gap then [""] else []) + Print(doc[1..])
  }

  function ShowsAll(doc: seq<Part>): seq<Block> {
    if doc == [] then [] else Shows(doc[0].piece) + ShowsAll(doc[1..])
  }

  lemma BlankFollows(p: Piece, t: seq<string>)
    requires Sound(p) && t != [] && t[0] == ""
    ensures Follows(p, t)
  {
    EmptySeparatesNothing();
    BlankStops(InParagraph, t, 0);
    hide Stops, IsTableSeparator;
  }

  // The first character of a piece that is not running text.
  lemma FirstOf(q: Piece)
    requires Sound(q) && !q.Prose?
    ensures Lines(q) != [] && Lines(q)[0] != ""
    ensures var c := Lines(q)[0][0];
            match q
            case Fenced(_, _) => c == '`' && IsFence(Lines(q)[0])
            case Title(_, _) => c == '#' && IsHeading(Lines(q)[0])
            case Line => c == '-' && IsHr(Lines(q)[0]) && !IsList(Lines(q)[0])
            case Grid(_, _, _) => c == '|' && |Lines(q)| >= 2 && IsTableSeparator(Lines(q)[1])
            case Quoted(_) => c == '>'
            case Listed(_) => c == '-' && IsList(Lines(q)[0])
            case Language(_, _) => c == '*'
            case Contents(_, _) => c == '#' && IsHeading(Lines(q)[0])
  {
    hide IsLanguageLine, IsBlank, IsContentsHeading, IsFence, IsHeading, IsHr, IsRow, IsBlockquote, IsList;
    hide IsTableSeparator, PrintRow, Printable, Trimmed, NamesContents, Html.IsInherited, Markers, IsLineTerminator;
    var line := Lines(q)[0];
    match q
    case Fenced(name, _) => NamedFence(line, name);
    case Title(level, text) => TitleLine(level, text);
    case Line => RuleLine(line); RuleFirst(line);
    case Grid(header, marks, _) => RowLine(header); SeparatorLine(marks);
    case Quoted(quote) => QuoteLine(line, quote[0]);
    case Listed(items) => ListLine(line, items[0]);
    case Language(tag, rest) => LanguageLine(tag, rest);
    case Contents(title, _) => ContentsLine(line, title);
  }

  lemma RuleFirst(line: string)
    requires line == "---"
    ensures line != "" && line[0] == '-'
  {
  }

  // The first line of a piece starts that kind of piece, and no other.
  lemma FirstLine(q: Piece, rest: seq<string>)
    requires Sound(q)
    ensures Lines(q) != []
    ensures !q.Prose? && !q.Language? ==> Stops(InParagraph, Lines(q) + rest, 0)
    ensures !q.Quoted? ==> !IsBlockquote(Lines(q)[0])
    ensures !q.Listed? ==> !IsList(Lines(q)[0])
    ensures !q.Grid? && !q.Prose? ==> !IsRow(Lines(q)[0])
  {
    hide IsLanguageLine, IsBlank, IsContentsHeading, IsFence, IsHeading, IsHr, IsRow, IsBlockquote, IsList, Lines;
    hide IsTableSeparator;
    if q.Prose? {
      ProseFirst(q);
    } else {
      FirstOf(q);
      FirstCharacter(Lines(q)[0]);
      var all := Lines(q) + rest;
      assert all[0] == Lines(q)[0];
      if q.Grid? { assert all[1] == Lines(q)[1]; }
    }
  }

  lemma ProseFirst(q: Piece)
    requires Sound(q) && q.Prose?
    ensures Lines(q) != [] && !IsBlockquote(Lines(q)[0]) && !IsList(Lines(q)[0])
  {
    hide IsLanguageLine, IsBlank, IsFence, IsHeading, IsHr, IsRow, IsBlockquote, IsList;
    assert Plain(q.lines[0]);
  }

  lemma PartFollows(doc: seq<Part>)
    requires WellMade(doc) && doc != []
    ensures Follows(doc[0].piece, (if doc[0].gap then [""] else []) + Print(doc[1..]))
  {
    hide Sound, Lines, Stops, IsRow, IsTableSeparator, IsBlockquote, IsList;
    var p, rest := doc[0].piece, Print(doc[1..]);
    if doc[0].gap {
      BlankFollows(p, [""] + rest);
    } else if |doc| > 1 {
      var q := doc[1].piece;
      var more := (if doc[1].gap then [""] else []) + Print(doc[2..]);
      assert doc[1..][0] == doc[1] && doc[1..][1..] == doc[2..];
      assert rest == Lines(q) + more;
      FirstLine(q, more);
      assert MayTouch(p, q);
      TouchFollows(p, q, more);
      assert [] + rest == rest;
    } else {
      assert doc[1..] == [];
    }
  }

  lemma TouchFollows(p: Piece, q: Piece, more: seq<string>)
    requires Sound(p) && Sound(q) && MayTouch(p, q)
    ensures Follows(p, Lines(q) + more)
  {
    hide Sound, Stops, IsRow, IsTableSeparator, IsBlockquote, IsList;
    FirstLine(q, more);
    assert (Lines(q) + more)[0] == Lines(q)[0];
  }

  lemma OneShown(p: Piece)
    ensures MadeBy(if Shows(p) == [] then Nothing else Made(Shows(p)[0])) == Shows(p)
  {
  }

  lemma NothingRead()
    ensures Clean(Parse([])) && BlocksIn([]) == []
  {
  }

  // The scan goes on behind a piece as if it began there.
  lemma AfterPiece(a: seq<string>, t: seq<string>)
    requires a != [] && Take(a + t).size == |a| && !Take(a + t).out.Throws?
    ensures Clean(Parse(a + t)) <==> Clean(Parse(t))
    ensures BlocksIn(a + t) == MadeBy(Take(a + t).out) + BlocksIn(t)
  {
    hide Take, Parse, Clean, BlocksIn;
    if t == [] {
      TurnLast(a + t);
      NothingRead();
    } else {
      TurnMore(a + t);
      assert (a + t)[|a|..] == t;
    }
  }

  lemma GapReads(gap: bool, rest: seq<string>)
    ensures var t := (if gap then [""] else []) + rest;
            (Clean(Parse(t)) <==> Clean(Parse(rest))) && BlocksIn(t) == BlocksIn(rest)
  {
    hide Take, Parse, Clean, BlocksIn;
    if gap {
      BlankLine([""] + rest);
      AfterPiece([""], rest);
      assert MadeBy(Nothing) + BlocksIn(rest) == BlocksIn(rest);
    } else {
      assert [] + rest == rest;
    }
  }

  // A printed document, whatever stands in it and wherever blank lines are left out that need not be
  // there, is read back as the blocks it was made of.
  lemma {:induction false} ReadsBack(doc: seq<Part>)
    requires WellMade(doc)
    ensures Clean(Parse(Print(doc))) && BlocksIn(Print(doc)) == ShowsAll(doc)
    decreases |doc|
  {
    hide Take, Parse, Clean, Lines, Shows, Sound, MayTouch, Follows, BlocksIn;
    if doc == [] {
      NothingRead();
    } else {
      var p, gap := doc[0].piece, if doc[0].gap then [""] else [];
      var rest := Print(doc[1..]);
      ReadsBack(doc[1..]);
      PartFollows(doc);
      PieceTaken(p, gap + rest);
      assert Print(doc) == Lines(p) + (gap + rest);
      OneShown(p);
      AfterPiece(Lines(p), gap + rest);
      GapReads(doc[0].gap, rest);
    }
  }

  // And so is its text, with either kind of line break.
  lemma PageReadsBack(doc: seq<Part>, crlf: seq<bool>)
    requires WellMade(doc) && doc != [] && |crlf| == |Print(doc)|
    requires forall i :: 0 <= i < |Print(doc)| ==> '\n' !in Print(doc)[i]
    requires forall i :: 0 <= i < |Print(doc)| - 1 && !crlf[i] ==>
               Print(doc)[i] == "" || Print(doc)[i][|Print(doc)[i]| - 1] != '\r'
    ensures Print(doc) != []
    ensures var lines := SplitLines(JoinBreaks(Print(doc), crlf));
            Clean(Parse(lines)) && BlocksIn(lines) == ShowsAll(doc)
  {
    hide Parse, Clean, BlocksIn, Sound, Follows, MayTouch, SplitLines, JoinBreaks;
    PartFollows(doc);
    PieceTaken(doc[0].piece, (if doc[0].gap then [""] else []) + Print(doc[1..]));
    LinesRoundTrip(Print(doc), crlf);
    ReadsBack(doc);
  }

  // ----- other ways to write the same line -----

  lemma LooseHeading(level: nat, gap: string, text: string, after: string)
    requires 1 <= level <= 4 && gap != "" && AllSpace(gap) && AllSpace(after) && text != "" && Trimmed(text)
    requires forall i :: 0 <= i < |text + after| ==> !IsLineTerminator((text + after)[i])
    ensures HeadingOut(Hashes(level) + gap + text + after) == Made(Heading(level, text))
  {
    hide Trim, IsSpace, IsLineTerminator, CountHashes, SkipSpace, Hashes, IsHeading, HeadingOut, Trimmed;
    var line := Hashes(level) + gap + text + after;
    LooseHashes(line, level, gap, text, after);
    TrimPadding("", text, after);
    assert "" + text + after == text + after;
    MadeHeading(line, level, text, text + after);
  }

  lemma LooseBullet(before: string, gap: string, text: string)
    requires AllSpace(before) && AllSpace(gap) && gap != "" && text != "" && !IsSpace(text[0])
    ensures IsList(before + "-" + gap + text) && Unbulleted(before + "-" + gap + text) == text
  {
    hide IsSpace;
    var line, n := before + "-" + gap + text, |before|;
    assert "-" == ['-'] && line[n] == '-' && !IsSpace('-') by { DashIsNoSpace(); }
    assert line[n + 1..n + 1 + |gap|] == gap && line[..n] == before;
    assert forall k :: n + 1 <= k < n + 1 + |gap| ==> line[k] == gap[k - n - 1];
    assert forall k :: 0 <= k < n ==> line[k] == before[k];
    SkipOver(line, 0, n);
    assert line[n + 1 + |gap|] == text[0];
    SkipOver(line, n + 1, n + 1 + |gap|);
    assert line[n + 1 + |gap|..] == text;
  }

  lemma DashIsNoSpace()
    ensures !IsSpace('-')
  {
  }

  lemma LooseQuote(text: string)
    ensures Unquoted(">" + text) == if text != "" && IsSpace(text[0]) then text[1..] else text
  {
    hide IsSpace;
    var line := ">" + text;
    assert ">" == ['>'] && line[1..] == text && (text != "" ==> line[1] == text[0] && line[2..] == text[1..]);
  }

  // One to any number of dashes, and white space around the colons.
  lemma LooseMarker(before: string, m: Mark, dashes: string, after: string)
    requires AllSpace(before) && AllSpace(after) && dashes != "" && forall i :: 0 <= i < |dashes| ==> dashes[i] == '-'
    ensures var s := (if m.left then ":" else "") + dashes + (if m.right then ":" else "");
            AlignOf(before + s + after) == Meaning(m)
  {
    hide Trim;
    var s := (if m.left then ":" else "") + dashes + (if m.right then ":" else "");
    assert ":" == [':'];
    TrimPadding(before, s, after);
  }
}
