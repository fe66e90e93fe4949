// The block level of the Markdown converter: which lines make which block. `Take` is one turn of
// the scanner's main loop, told on the lines from the cursor on; `Parse` is the whole scan.

module Blocks {
  import opened Text
  import opened TableRow
  import Html

  datatype Align = Left | Center | Right

  datatype Block =
    | Code(lang: string, lines: seq<string>)
    | Heading(level: nat, text: string)
    | Rule
    | Table(header: seq<string>, aligns: seq<Align>, rows: seq<seq<string>>)
    | Quote(lines: seq<string>)
    | Bullets(items: seq<string>)
    | Paragraph(lines: seq<string>)

  // ----- the inner loops -----

  // Each inner loop advances while its kind of line lasts.
  datatype Span = InFence | InContents | InTable | InQuote | InList | InParagraph

  predicate Stops(span: Span, lines: seq<string>, k: nat)
    requires k < |lines|
  {
    match span
    case InFence => IsFence(lines[k])
    case InContents => IsHr(lines[k])
    case InTable => !IsRow(lines[k])
    case InQuote => !IsBlockquote(lines[k])
    case InList => !IsList(lines[k])
    case InParagraph =>
      || IsBlank(lines[k]) || IsFence(lines[k]) || IsHeading(lines[k]) || IsHr(lines[k])
      || IsBlockquote(lines[k]) || IsList(lines[k]) || IsTableStart(lines, k)
  }

  // Where the loop stops when it starts at `j`.
  function End(span: Span, lines: seq<string>, j: nat): (k: nat)
    requires j <= |lines|
    ensures j <= k <= |lines|
    decreases |lines| - j
  {
    if j < |lines| && !Stops(span, lines, j) then End(span, lines, j + 1) else j
  }

  // ----- what a line contributes -----

  // The rewrites below leave a line alone when their pattern does not match.

  // Language of a fence; "text" when none is given.
  function Lang(line: string): string {
    var t := Trim(if IsFence(line) then line[3..] else line);
    if t == "" then "text" else t
  }

  function Unquoted(line: string): string {
    if !IsBlockquote(line) then line
    else if |line| > 1 && IsSpace(line[1]) then line[2..]
    else line[1..]
  }

  function Unbulleted(line: string): string {
    if IsList(line) then line[SkipSpace(line, SkipSpace(line, 0) + 1)..] else line
  }

  function UnquotedAll(lines: seq<string>): seq<string> {
    seq(|lines|, i requires 0 <= i < |lines| => Unquoted(lines[i]))
  }

  function UnbulletedAll(lines: seq<string>): seq<string> {
    seq(|lines|, i requires 0 <= i < |lines| => Unbulleted(lines[i]))
  }

  // Where the text of a heading starts: after the hashes and all the white space.
  function HeadingStart(line: string): nat
    requires IsHeading(line)
  {
    SkipSpace(line, CountHashes(line))
  }

  // The pattern for the text stops at a line terminator, and a heading it does not match makes
  // the converter throw.
  predicate HeadingMatches(line: string)
    requires IsHeading(line)
  {
    forall i :: HeadingStart(line) <= i < |line| ==> !IsLineTerminator(line[i])
  }

  function AlignOf(cell: string): Align {
    var t := Trim(cell);
    if t != "" && t[|t| - 1] == ':' then (if t[0] == ':' then Center else Right) else Left
  }

  function Aligns(cells: seq<string>): seq<Align> {
    seq(|cells|, i requires 0 <= i < |cells| => AlignOf(cells[i]))
  }

  function Rows(lines: seq<string>): seq<seq<string>> {
    seq(|lines|, i requires 0 <= i < |lines| => RowCells(lines[i]))
  }

  // ----- one turn of the main loop -----

  datatype Out = Nothing | Made(block: Block) | Throws

  // `size` is how far the cursor moves, which can be one past the last line.
  datatype Item = Item(size: nat, out: Out)

  // Which branch of the main loop the next line takes; the order of the tests matters.
  datatype Branch =
    | Skipped | ContentsBranch | FenceBranch | HeadingBranch | RuleBranch
    | TableBranch | QuoteBranch | ListBranch | ParagraphBranch

  function Choose(rest: seq<string>): Branch
    requires rest != []
  {
    var line := rest[0];
    if IsLanguageLine(line) || IsBlank(line) then Skipped
    else if IsContentsHeading(line) then ContentsBranch
    else if IsFence(line) then FenceBranch
    else if IsHeading(line) then HeadingBranch
    else if IsHr(line) then RuleBranch
    else if IsTableStart(rest, 0) then TableBranch
    else if IsBlockquote(line) then QuoteBranch
    else if IsList(line) then ListBranch
    else ParagraphBranch
  }

  lemma Chosen(rest: seq<string>)
    requires rest != []
    ensures Choose(rest).TableBranch? ==> |rest| >= 2
    ensures Choose(rest).QuoteBranch? ==> !Stops(InQuote, rest, 0)
    ensures Choose(rest).ListBranch? ==> !Stops(InList, rest, 0)
    ensures Choose(rest).HeadingBranch? ==> IsHeading(rest[0])
    ensures Choose(rest).FenceBranch? ==> IsFence(rest[0])
  {
    hide IsLanguageLine, IsBlank, IsContentsHeading, IsFence, IsHeading, IsHr, IsRow, IsTableSeparator,
         IsBlockquote, IsList;
  }

  // Rendering is what throws here, at a fence named like a property every object has.
  function FenceOut(line: string, code: seq<string>): Out {
    if Html.IsInherited(Lang(line)) then Throws else Made(Code(Lang(line), code))
  }

  function HeadingOut(line: string): Out {
    if IsHeading(line) && HeadingMatches(line) then
      Made(Heading(CountHashes(line), Trim(line[HeadingStart(line)..])))
    else Throws
  }

  // How many lines the block or the skipped section has, not counting what closes it.
  function Extent(branch: Branch, rest: seq<string>): (k: nat)
    requires rest != [] && branch == Choose(rest)
    ensures 1 <= k <= |rest|
    ensures branch.TableBranch? ==> k >= 2
  {
    Chosen(rest);
    match branch
    case ContentsBranch => End(InContents, rest, 1)
    case FenceBranch => End(InFence, rest, 1)
    case TableBranch => End(InTable, rest, 2)
    case QuoteBranch => End(InQuote, rest, 0)
    case ListBranch => End(InList, rest, 0)
    case ParagraphBranch => End(InParagraph, rest, 1)
    case _ => 1
  }

  // What is made of those lines.
  function Build(branch: Branch, lines: seq<string>): Out
    requires lines != [] && (branch.TableBranch? ==> |lines| >= 2)
  {
    match branch
    case Skipped => Nothing
    case ContentsBranch => Nothing
    case FenceBranch => FenceOut(lines[0], lines[1..])
    case HeadingBranch => HeadingOut(lines[0])
    case RuleBranch => Made(Rule)
    case TableBranch => Made(Table(RowCells(lines[0]), Aligns(RowCells(lines[1])), Rows(lines[2..])))
    case QuoteBranch => Made(Quote(UnquotedAll(lines)))
    case ListBranch => Made(Bullets(UnbulletedAll(lines)))
    case ParagraphBranch => Made(Paragraph(lines))
  }

  // The closing fence, and the rule after the contents, are consumed blindly.
  function Take(rest: seq<string>): (it: Item)
    requires rest != []
    ensures 1 <= it.size <= |rest| + 1
  {
    var branch := Choose(rest);
    var k := Extent(branch, rest);
    Item(if branch.ContentsBranch? || branch.FenceBranch? then k + 1 else k, Build(branch, rest[..k]))
  }

  // ----- the whole scan -----

  function Parse(lines: seq<string>): seq<Item>
    decreases |lines|
  {
    if lines == [] then []
    else
      var it := Take(lines);
      if it.out.Throws? || it.size >= |lines| then [it] else [it] + Parse(lines[it.size..])
  }

  predicate Clean(items: seq<Item>) {
    forall i :: 0 <= i < |items| ==> !items[i].out.Throws?
  }

  function Total(items: seq<Item>): nat {
    if items == [] then 0 else items[0].size + Total(items[1..])
  }

  function BlocksOf(items: seq<Item>): seq<Block> {
    if items == [] then []
    else (if items[0].out.Made? then [items[0].out.block] else []) + BlocksOf(items[1..])
  }

  // ----- every line is consumed once, in order -----

  // The lines each item took.
  function Pieces(lines: seq<string>, items: seq<Item>): seq<seq<string>>
    decreases |items|
  {
    if items == [] then []
    else if items[0].size >= |lines| then [lines] + Pieces([], items[1..])
    else [lines[..items[0].size]] + Pieces(lines[items[0].size..], items[1..])
  }

  function Flatten(pieces: seq<seq<string>>): seq<string> {
    if pieces == [] then [] else pieces[0] + Flatten(pieces[1..])
  }

  // A fence or a contents section whose end was never found.
  predicate Unterminated(piece: seq<string>) {
    piece != [] &&
    (Choose(piece).ContentsBranch? || Choose(piece).FenceBranch?) && Extent(Choose(piece), piece) == |piece|
  }

  lemma TakeTooFar(rest: seq<string>)
    requires rest != []
    ensures Take(rest).size == |rest| + 1 <==> Unterminated(rest)
  {
    hide Choose;
  }

  lemma {:induction false} EndOfPrefix(span: Span, lines: seq<string>, m: nat, j: nat)
    requires j <= m <= |lines| && End(span, lines, j) <= m
    requires m == End(span, lines, j) || ((span.InFence? || span.InContents?) && m == End(span, lines, j) + 1)
    ensures End(span, lines[..m], j) == End(span, lines, j)
    decreases |lines| - j
  {
    hide Stops;
    if j < |lines| && !Stops(span, lines, j) {
      EndOfPrefix(span, lines, m, j + 1);
      StopsInPrefix(span, lines, m, j);
    } else if j < m {
      StopsInPrefix(span, lines, m, j);
    }
  }

  lemma StopsInPrefix(span: Span, lines: seq<string>, m: nat, j: nat)
    requires j < m <= |lines|
    ensures Stops(span, lines[..m], j) ==> Stops(span, lines, j)
    ensures span.InFence? || span.InContents? ==> (Stops(span, lines, j) <==> Stops(span, lines[..m], j))
  {
    assert lines[..m][j] == lines[j];
    if j + 1 < m { assert lines[..m][j + 1] == lines[j + 1]; }
  }

  lemma ChooseOwn(rest: seq<string>, m: nat)
    requires rest != [] && 1 <= m <= |rest| && (Choose(rest).TableBranch? ==> m >= 2)
    ensures Choose(rest[..m]) == Choose(rest)
  {
    hide IsLanguageLine, IsBlank, IsContentsHeading, IsFence, IsHeading, IsHr, IsRow, IsTableSeparator,
         IsBlockquote, IsList;
    assert rest[..m][0] == rest[0];
    if m >= 2 { assert rest[..m][1] == rest[1]; }
  }

  lemma ExtentOwn(rest: seq<string>, m: nat)
    requires rest != [] && m == Take(rest).size <= |rest|
    ensures Choose(rest[..m]) == Choose(rest) && Extent(Choose(rest), rest[..m]) == Extent(Choose(rest), rest)
  {
    hide Choose, Build, End, Stops;
    Chosen(rest);
    ChooseOwn(rest, m);
    match Choose(rest)
    case ContentsBranch => EndOfPrefix(InContents, rest, m, 1);
    case FenceBranch => EndOfPrefix(InFence, rest, m, 1);
    case TableBranch => EndOfPrefix(InTable, rest, m, 2);
    case QuoteBranch => EndOfPrefix(InQuote, rest, m, 0);
    case ListBranch => EndOfPrefix(InList, rest, m, 0);
    case ParagraphBranch => EndOfPrefix(InParagraph, rest, m, 1);
    case _ =>
  }

  // The lines of a block, alone, make the same block: nothing else in the document matters.
  lemma OwnLines(rest: seq<string>)
    requires rest != [] && Take(rest).size <= |rest|
    ensures Take(rest[..Take(rest).size]) == Take(rest)
  {
    hide Choose, Build, Extent;
    var m := Take(rest).size;
    ExtentOwn(rest, m);
    TakeTwice(rest, Extent(Choose(rest), rest), m);
  }

  lemma TakeTwice<T>(s: seq<T>, k: nat, m: nat)
    requires k <= m <= |s|
    ensures s[..m][..k] == s[..k]
  {
  }

  // The items take the lines apart: the pieces put together are the lines, each item is what its
  // own lines make, and only an unterminated section at the end moves the cursor one too far.
  ghost predicate Partitions(lines: seq<string>, items: seq<Item>) {
    var pieces := Pieces(lines, items);
    && Flatten(pieces) == lines && |pieces| == |items|
    && (forall i :: 0 <= i < |pieces| ==> pieces[i] != [] && Take(pieces[i]) == items[i])
    && |lines| <= Total(items) <= |lines| + 1
    && (Total(items) == |lines| + 1 <==> pieces != [] && Unterminated(pieces[|pieces| - 1]))
  }

  lemma {:induction false} Partition(lines: seq<string>)
    requires Clean(Parse(lines))
    ensures Partitions(lines, Parse(lines))
    decreases |lines|
  {
    hide Take, Partitions;
    if lines == [] {
      NoPieces();
    } else {
      var it := Take(lines);
      assert !it.out.Throws? by { assert Parse(lines)[0] == it; }
      hide Parse, Clean;
      if it.size >= |lines| {
        ParseLast(lines);
        PartitionLast(lines);
      } else {
        ParseMore(lines);
        Partition(lines[it.size..]);
        OwnLines(lines);
        PartitionMore(lines, Parse(lines[it.size..]));
      }
    }
  }

  lemma NoPieces()
    ensures Partitions([], [])
  {
  }

  lemma PartitionLast(lines: seq<string>)
    requires lines != [] && Take(lines).size >= |lines|
    ensures Partitions(lines, [Take(lines)])
  {
    hide Take, Unterminated, Pieces, Flatten, Total;
    TakeTooFar(lines);
    var it := Take(lines);
    assert it.size <= |lines| + 1;
    OnePiece(lines, it);
  }

  lemma OnePiece(lines: seq<string>, it: Item)
    requires it.size >= |lines|
    ensures Pieces(lines, [it]) == [lines] && Flatten([lines]) == lines && Total([it]) == it.size
  {
    assert [it][1..] == [] && [lines][1..] == [];
    assert Pieces([], []) == [] && Flatten([]) == [] && lines + [] == lines;
  }

  lemma PartitionMore(lines: seq<string>, items: seq<Item>)
    requires lines != [] && Take(lines).size < |lines| && Take(lines[..Take(lines).size]) == Take(lines)
    requires Partitions(lines[Take(lines).size..], items)
    ensures Partitions(lines, [Take(lines)] + items)
  {
    hide Take, Unterminated;
    var it := Take(lines);
    var first, rest, all := lines[..it.size], lines[it.size..], [it] + items;
    assert first + rest == lines;
    var pieces := Pieces(rest, items);
    assert all[1..] == items;
    assert Pieces(lines, all) == [first] + pieces;
    hide Pieces;
    assert Flatten([first] + pieces) == first + Flatten(pieces) by { assert ([first] + pieces)[1..] == pieces; }
    assert pieces != [];
    assert ([first] + pieces)[|pieces|] == pieces[|pieces| - 1];
  }

  // The lines a turn throws on: a heading with a line terminator left in its text (a stray carriage
  // return, or one of the two Unicode separators), and a fence with an inherited name.
  predicate Bad(rest: seq<string>)
    requires rest != []
  {
    || (Choose(rest).HeadingBranch? && IsHeading(rest[0]) && !HeadingMatches(rest[0]))
    || (Choose(rest).FenceBranch? && Html.IsInherited(Lang(rest[0])))
  }

  lemma ThrowsExactly(rest: seq<string>)
    requires rest != []
    ensures Take(rest).out.Throws? <==> Bad(rest)
  {
    hide Choose, Extent, Build, IsHeading, HeadingMatches, Html.IsInherited, Lang;
    Chosen(rest);
    var branch, k := Choose(rest), Extent(Choose(rest), rest);
    BuildThrows(branch, rest[..k]);
    assert rest[..k][0] == rest[0];
  }

  lemma BuildThrows(branch: Branch, lines: seq<string>)
    requires lines != [] && (branch.TableBranch? ==> |lines| >= 2)
    ensures Build(branch, lines).Throws? <==>
            || (branch.HeadingBranch? && !(IsHeading(lines[0]) && HeadingMatches(lines[0])))
            || (branch.FenceBranch? && Html.IsInherited(Lang(lines[0])))
  {
    hide IsHeading, HeadingMatches, Html.IsInherited, Lang, RowCells, Aligns, Rows, UnquotedAll, UnbulletedAll;
  }

  // A turn of the main loop starts at line `k`.
  predicate StartsAt(lines: seq<string>, k: nat): (b: bool)
    ensures b ==> k < |lines|
    decreases |lines|
  {
    && lines != []
    && (k == 0 ||
        var n := Take(lines).size;
        n <= k && n < |lines| && StartsAt(lines[n..], k - n))
  }

  // A page is converted exactly when no turn of its scan starts at a bad line.
  lemma {:induction false} CleanExactly(lines: seq<string>)
    ensures Clean(Parse(lines)) <==> forall k: nat :: StartsAt(lines, k) ==> !Bad(lines[k..])
    decreases |lines|
  {
    if lines == [] {
    } else {
      var n := Take(lines).size;
      ThrowsExactly(lines);
      assert lines[0..] == lines && StartsAt(lines, 0);
      hide Take, Bad;
      if Take(lines).out.Throws? || n >= |lines| {
        ParseLast(lines);
        OneItem(Take(lines));
        assert forall k: nat :: StartsAt(lines, k) && n >= |lines| ==> k == 0;
      } else {
        ParseMore(lines);
        CleanExactly(lines[n..]);
        hide Parse, Clean;
        LaterTurns(lines, n);
      }
    }
  }

  // The turns after the first are those of the rest.
  lemma LaterTurns(lines: seq<string>, n: nat)
    requires lines != [] && n == Take(lines).size < |lines| && !Bad(lines)
    ensures (forall k: nat :: StartsAt(lines, k) ==> !Bad(lines[k..])) <==>
            (forall k: nat :: StartsAt(lines[n..], k) ==> !Bad(lines[n..][k..]))
  {
    hide Take, Bad;
    forall k: nat | StartsAt(lines[n..], k)
      ensures StartsAt(lines, n + k) && lines[n + k..] == lines[n..][k..]
    {
    }
    forall k: nat | StartsAt(lines, k) && k > 0
      ensures k >= n && StartsAt(lines[n..], k - n) && lines[k..] == lines[n..][k - n..]
    {
    }
    assert lines[0..] == lines;
  }

  // Both kinds of bad line occur.
  lemma ThrowingHeading()
    ensures !Clean(Parse(["# a\rb"]))
  {
    hide Take, Choose, IsHeading, HeadingMatches;
    var line := "# a\rb";
    var page := [line];
    HeadingLine();
    assert page[0] == line && Choose(page).HeadingBranch? by { HeadingChosen(page); }
    ThrowsExactly(page);
    ParseLast(page);
    OneItem(Take(page));
  }

  // A trimmed line that does not start with an asterisk is not the language line.
  lemma NotLanguage(line: string)
    requires line != "" && Trimmed(line) && line[0] != '*'
    ensures !IsLanguageLine(line) && !IsBlank(line)
  {
    hide Trim;
    TrimPadding("", line, "");
    assert "" + line + "" == line;
    assert "**语言:"[0] == '*' && "**语言："[0] == '*' && "**Language:"[0] == '*' && "**Language："[0] == '*';
  }

  // What the tests say about that heading.
  lemma HeadingLine()
    ensures var line := "# a\rb";
            IsHeading(line) && !HeadingMatches(line) && !IsFence(line) && !IsBlank(line)
            && !IsLanguageLine(line) && !IsContentsHeading(line)
  {
    hide Trim, IsLanguageLine, IsBlank, CountHashes, SkipSpace;
    var line := "# a\rb";
    assert line == ['#', ' ', 'a', '\r', 'b'];
    HeadingSpaces();
    NotLanguage(line);
    NotFence(line);
    assert IsLineTerminator(line[3]);
    hide IsFence, IsLineTerminator;
  }

  lemma NotFence(line: string)
    requires line != "" && line[0] != '`'
    ensures !IsFence(line)
  {
    assert "```"[0] == '`';
  }

  lemma HeadingSpaces()
    ensures CountHashes("# a\rb") == 1 && SkipSpace("# a\rb", 1) == 2
  {
    var line := "# a\rb";
    assert line == ['#', ' ', 'a', '\r', 'b'];
    assert line[1..][0] == ' ';
    assert CountHashes(line[1..]) == 0;
    assert SkipSpace(line, 2) == 2;
  }

  lemma HeadingChosen(rest: seq<string>)
    requires rest != [] && IsHeading(rest[0]) && !IsFence(rest[0]) && !IsBlank(rest[0])
    requires !IsLanguageLine(rest[0]) && !IsContentsHeading(rest[0])
    ensures Choose(rest).HeadingBranch?
  {
    hide IsLanguageLine, IsBlank, IsContentsHeading, IsFence, IsHeading;
  }

  lemma ThrowingFence()
    ensures !Clean(Parse(["```" + "constructor"]))
  {
    hide Clean, Parse;
    InheritedName();
    FenceThrows("constructor");
  }

  lemma InheritedName()
    ensures Html.IsInherited("constructor") && Trimmed("constructor") && "constructor" != ""
  {
    var name := "constructor";
    assert |name| == 11 && name[0] == 'c' && name[10] == 'r';
  }

  lemma FenceThrows(name: string)
    requires Html.IsInherited(name) && Trimmed(name) && name != ""
    ensures !Clean(Parse(["```" + name]))
  {
    hide Html.IsInherited, Trimmed, Lang, IsFence, IsBlank, IsLanguageLine, IsContentsHeading, Take, Choose;
    var page := ["```" + name];
    assert page[0] == "```" + name;
    FenceLine(name);
    FenceChosen(page);
    ThrowsExactly(page);
    ParseLast(page);
    OneItem(Take(page));
  }

  // What the tests say about a fence with a name.
  lemma FenceLine(name: string)
    requires name != "" && Trimmed(name)
    ensures var line := "```" + name;
            IsFence(line) && Lang(line) == name && !IsBlank(line) && !IsLanguageLine(line) && !IsContentsHeading(line)
  {
    hide IsLanguageLine, IsBlank, Trim;
    var ticks := "```";
    var line := ticks + name;
    assert |ticks| == 3 && ticks[0] == '`' && line[0] == '`' && line[|line| - 1] == name[|name| - 1];
    NotLanguage(line);
    assert CountHashes(line) == 0;
    assert line[3..] == name;
    TrimPadding("", name, "");
    assert "" + name + "" == name;
  }

  lemma FenceChosen(rest: seq<string>)
    requires rest != [] && IsFence(rest[0])
    requires !IsBlank(rest[0]) && !IsLanguageLine(rest[0]) && !IsContentsHeading(rest[0])
    ensures Choose(rest).FenceBranch?
  {
    hide IsLanguageLine, IsBlank, IsContentsHeading, IsFence;
  }

  // ----- where the lines of a code block come from -----

  lemma BuiltCode(rest: seq<string>)
    requires rest != [] && Take(rest).out.Made? && Take(rest).out.block.Code?
    ensures var code := Take(rest).out.block;
            !Html.IsInherited(code.lang) && forall l :: l in code.lines ==> l in rest
  {
    hide Choose, Extent, Build, Html.IsInherited;
    var branch, k := Choose(rest), Extent(Choose(rest), rest);
    BuildCode(branch, rest[..k]);
    forall l | l in rest[..k][1..]
      ensures l in rest
    {
      var i :| 0 <= i < |rest[..k][1..]| && rest[..k][1..][i] == l;
      assert rest[i + 1] == l;
    }
  }

  lemma BuildCode(branch: Branch, lines: seq<string>)
    requires lines != [] && (branch.TableBranch? ==> |lines| >= 2)
    requires Build(branch, lines).Made? && Build(branch, lines).block.Code?
    ensures var code := Build(branch, lines).block; code.lines == lines[1..] && !Html.IsInherited(code.lang)
  {
    hide Lang, Html.IsInherited, IsHeading, HeadingMatches, Rows, Aligns, RowCells, UnquotedAll, UnbulletedAll;
  }

  // A code block made of some of these lines, whose name is not an inherited one.
  ghost predicate Fenced(block: Block, lines: seq<string>) {
    block.Code? ==> !Html.IsInherited(block.lang) && forall l :: l in block.lines ==> l in lines
  }

  lemma FencedInRest(block: Block, lines: seq<string>, k: nat)
    requires k <= |lines| && Fenced(block, lines[k..])
    ensures Fenced(block, lines)
  {
    hide Html.IsInherited;
  }

  lemma TakenFenced(rest: seq<string>)
    requires rest != [] && Take(rest).out.Made?
    ensures Fenced(Take(rest).out.block, rest)
  {
    hide Take, Html.IsInherited;
    if Take(rest).out.block.Code? { BuiltCode(rest); }
  }

  // Every code block of a page is made of lines of the page.
  lemma {:induction false} CodeLines(lines: seq<string>, j: nat)
    requires j < |BlocksIn(lines)|
    ensures Fenced(BlocksIn(lines)[j], lines)
    decreases |lines|
  {
    hide BlocksIn, Take, Fenced;
    if lines == [] {
      NoBlocks();
    } else {
      var it := Take(lines);
      var first := MadeBy(it.out);
      if j < |first| {
        TakenFenced(lines);
        FirstTurn(lines, j);
      } else {
        FirstTurn(lines, j);
        CodeLines(lines[it.size..], j - |first|);
        FencedInRest(BlocksIn(lines[it.size..])[j - |first|], lines, it.size);
      }
    }
  }

  lemma NoBlocks()
    ensures BlocksIn([]) == []
  {
  }

  // A block is that of the first turn or one of the rest.
  lemma FirstTurn(lines: seq<string>, j: nat)
    requires lines != [] && j < |BlocksIn(lines)|
    ensures var it, first := Take(lines), MadeBy(Take(lines).out);
            if j < |first| then BlocksIn(lines)[j] == it.out.block
            else
              && it.size < |lines| && j - |first| < |BlocksIn(lines[it.size..])|
              && BlocksIn(lines)[j] == BlocksIn(lines[it.size..])[j - |first|]
  {
    hide Take, BlocksIn;
    if Take(lines).out.Throws? || Take(lines).size >= |lines| { TurnLast(lines); } else { TurnMore(lines); }
  }

  // Lines that cannot make the converter throw, whatever stands around them.
  predicate Harmless(line: string) {
    && (forall i :: 0 <= i < |line| ==> !IsLineTerminator(line[i]))
    && !(IsFence(line) && Html.IsInherited(Lang(line)))
  }

  lemma {:induction false} NeverThrows(lines: seq<string>)
    requires forall i :: 0 <= i < |lines| ==> Harmless(lines[i])
    ensures Clean(Parse(lines))
    decreases |lines|
  {
    if lines == [] {
    } else {
      var it := Take(lines);
      Chosen(lines);
      ThrowsExactly(lines);
      assert Harmless(lines[0]);
      hide Choose, Html.IsInherited, Lang, Take;
      assert !it.out.Throws?;
      hide Harmless;
      if it.size < |lines| {
        var rest := lines[it.size..];
        assert forall i :: 0 <= i < |rest| ==> rest[i] == lines[i + it.size];
        NeverThrows(rest);
        ParseMore(lines);
      } else {
        ParseLast(lines);
      }
    }
  }

  // The blocks one turn adds.
  function MadeBy(out: Out): seq<Block> {
    if out.Made? then [out.block] else []
  }

  lemma OneItem(it: Item)
    ensures BlocksOf([it]) == MadeBy(it.out) && (Clean([it]) <==> !it.out.Throws?)
  {
    assert [it][1..] == [] && BlocksOf([]) == [];
    assert MadeBy(it.out) + [] == MadeBy(it.out);
  }

  lemma TurnLast(rest: seq<string>)
    requires rest != [] && (Take(rest).out.Throws? || Take(rest).size >= |rest|)
    ensures Clean(Parse(rest)) <==> !Take(rest).out.Throws?
    ensures BlocksIn(rest) == MadeBy(Take(rest).out)
  {
    hide Take, Parse, Clean, BlocksOf;
    ParseLast(rest);
    OneItem(Take(rest));
  }

  lemma TurnMore(rest: seq<string>)
    requires rest != [] && !Take(rest).out.Throws? && Take(rest).size < |rest|
    ensures Clean(Parse(rest)) <==> Clean(Parse(rest[Take(rest).size..]))
    ensures BlocksIn(rest) == MadeBy(Take(rest).out) + BlocksIn(rest[Take(rest).size..])
  {
    hide Take, Parse, Clean, Total;
    ParseMore(rest);
    var items := Parse(rest[Take(rest).size..]);
    assert ([Take(rest)] + items)[1..] == items;
  }

  // ----- parsing is compositional -----

  // A blank line ends every loop that ends at blank lines.
  lemma BlankStops(span: Span, lines: seq<string>, k: nat)
    requires k < |lines| && lines[k] == ""
    ensures Stops(span, lines, k) <==> !span.InFence? && !span.InContents?
  {
    TrimPadding("", "", "");
  }

  lemma SameBefore(span: Span, a: seq<string>, t: seq<string>, k: nat)
    requires k < |a| && t != [] && t[0] == ""
    ensures Stops(span, a + t, k) <==> Stops(span, a, k)
  {
    if k + 1 == |a| {
      assert (a + t)[k + 1] == "";
    }
  }

  lemma {:induction false} EndLocal(span: Span, a: seq<string>, t: seq<string>, j: nat)
    requires j <= |a| && t != [] && t[0] == ""
    requires span.InFence? || span.InContents? ==> End(span, a, j) < |a|
    ensures End(span, a + t, j) == End(span, a, j)
    decreases |a| - j
  {
    hide Stops;
    if j < |a| {
      SameBefore(span, a, t, j);
      if !Stops(span, a, j) { EndLocal(span, a, t, j + 1); }
    } else {
      assert (a + t)[j] == "";
      BlankStops(span, a + t, j);
    }
  }

  lemma EmptySeparatesNothing()
    ensures !IsTableSeparator("")
  {
  }

  lemma ChooseLocal(a: seq<string>, t: seq<string>)
    requires a != [] && t != [] && t[0] == ""
    ensures Choose(a + t) == Choose(a)
  {
    EmptySeparatesNothing();
    hide IsLanguageLine, IsBlank, IsContentsHeading, IsFence, IsHeading, IsHr, IsRow, IsTableSeparator,
         IsBlockquote, IsList;
    var l := a + t;
    assert l[0] == a[0];
    if |a| == 1 { assert l[1] == ""; } else { assert l[1] == a[1]; }
  }

  lemma SliceOfSum<T>(a: seq<T>, t: seq<T>, k: nat)
    requires k <= |a|
    ensures (a + t)[..k] == a[..k] && (a + t)[k..] == a[k..] + t
  {
  }

  lemma ExtentLocal(a: seq<string>, t: seq<string>)
    requires a != [] && t != [] && t[0] == "" && Take(a).size <= |a|
    ensures Choose(a + t) == Choose(a) && Extent(Choose(a), a + t) == Extent(Choose(a), a)
  {
    hide Choose, Build, Stops, End;
    ChooseLocal(a, t);
    Chosen(a);
    match Choose(a)
    case ContentsBranch => EndLocal(InContents, a, t, 1);
    case FenceBranch => EndLocal(InFence, a, t, 1);
    case TableBranch => EndLocal(InTable, a, t, 2);
    case QuoteBranch => EndLocal(InQuote, a, t, 0);
    case ListBranch => EndLocal(InList, a, t, 0);
    case ParagraphBranch => EndLocal(InParagraph, a, t, 1);
    case _ =>
  }

  // A closed item does not look beyond a blank line after its document.
  lemma TakeLocal(a: seq<string>, t: seq<string>)
    requires a != [] && t != [] && t[0] == "" && Take(a).size <= |a|
    ensures Take(a + t) == Take(a)
  {
    hide Choose, Extent, Build;
    ExtentLocal(a, t);
    SliceOfSum(a, t, Extent(Choose(a), a));
  }

  lemma BlankLine(rest: seq<string>)
    requires rest != [] && rest[0] == ""
    ensures Take(rest) == Item(1, Nothing)
  {
  }

  lemma CleanMore(it: Item, rest: seq<Item>)
    ensures Clean([it] + rest) <==> !it.out.Throws? && Clean(rest)
  {
    var all := [it] + rest;
    if Clean(all) {
      assert all[0] == it;
      forall i | 0 <= i < |rest|
        ensures !rest[i].out.Throws?
      {
        assert all[i + 1] == rest[i];
      }
    }
  }

  lemma TotalMore(it: Item, rest: seq<Item>)
    ensures Total([it] + rest) == it.size + Total(rest)
  {
    assert ([it] + rest)[1..] == rest;
  }

  // One turn of the main loop when lines are left after it.
  lemma ParseMore(lines: seq<string>)
    requires lines != [] && !Take(lines).out.Throws? && Take(lines).size < |lines|
    ensures Parse(lines) == [Take(lines)] + Parse(lines[Take(lines).size..])
    ensures Clean(Parse(lines)) <==> Clean(Parse(lines[Take(lines).size..]))
    ensures Total(Parse(lines)) == Take(lines).size + Total(Parse(lines[Take(lines).size..]))
  {
    hide Take, Clean, Total;
    var it, rest := Take(lines), Parse(lines[Take(lines).size..]);
    CleanMore(it, rest);
    TotalMore(it, rest);
  }

  // And when none are.
  lemma ParseLast(lines: seq<string>)
    requires lines != [] && (Take(lines).out.Throws? || Take(lines).size >= |lines|)
    ensures Parse(lines) == [Take(lines)] && Total(Parse(lines)) == Take(lines).size
  {
    hide Take;
    assert [Take(lines)][1..] == [];
  }

  // When the scan of `a` ends exactly at its end, a document starting with a blank line can follow.
  lemma {:induction false} ParseThen(a: seq<string>, t: seq<string>)
    requires Clean(Parse(a)) && Total(Parse(a)) == |a| && t != [] && t[0] == ""
    ensures Parse(a + t) == Parse(a) + Parse(t)
    decreases |a|
  {
    hide Take;
    if a == [] {
      assert a + t == t;
    } else {
      assert !Take(a).out.Throws? by { assert Parse(a)[0] == Take(a); }
      hide Parse, Clean, Total;
      if Take(a).size >= |a| {
        ParseLast(a);
        LastThen(a, t);
      } else {
        ParseMore(a);
        ParseThen(a[Take(a).size..], t);
        FirstThen(a, t);
      }
    }
  }

  lemma LastThen(a: seq<string>, t: seq<string>)
    requires a != [] && !Take(a).out.Throws? && Take(a).size == |a| && t != [] && t[0] == ""
    ensures Parse(a + t) == [Take(a)] + Parse(t)
  {
    hide Take, Parse;
    TakeLocal(a, t);
    ParseMore(a + t);
    assert (a + t)[|a|..] == t;
  }

  lemma Regroup<T>(x: T, p: seq<T>, q: seq<T>)
    ensures [x] + (p + q) == ([x] + p) + q
  {
  }

  lemma FirstThen(a: seq<string>, t: seq<string>)
    requires a != [] && !Take(a).out.Throws? && Take(a).size < |a| && t != [] && t[0] == ""
    requires Parse(a[Take(a).size..] + t) == Parse(a[Take(a).size..]) + Parse(t)
    ensures Parse(a + t) == Parse(a) + Parse(t)
  {
    hide Take, Parse, Clean, Total;
    TakeLocal(a, t);
    ParseMore(a);
    ParseMore(a + t);
    var k := Take(a).size;
    SliceOfSum(a, t, k);
    Regroup(Take(a), Parse(a[k..]), Parse(t));
  }

  lemma BlankFirst(b: seq<string>)
    ensures Parse([""] + b) == [Item(1, Nothing)] + Parse(b)
  {
    hide Take;
    var t := [""] + b;
    BlankLine(t);
    assert t[1..] == b;
    if b == [] {
      ParseLast(t);
    } else {
      ParseMore(t);
    }
  }

  // A blank line separates it from anything.
  lemma Compositional(a: seq<string>, b: seq<string>)
    requires Clean(Parse(a)) && Total(Parse(a)) == |a|
    ensures Parse(a + [""] + b) == Parse(a) + [Item(1, Nothing)] + Parse(b)
  {
    hide Parse, Clean, Total;
    var t := [""] + b;
    assert a + [""] + b == a + t;
    ParseThen(a, t);
    BlankFirst(b);
    assert Parse(a) + ([Item(1, Nothing)] + Parse(b)) == Parse(a) + [Item(1, Nothing)] + Parse(b);
  }

  lemma {:induction false} BlocksOfAppend(p: seq<Item>, q: seq<Item>)
    ensures BlocksOf(p + q) == BlocksOf(p) + BlocksOf(q)
    decreases |p|
  {
    if p == [] {
      assert p + q == q;
    } else {
      assert (p + q)[1..] == p[1..] + q;
      BlocksOfAppend(p[1..], q);
    }
  }

  function BlocksIn(lines: seq<string>): seq<Block> {
    BlocksOf(Parse(lines))
  }

  lemma BlocksOfBlank(p: seq<Item>, q: seq<Item>)
    ensures BlocksOf(p + [Item(1, Nothing)] + q) == BlocksOf(p) + BlocksOf(q)
  {
    var blank := [Item(1, Nothing)];
    assert BlocksOf(blank) == [] by { assert blank[1..] == []; }
    BlocksOfAppend(p + blank, q);
    BlocksOfAppend(p, blank);
    hide BlocksOf;
    assert BlocksOf(p) + [] == BlocksOf(p);
  }

  lemma BlocksCompose(a: seq<string>, b: seq<string>)
    requires Clean(Parse(a)) && Total(Parse(a)) == |a|
    ensures BlocksIn(a + [""] + b) == BlocksIn(a) + BlocksIn(b)
  {
    hide Parse, Clean, Total, BlocksOf;
    Compositional(a, b);
    BlocksOfBlank(Parse(a), Parse(b));
  }

  // ----- and only then -----

  // Whether a fence or a contents section ends at a line depends on that line alone.
  lemma StopsOpen(span: Span, a: seq<string>, t: seq<string>, j: nat)
    requires (span.InFence? || span.InContents?) && j < |a + t|
    ensures Stops(span, a + t, j) <==> if j < |a| then Stops(span, a, j) else Stops(span, t, j - |a|)
  {
    hide IsFence, IsHr;
    assert (a + t)[j] == if j < |a| then a[j] else t[j - |a|];
  }

  lemma {:induction false} EndOpen(span: Span, a: seq<string>, t: seq<string>, j: nat)
    requires (span.InFence? || span.InContents?) && j <= |a| && End(span, a, j) == |a|
    requires forall i :: 0 <= i < |t| ==> !Stops(span, t, i)
    ensures End(span, a + t, j) == |a + t|
    decreases |a + t| - j
  {
    hide Stops;
    if j < |a| {
      StopsOpen(span, a, t, j);
      EndOpen(span, a, t, j + 1);
    } else {
      EndOpenTail(span, a, t, j);
    }
  }

  lemma {:induction false} EndOpenTail(span: Span, a: seq<string>, t: seq<string>, j: nat)
    requires (span.InFence? || span.InContents?) && |a| <= j <= |a + t|
    requires forall i :: 0 <= i < |t| ==> !Stops(span, t, i)
    ensures End(span, a + t, j) == |a + t|
    decreases |a + t| - j
  {
    hide Stops;
    if j < |a + t| {
      StopsOpen(span, a, t, j);
      assert !Stops(span, t, j - |a|);
      EndOpenTail(span, a, t, j + 1);
    }
  }

  const TAIL: seq<string> := ["", "x"]

  lemma TrimShort()
    ensures Trim("x") == "x" && Trim("") == ""
  {
    TrimPadding("", "x", "");
    assert "" + "x" + "" == "x";
    TrimPadding("", "", "");
  }

  lemma PlainClasses()
    ensures !IsLanguageLine("x") && !IsHr("x") && !IsHr("")
    ensures !IsBlank("x") && !IsFence("x") && !IsFence("") && !IsHeading("x")
    ensures !IsRow("x") && !IsBlockquote("x") && !IsList("x")
  {
    TrimShort();
    hide Trim, AllSpace;
    assert |"---"| == 3 && |"***"| == 3 && |"```"| == 3;
    assert |"**语言:"| > 1 && |"**语言："| > 1 && |"**Language:"| > 1 && |"**Language："| > 1;
    assert !IsBlank("x") by { OneLetter(); }
    assert CountHashes("x") == 0 && SkipSpace("x", 0) == 0;
  }

  lemma OneLetter()
    ensures !IsBlank("x")
  {
    assert !IsSpace("x"[0]);
  }

  // The line "x" is an ordinary paragraph, and ends neither a fence nor a contents section.
  lemma PlainLine()
    ensures BlocksIn(["x"]) == [Paragraph(["x"])]
    ensures forall i, span: Span :: 0 <= i < |TAIL| && (span.InFence? || span.InContents?) ==> !Stops(span, TAIL, i)
  {
    PlainClasses();
    hide IsLanguageLine, IsBlank, IsFence, IsHeading, IsHr, IsRow, IsTableSeparator, IsBlockquote, IsList;
    assert TAIL[0] == "" && TAIL[1] == "x";
    var one := ["x"];
    assert one[0] == "x";
    assert Choose(one) == ParagraphBranch;
    hide Choose;
    assert End(InParagraph, one, 1) == 1;
    assert one[..1] == one;
    assert Take(one) == Item(1, Made(Paragraph(one)));
    hide Take, Extent, Build;
    ParseLast(one);
    assert [Take(one)][1..] == [];
    hide Parse;
    assert BlocksOf([Take(one)]) == [Paragraph(one)];
  }

  lemma OpenTake(a: seq<string>)
    requires Unterminated(a) && !Take(a).out.Throws?
    ensures Take(a + TAIL).size == |a + TAIL| + 1 && Take(a + TAIL).out.Made? == Take(a).out.Made?
    ensures !Take(a + TAIL).out.Throws?
  {
    hide Choose, Stops, Lang, Html.IsInherited;
    PlainLine();
    ChooseLocal(a, TAIL);
    EndOpen(if Choose(a).FenceBranch? then InFence else InContents, a, TAIL, 1);
  }

  // After an unterminated fence or contents section, the following text disappears into it.
  lemma {:induction false} Swallowed(a: seq<string>)
    requires Clean(Parse(a)) && Total(Parse(a)) != |a|
    ensures |BlocksIn(a + TAIL)| == |BlocksIn(a)|
    decreases |a|
  {
    hide Take, Unterminated;
    if a == [] {
    } else {
      assert !Take(a).out.Throws? by { assert Parse(a)[0] == Take(a); }
      if Take(a).size >= |a| {
        ParseLast(a);
        TakeTooFar(a);
        OpenTake(a);
        ParseLast(a + TAIL);
        assert [Take(a)][1..] == [] && [Take(a + TAIL)][1..] == [];
      } else {
        hide Parse, Clean, Total;
        ParseMore(a);
        SwallowedRest(a);
      }
    }
  }

  lemma SwallowedRest(a: seq<string>)
    requires a != [] && !Take(a).out.Throws? && Take(a).size < |a|
    requires Clean(Parse(a[Take(a).size..])) && Total(Parse(a[Take(a).size..])) != |a[Take(a).size..]|
    ensures |BlocksIn(a + TAIL)| == |BlocksIn(a)|
    decreases |a|, 0
  {
    hide Take, Parse, Clean, Total, BlocksOf;
    TakeLocal(a, TAIL);
    var k, it := Take(a).size, Take(a);
    Swallowed(a[k..]);
    ParseMore(a);
    ParseMore(a + TAIL);
    SliceOfSum(a, TAIL, k);
    BlocksOfAppend([it], Parse(a[k..]));
    BlocksOfAppend([it], Parse(a[k..] + TAIL));
  }

  // Setting two documents one after the other, with a blank line in between, sets their blocks
  // one after the other, whatever the second is, exactly when the first leaves nothing open.
  lemma ComposesExactlyWhenClosed(a: seq<string>)
    requires Clean(Parse(a))
    ensures (forall b :: BlocksIn(a + [""] + b) == BlocksIn(a) + BlocksIn(b)) <==> Total(Parse(a)) == |a|
  {
    hide Parse, Clean, Total, BlocksOf;
    if Total(Parse(a)) == |a| {
      forall b
        ensures BlocksIn(a + [""] + b) == BlocksIn(a) + BlocksIn(b)
      {
        BlocksCompose(a, b);
      }
    } else {
      Swallowed(a);
      PlainLine();
      assert a + [""] + ["x"] == a + TAIL;
      assert |BlocksIn(a) + BlocksIn(["x"])| == |BlocksIn(a)| + 1;
    }
  }
}
