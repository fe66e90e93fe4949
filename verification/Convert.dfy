// The converter itself: one cursor over the lines, the blocks, headings, anchors and slug counts
// gathered on the way. The scan is tied to Parse, the ids to Anchors.Ids.

module Convert {
  import opened Common
  import opened Text
  import opened Blocks
  import TableRow
  import Html
  import A = Anchors
  import Decimal

  datatype Entry = Entry(level: nat, text: string, id: string)

  datatype Page = Page(blocks: seq<Block>, headings: seq<Entry>, anchors: set<string>)

  // ----- headings -----

  function Slugs(blocks: seq<Block>, slugify: string -> string): seq<string> {
    if blocks == [] then []
    else
      var last := blocks[|blocks| - 1];
      Slugs(blocks[..|blocks| - 1], slugify) + if last.Heading? then [slugify(last.text)] else []
  }

  // The sidebar entries: backticks dropped from the text, an id for each heading.
  function Entries(blocks: seq<Block>, slugify: string -> string): seq<Entry> {
    if blocks == [] then []
    else
      var front, last := blocks[..|blocks| - 1], blocks[|blocks| - 1];
      Entries(front, slugify) + if last.Heading? then [EntryFor(Slugs(front, slugify), last, slugify)] else []
  }

  function EntryFor(before: seq<string>, heading: Block, slugify: string -> string): Entry
    requires heading.Heading?
  {
    var slug := slugify(heading.text);
    Entry(heading.level, Html.ReplaceAll(heading.text, '`', ""), A.Anchor(slug, A.Count(before + [slug], slug)))
  }

  function IdsOf(entries: seq<Entry>): set<string> {
    set i | 0 <= i < |entries| :: entries[i].id
  }

  function PageOf(blocks: seq<Block>, slugify: string -> string): Page {
    Page(blocks, Entries(blocks, slugify), IdsOf(Entries(blocks, slugify)))
  }

  // The headings of a page, in order.
  function HeadingsOf(blocks: seq<Block>): (headings: seq<Block>)
    ensures forall i :: 0 <= i < |headings| ==> headings[i].Heading?
  {
    if blocks == [] then []
    else
      var last := blocks[|blocks| - 1];
      HeadingsOf(blocks[..|blocks| - 1]) + if last.Heading? then [last] else []
  }

  // There is an entry for each heading, with its level and its text without backticks, and the slug
  // of its text is what its id is made of.
  lemma {:induction false} EntriesAreHeadings(blocks: seq<Block>, slugify: string -> string)
    ensures |Entries(blocks, slugify)| == |HeadingsOf(blocks)| == |Slugs(blocks, slugify)|
    ensures forall i :: 0 <= i < |HeadingsOf(blocks)| ==>
              var h, e := HeadingsOf(blocks)[i], Entries(blocks, slugify)[i];
              && e.level == h.level && Slugs(blocks, slugify)[i] == slugify(h.text)
              && '`' !in e.text && Scattered(e.text, h.text)
    decreases |blocks|
  {
    if blocks == [] {
    } else {
      EntriesAreHeadings(blocks[..|blocks| - 1], slugify);
      if blocks[|blocks| - 1].Heading? { Unticked(blocks[|blocks| - 1].text); }
      hide Html.ReplaceAll, Scattered;
    }
  }

  // `text` with backticks put in here and there is `ticked`.
  predicate Scattered(text: string, ticked: string) {
    if ticked == "" then text == ""
    else if ticked[0] == '`' then Scattered(text, ticked[1..])
    else text != "" && text[0] == ticked[0] && Scattered(text[1..], ticked[1..])
  }

  lemma {:induction false} Unticked(s: string)
    ensures '`' !in Html.ReplaceAll(s, '`', "") && Scattered(Html.ReplaceAll(s, '`', ""), s)
  {
    if s == "" {
    } else {
      Unticked(s[1..]);
      var rest := Html.ReplaceAll(s[1..], '`', "");
      assert "" + rest == rest;
      if s[0] != '`' { assert ([s[0]] + rest)[1..] == rest; }
    }
  }

  // The entries' ids are those of their slugs.
  lemma {:induction false} EntryIds(blocks: seq<Block>, slugify: string -> string)
    ensures |Entries(blocks, slugify)| == |Slugs(blocks, slugify)|
    ensures forall i :: 0 <= i < |Entries(blocks, slugify)| ==>
              Entries(blocks, slugify)[i].id == A.Ids(Slugs(blocks, slugify))[i]
    decreases |blocks|
  {
    if blocks == [] {
    } else {
      var front, last := blocks[..|blocks| - 1], blocks[|blocks| - 1];
      EntryIds(front, slugify);
      if last.Heading? {
        var before, slug := Slugs(front, slugify), slugify(last.text);
        assert (before + [slug])[..|before|] == before;
      } else {
        assert Slugs(front, slugify) + [] == Slugs(front, slugify);
        assert Entries(front, slugify) + [] == Entries(front, slugify);
      }
    }
  }

  // The headings of a page have pairwise distinct ids exactly when their slugs do not clash.
  lemma PageIdsDistinct(blocks: seq<Block>, slugify: string -> string)
    ensures (forall i, j :: 0 <= i < j < |Entries(blocks, slugify)| ==>
               Entries(blocks, slugify)[i].id != Entries(blocks, slugify)[j].id)
            <==> !A.SuffixClash(Slugs(blocks, slugify))
  {
    EntryIds(blocks, slugify);
    A.DistinctExactlyWithoutClash(Slugs(blocks, slugify));
    hide A.SuffixClash, A.Ids, Slugs, Entries;
  }

  // ----- the table of contents -----

  function InToc(h: Entry): bool { 2 <= h.level <= 4 }

  function TocOf(headings: seq<Entry>): seq<Entry> {
    if headings == [] then []
    else TocOf(headings[..|headings| - 1]) + if InToc(headings[|headings| - 1]) then [headings[|headings| - 1]] else []
  }

  // Position in the headings of each entry of the table of contents.
  function TocPositions(headings: seq<Entry>): seq<nat> {
    if headings == [] then []
    else
      TocPositions(headings[..|headings| - 1]) + if InToc(headings[|headings| - 1]) then [|headings| - 1] else []
  }

  // `toc` are the entries at the positions `at`, which are in order and are those of the headings of
  // level two, three or four.
  ghost predicate Selects(headings: seq<Entry>, toc: seq<Entry>, at: seq<nat>) {
    && |toc| == |at|
    && (forall k :: 0 <= k < |at| ==> at[k] < |headings| && toc[k] == headings[at[k]])
    && (forall k, l :: 0 <= k < l < |at| ==> at[k] < at[l])
    && (forall i :: 0 <= i < |headings| ==> (2 <= headings[i].level <= 4 <==> i in at))
  }

  lemma SelectsMore(front: seq<Entry>, last: Entry, toc: seq<Entry>, at: seq<nat>)
    requires Selects(front, toc, at)
    ensures Selects(front + [last], toc + if InToc(last) then [last] else [],
                    at + if InToc(last) then [|front|] else [])
  {
    var headings, at' := front + [last], at + if InToc(last) then [|front|] else [];
    forall i | 0 <= i < |headings|
      ensures 2 <= headings[i].level <= 4 <==> i in at'
    {
      if i < |front| {
        assert front[i] == headings[i];
        if i in at {
          var k :| 0 <= k < |at| && at[k] == i;
          assert at'[k] == i;
        }
      } else if InToc(last) {
        assert at'[|at|] == i;
      }
    }
  }

  lemma {:induction false} TocSelects(headings: seq<Entry>)
    ensures Selects(headings, TocOf(headings), TocPositions(headings))
    decreases |headings|
  {
    if headings == [] {
    } else {
      var front, last := headings[..|headings| - 1], headings[|headings| - 1];
      TocSelects(front);
      hide Selects;
      SelectsMore(front, last, TocOf(front), TocPositions(front));
      assert front + [last] == headings;
    }
  }

  // The contents list the headings of level two to four, each once and in order, and every link
  // in them leads to an id on the page.
  lemma TocIsFaithful(headings: seq<Entry>)
    ensures Selects(headings, TocOf(headings), TocPositions(headings))
    ensures forall k :: 0 <= k < |TocOf(headings)| ==> TocOf(headings)[k].id in IdsOf(headings)
  {
    hide TocOf, TocPositions;
    TocSelects(headings);
  }

  // ----- the loops -----

  lemma StopsShift(span: Span, lines: seq<string>, i: nat, k: nat)
    requires i <= k < |lines|
    ensures Stops(span, lines[i..], k - i) <==> Stops(span, lines, k)
  {
    assert lines[i..][k - i] == lines[k];
    if k + 1 < |lines| { assert lines[i..][k - i + 1] == lines[k + 1]; }
  }

  lemma {:induction false} EndShift(span: Span, lines: seq<string>, i: nat, j: nat)
    requires i <= j <= |lines|
    ensures i + End(span, lines[i..], j - i) == End(span, lines, j)
    decreases |lines| - j
  {
    hide Stops;
    if j < |lines| {
      StopsShift(span, lines, i, j);
      if !Stops(span, lines, j) { EndShift(span, lines, i, j + 1); }
    }
  }

  lemma Next<T>(s: seq<T>, i: nat, k: nat)
    requires i <= k < |s|
    ensures s[i..k + 1] == s[i..k] + [s[k]]
  {
  }

  method ReadFence(lines: seq<string>, i: nat) returns (buf: seq<string>, k: nat)
    requires i < |lines|
    ensures k == End(InFence, lines, i + 1) && buf == lines[i + 1..k]
  {
    buf, k := [], i + 1;
    while k < |lines| && !IsFence(lines[k])
      invariant i + 1 <= k <= |lines| && buf == lines[i + 1..k]
      invariant End(InFence, lines, k) == End(InFence, lines, i + 1)
    {
      buf, k := buf + [lines[k]], k + 1;
    }
  }

  method SkipContents(lines: seq<string>, i: nat) returns (k: nat)
    requires i < |lines|
    ensures k == End(InContents, lines, i + 1)
  {
    k := i + 1;
    while k < |lines| && !IsHr(lines[k])
      invariant i + 1 <= k <= |lines|
      invariant End(InContents, lines, k) == End(InContents, lines, i + 1)
    {
      k := k + 1;
    }
  }

  method ReadRows(lines: seq<string>, i: nat) returns (rows: seq<seq<string>>, k: nat)
    requires i + 2 <= |lines|
    ensures k == End(InTable, lines, i + 2) && rows == Rows(lines[i + 2..k])
  {
    hide IsRow, TableRow.RowCells;
    rows, k := [], i + 2;
    while k < |lines| && IsRow(lines[k])
      invariant i + 2 <= k <= |lines| && rows == Rows(lines[i + 2..k])
      invariant End(InTable, lines, k) == End(InTable, lines, i + 2)
    {
      var row := TableRow.SplitRow(lines[k]);
      Next(lines, i + 2, k);
      RowsNext(lines[i + 2..k], lines[k]);
      rows, k := rows + [row], k + 1;
    }
  }

  lemma RowsNext(lines: seq<string>, line: string)
    ensures Rows(lines + [line]) == Rows(lines) + [TableRow.RowCells(line)]
  {
    hide TableRow.RowCells;
  }

  method ReadQuote(lines: seq<string>, i: nat) returns (buf: seq<string>, k: nat)
    requires i < |lines|
    ensures k == End(InQuote, lines, i) && buf == UnquotedAll(lines[i..k])
  {
    hide IsBlockquote, Unquoted;
    buf, k := [], i;
    while k < |lines| && IsBlockquote(lines[k])
      invariant i <= k <= |lines| && buf == UnquotedAll(lines[i..k])
      invariant End(InQuote, lines, k) == End(InQuote, lines, i)
    {
      Next(lines, i, k);
      buf, k := buf + [Unquoted(lines[k])], k + 1;
    }
  }

  method ReadList(lines: seq<string>, i: nat) returns (items: seq<string>, k: nat)
    requires i < |lines|
    ensures k == End(InList, lines, i) && items == UnbulletedAll(lines[i..k])
  {
    hide IsList, Unbulleted;
    items, k := [], i;
    while k < |lines| && IsList(lines[k])
      invariant i <= k <= |lines| && items == UnbulletedAll(lines[i..k])
      invariant End(InList, lines, k) == End(InList, lines, i)
    {
      Next(lines, i, k);
      items, k := items + [Unbulleted(lines[k])], k + 1;
    }
  }

  method ReadParagraph(lines: seq<string>, i: nat) returns (buf: seq<string>, k: nat)
    requires i < |lines|
    ensures k == End(InParagraph, lines, i + 1) && buf == lines[i..k]
  {
    hide IsBlank, IsFence, IsHeading, IsHr, IsBlockquote, IsList, IsTableStart;
    buf, k := [lines[i]], i + 1;
    while k < |lines|
      && !IsBlank(lines[k]) && !IsFence(lines[k]) && !IsHeading(lines[k]) && !IsHr(lines[k])
      && !IsBlockquote(lines[k]) && !IsList(lines[k]) && !IsTableStart(lines, k)
      invariant i + 1 <= k <= |lines| && buf == lines[i..k]
      invariant End(InParagraph, lines, k) == End(InParagraph, lines, i + 1)
    {
      buf, k := buf + [lines[k]], k + 1;
    }
  }

  // What Take is, branch by branch, in terms of the cursor.
  lemma TakeAt(lines: seq<string>, i: nat, k: nat)
    requires i < |lines|
    requires var branch := Choose(lines[i..]); k == i + Extent(branch, lines[i..])
    ensures i < k <= |lines| && Extent(Choose(lines[i..]), lines[i..]) == k - i
    ensures var branch := Choose(lines[i..]);
            && (branch.TableBranch? ==> i + 2 <= k)
            && Take(lines[i..]) ==
               Item(k - i + (if branch.ContentsBranch? || branch.FenceBranch? then 1 else 0),
                    Build(branch, lines[i..k]))
  {
    hide Choose, Extent, Build;
    SliceShift(lines, i, k);
  }

  // Extent and Build in terms of the cursor.
  function EndAt(branch: Branch, lines: seq<string>, i: nat): (k: nat)
    requires i < |lines| && (branch.TableBranch? ==> i + 2 <= |lines|)
  {
    match branch
    case ContentsBranch => End(InContents, lines, i + 1)
    case FenceBranch => End(InFence, lines, i + 1)
    case TableBranch => End(InTable, lines, i + 2)
    case QuoteBranch => End(InQuote, lines, i)
    case ListBranch => End(InList, lines, i)
    case ParagraphBranch => End(InParagraph, lines, i + 1)
    case _ => i + 1
  }

  function BuiltAt(branch: Branch, lines: seq<string>, i: nat, k: nat): Out
    requires i < k <= |lines| && (branch.TableBranch? ==> i + 2 <= k)
  {
    match branch
    case FenceBranch => FenceOut(lines[i], lines[i + 1..k])
    case HeadingBranch => HeadingOut(lines[i])
    case RuleBranch => Made(Rule)
    case TableBranch =>
      Made(Table(TableRow.RowCells(lines[i]), Aligns(TableRow.RowCells(lines[i + 1])), Rows(lines[i + 2..k])))
    case QuoteBranch => Made(Quote(UnquotedAll(lines[i..k])))
    case ListBranch => Made(Bullets(UnbulletedAll(lines[i..k])))
    case ParagraphBranch => Made(Paragraph(lines[i..k]))
    case _ => Nothing
  }

  lemma ExtentAt(lines: seq<string>, i: nat)
    requires i < |lines|
    ensures var branch := Choose(lines[i..]);
            (branch.TableBranch? ==> i + 2 <= |lines|) && i + Extent(branch, lines[i..]) == EndAt(branch, lines, i)
  {
    hide Choose, End;
    Chosen(lines[i..]);
    EndShift(InContents, lines, i, i + 1);
    EndShift(InFence, lines, i, i + 1);
    if i + 2 <= |lines| { EndShift(InTable, lines, i, i + 2); }
    EndShift(InQuote, lines, i, i);
    EndShift(InList, lines, i, i);
    EndShift(InParagraph, lines, i, i + 1);
  }

  lemma BuildAt(branch: Branch, lines: seq<string>, i: nat, k: nat)
    requires i < k <= |lines| && (branch.TableBranch? ==> i + 2 <= k)
    ensures Build(branch, lines[i..k]) == BuiltAt(branch, lines, i, k)
  {
    hide Rows, Aligns, UnquotedAll, UnbulletedAll, Lang, FenceOut, HeadingOut, TableRow.RowCells;
    SliceShift(lines, i, k);
    assert lines[i..k][0] == lines[i];
    if branch.TableBranch? { assert lines[i..k][1] == lines[i + 1]; }
  }

  lemma TakeIs(lines: seq<string>, i: nat)
    requires i < |lines|
    ensures var branch := Choose(lines[i..]);
            && (branch.TableBranch? ==> i + 2 <= |lines|)
            && var k := EndAt(branch, lines, i);
            && i < k <= |lines| && (branch.TableBranch? ==> i + 2 <= k)
            && Take(lines[i..]) ==
               Item(k - i + (if branch.ContentsBranch? || branch.FenceBranch? then 1 else 0),
                    BuiltAt(branch, lines, i, k))
  {
    var branch := Choose(lines[i..]);
    ExtentAt(lines, i);
    hide *;
    var k := EndAt(branch, lines, i);
    TakeAt(lines, i, k);
    BuildAt(branch, lines, i, k);
  }

  // TakeIs, branch by branch.
  lemma TakeTable(lines: seq<string>, i: nat)
    requires i < |lines| && Choose(lines[i..]).TableBranch?
    ensures i + 2 <= |lines|
    ensures var k := End(InTable, lines, i + 2);
            && i < k
            && Take(lines[i..]) ==
               Item(k - i, Made(Table(TableRow.RowCells(lines[i]), Aligns(TableRow.RowCells(lines[i + 1])),
                                      Rows(lines[i + 2..k]))))
  {
    hide Choose, Take, End, Rows, Aligns, UnquotedAll, UnbulletedAll, FenceOut, HeadingOut, TableRow.RowCells;
    TakeIs(lines, i);
  }

  lemma TakeQuote(lines: seq<string>, i: nat)
    requires i < |lines| && Choose(lines[i..]).QuoteBranch?
    ensures var k := End(InQuote, lines, i);
            i < k && Take(lines[i..]) == Item(k - i, Made(Quote(UnquotedAll(lines[i..k]))))
  {
    hide Choose, Take, End, Rows, Aligns, UnquotedAll, UnbulletedAll, FenceOut, HeadingOut, TableRow.RowCells;
    TakeIs(lines, i);
  }

  lemma TakeList(lines: seq<string>, i: nat)
    requires i < |lines| && Choose(lines[i..]).ListBranch?
    ensures var k := End(InList, lines, i);
            i < k && Take(lines[i..]) == Item(k - i, Made(Bullets(UnbulletedAll(lines[i..k]))))
  {
    hide Choose, Take, End, Rows, Aligns, UnquotedAll, UnbulletedAll, FenceOut, HeadingOut, TableRow.RowCells;
    TakeIs(lines, i);
  }

  lemma TakeParagraph(lines: seq<string>, i: nat)
    requires i < |lines| && Choose(lines[i..]).ParagraphBranch?
    ensures var k := End(InParagraph, lines, i + 1);
            i < k && Take(lines[i..]) == Item(k - i, Made(Paragraph(lines[i..k])))
  {
    hide Choose, Take, End, Rows, Aligns, UnquotedAll, UnbulletedAll, FenceOut, HeadingOut, TableRow.RowCells;
    TakeIs(lines, i);
  }

  lemma TakeContents(lines: seq<string>, i: nat)
    requires i < |lines| && Choose(lines[i..]).ContentsBranch?
    ensures Take(lines[i..]) == Item(End(InContents, lines, i + 1) + 1 - i, Nothing)
  {
    hide Choose, Take, End, Rows, Aligns, UnquotedAll, UnbulletedAll, FenceOut, HeadingOut, TableRow.RowCells;
    TakeIs(lines, i);
  }

  lemma TakeFence(lines: seq<string>, i: nat)
    requires i < |lines| && Choose(lines[i..]).FenceBranch?
    ensures var k := End(InFence, lines, i + 1);
            Take(lines[i..]) == Item(k + 1 - i, FenceOut(lines[i], lines[i + 1..k]))
  {
    hide Choose, Take, End, Rows, Aligns, UnquotedAll, UnbulletedAll, FenceOut, HeadingOut, TableRow.RowCells;
    TakeIs(lines, i);
  }

  lemma TakeLine(lines: seq<string>, i: nat)
    requires i < |lines|
    requires var branch := Choose(lines[i..]); branch.Skipped? || branch.HeadingBranch? || branch.RuleBranch?
    ensures var branch := Choose(lines[i..]);
            Take(lines[i..]) ==
            Item(1, if branch.HeadingBranch? then HeadingOut(lines[i])
                    else if branch.RuleBranch? then Made(Rule)
                    else Nothing)
  {
    hide Choose, Take, End, Rows, Aligns, UnquotedAll, UnbulletedAll, FenceOut, HeadingOut, TableRow.RowCells;
    TakeIs(lines, i);
  }

  // The loops of one turn, once the branch is known.
  method ScanTable(lines: seq<string>, i: nat) returns (next: nat, out: Out)
    requires i < |lines| && Choose(lines[i..]).TableBranch?
    ensures i < next && Item(next - i, out) == Take(lines[i..])
  {
    TakeTable(lines, i);
    hide Choose, Take, End, Rows, Aligns, TableRow.RowCells;
    var header := TableRow.SplitRow(lines[i]);
    var seps := TableRow.SplitRow(lines[i + 1]);
    var rows;
    rows, next := ReadRows(lines, i);
    out := Made(Table(header, Aligns(seps), rows));
  }

  method ScanQuote(lines: seq<string>, i: nat) returns (next: nat, out: Out)
    requires i < |lines| && Choose(lines[i..]).QuoteBranch?
    ensures i < next && Item(next - i, out) == Take(lines[i..])
  {
    TakeQuote(lines, i);
    hide Choose, Take, End, UnquotedAll;
    var buf;
    buf, next := ReadQuote(lines, i);
    out := Made(Quote(buf));
  }

  method ScanList(lines: seq<string>, i: nat) returns (next: nat, out: Out)
    requires i < |lines| && Choose(lines[i..]).ListBranch?
    ensures i < next && Item(next - i, out) == Take(lines[i..])
  {
    TakeList(lines, i);
    hide Choose, Take, End, UnbulletedAll;
    var items;
    items, next := ReadList(lines, i);
    out := Made(Bullets(items));
  }

  method ScanParagraph(lines: seq<string>, i: nat) returns (next: nat, out: Out)
    requires i < |lines| && Choose(lines[i..]).ParagraphBranch?
    ensures i < next && Item(next - i, out) == Take(lines[i..])
  {
    TakeParagraph(lines, i);
    hide Choose, Take, End;
    var buf;
    buf, next := ReadParagraph(lines, i);
    out := Made(Paragraph(buf));
  }

  method ScanContents(lines: seq<string>, i: nat) returns (next: nat, out: Out)
    requires i < |lines| && Choose(lines[i..]).ContentsBranch?
    ensures i < next && Item(next - i, out) == Take(lines[i..])
  {
    TakeContents(lines, i);
    hide Choose, Take, End;
    next := SkipContents(lines, i);
    next, out := next + 1, Nothing;
  }

  method ScanFence(lines: seq<string>, i: nat) returns (next: nat, out: Out)
    requires i < |lines| && Choose(lines[i..]).FenceBranch?
    ensures i < next && Item(next - i, out) == Take(lines[i..])
  {
    TakeFence(lines, i);
    hide Choose, Take, End, FenceOut;
    var buf;
    buf, next := ReadFence(lines, i);
    next, out := next + 1, FenceOut(lines[i], buf);
  }

  method Scan(lines: seq<string>, i: nat, branch: Branch) returns (next: nat, out: Out)
    requires i < |lines| && branch == Choose(lines[i..])
    ensures i < next && Item(next - i, out) == Take(lines[i..])
  {
    hide Choose, Take, HeadingOut;
    match branch
    case ContentsBranch => next, out := ScanContents(lines, i);
    case FenceBranch => next, out := ScanFence(lines, i);
    case TableBranch => next, out := ScanTable(lines, i);
    case QuoteBranch => next, out := ScanQuote(lines, i);
    case ListBranch => next, out := ScanList(lines, i);
    case ParagraphBranch => next, out := ScanParagraph(lines, i);
    case HeadingBranch => TakeLine(lines, i); next, out := i + 1, HeadingOut(lines[i]);
    case RuleBranch => TakeLine(lines, i); next, out := i + 1, Made(Rule);
    case Skipped => TakeLine(lines, i); next, out := i + 1, Nothing;
  }

  // The chain of tests at the head of the main loop.
  method Classify(lines: seq<string>, i: nat) returns (branch: Branch)
    requires i < |lines|
    ensures branch == Choose(lines[i..])
  {
    TableStartShift(lines, i);
    hide IsLanguageLine, IsBlank, IsContentsHeading, IsFence, IsHeading, IsHr, IsTableStart, IsBlockquote, IsList;
    var line := lines[i];
    if IsLanguageLine(line) { return Skipped; }
    if IsBlank(line) { return Skipped; }
    if IsContentsHeading(line) { return ContentsBranch; }
    if IsFence(line) { return FenceBranch; }
    if IsHeading(line) { return HeadingBranch; }
    if IsHr(line) { return RuleBranch; }
    if IsTableStart(lines, i) { return TableBranch; }
    if IsBlockquote(line) { return QuoteBranch; }
    if IsList(line) { return ListBranch; }
    return ParagraphBranch;
  }

  lemma TableStartShift(lines: seq<string>, i: nat)
    requires i < |lines|
    ensures lines[i..][0] == lines[i] && (IsTableStart(lines[i..], 0) <==> IsTableStart(lines, i))
  {
    if i + 1 < |lines| { assert lines[i..][1] == lines[i + 1]; }
  }

  lemma SliceShift(lines: seq<string>, i: nat, k: nat)
    requires i <= k <= |lines|
    ensures lines[i..][..k - i] == lines[i..k]
    ensures forall j :: 0 <= j <= k - i ==> lines[i..k][j..] == lines[i + j..k]
  {
  }

  lemma Assoc<T>(a: seq<T>, b: seq<T>, c: seq<T>)
    ensures a + (b + c) == (a + b) + c
  {
  }

  lemma DropTwice<T>(s: seq<T>, i: nat, k: nat)
    requires i <= k <= |s|
    ensures s[i..][k - i..] == s[k..]
  {
  }

  // What one turn does to what is still to be parsed.
  lemma TurnEffect(lines: seq<string>, i: nat, next: nat, out: Out, blocks: seq<Block>)
    requires i < |lines| && i < next && Item(next - i, out) == Take(lines[i..])
    requires (Clean(Parse(lines)) <==> Clean(Parse(lines[i..]))) && BlocksIn(lines) == blocks + BlocksIn(lines[i..])
    ensures next <= |lines| + 1
    ensures out.Throws? ==> !Clean(Parse(lines))
    ensures !out.Throws? && next < |lines| ==>
              && (Clean(Parse(lines)) <==> Clean(Parse(lines[next..])))
              && BlocksIn(lines) == (blocks + MadeBy(out)) + BlocksIn(lines[next..])
    ensures !out.Throws? && next >= |lines| ==> Clean(Parse(lines)) && BlocksIn(lines) == blocks + MadeBy(out)
  {
    hide *;
    var rest := lines[i..];
    assert Take(rest).size == next - i && Take(rest).out == out && |rest| == |lines| - i;
    if out.Throws? || next >= |lines| {
      TurnLast(rest);
    } else {
      TurnMore(rest);
      DropTwice(lines, i, next);
      Assoc(blocks, MadeBy(out), BlocksIn(lines[next..]));
    }
  }

  lemma HeadingAdded(blocks: seq<Block>, headings: seq<Entry>, b: Block, slugify: string -> string)
    requires b.Heading? && headings == Entries(blocks, slugify)
    ensures var entry := EntryFor(Slugs(blocks, slugify), b, slugify);
            && Entries(blocks + [b], slugify) == headings + [entry]
            && Slugs(blocks + [b], slugify) == Slugs(blocks, slugify) + [slugify(b.text)]
            && IdsOf(headings + [entry]) == IdsOf(headings) + {entry.id}
  {
    assert (blocks + [b])[..|blocks|] == blocks;
    IdsOfNext(headings, EntryFor(Slugs(blocks, slugify), b, slugify));
  }

  lemma IdsOfNext(headings: seq<Entry>, entry: Entry)
    ensures IdsOf(headings + [entry]) == IdsOf(headings) + {entry.id}
  {
    var all := headings + [entry];
    forall id | id in IdsOf(headings) + {entry.id}
      ensures id in IdsOf(all)
    {
      if id == entry.id {
        assert all[|headings|].id == id;
      } else {
        var i :| 0 <= i < |headings| && headings[i].id == id;
        assert all[i].id == id;
      }
    }
  }

  lemma BlockAdded(blocks: seq<Block>, b: Block, slugify: string -> string)
    requires !b.Heading?
    ensures Entries(blocks + [b], slugify) == Entries(blocks, slugify)
    ensures Slugs(blocks + [b], slugify) == Slugs(blocks, slugify)
  {
    assert (blocks + [b])[..|blocks|] == blocks;
  }

  // `anchorFor`: count the slug and number its repetitions.
  method AnchorFor(ghost before: seq<string>, used: map<string, nat>, slug: string)
    returns (used': map<string, nat>, id: string)
    requires used == A.Used(before)
    ensures used' == A.Used(before + [slug])
    ensures id == A.Anchor(slug, A.Count(before + [slug], slug))
  {
    CountNext(before, slug);
    if slug in used {
      var n := used[slug] + 1;
      used' := used[slug := n];
      id := slug + "-" + Decimal.Dec(n);
    } else {
      used' := used[slug := 1];
      id := slug;
    }
  }

  lemma CountNext(before: seq<string>, slug: string)
    ensures forall s :: A.Count(before + [slug], s) == A.Count(before, s) + if s == slug then 1 else 0
    ensures slug in before <==> A.Count(before, slug) > 0
  {
    assert (before + [slug])[..|before|] == before;
    CountPositive(before, slug);
  }

  lemma {:induction false} CountPositive(before: seq<string>, slug: string)
    ensures slug in before <==> A.Count(before, slug) > 0
    decreases |before|
  {
    if before == [] {
    } else {
      CountPositive(before[..|before| - 1], slug);
      assert before == before[..|before| - 1] + [before[|before| - 1]];
    }
  }

  lemma Start(lines: seq<string>, slugify: string -> string)
    ensures lines[0..] == lines && [] + BlocksIn(lines) == BlocksIn(lines)
    ensures Entries([], slugify) == [] && Slugs([], slugify) == [] && IdsOf([]) == {} && A.Used([]) == map[]
    ensures lines == [] ==> Clean(Parse(lines)) && BlocksIn(lines) == []
  {
  }

  // The two ways to make the converter throw: a carriage return in a heading, and a fence that
  // names an inherited property.
  lemma ThrowingPages()
    ensures !Clean(Parse(SplitLines("# a\rb"))) && !Clean(Parse(SplitLines("```" + "constructor")))
  {
    hide Clean, Parse;
    ThrowingHeading();
    ThrowingFence();
    OneLine("# a\rb");
    OneLine("```" + "constructor");
  }

  lemma OneLine(line: string)
    requires '\n' !in line
    ensures SplitLines(line) == [line]
  {
    SplitPiece(line, '\n');
  }

  // Every code block of a page can be read back: rendering does not throw, and the code element
  // decodes to the fenced lines, unless there are none.
  lemma PageCodeRoundTrip(md: string, upper: string -> string, j: nat)
    requires j < |BlocksIn(SplitLines(md))| && BlocksIn(SplitLines(md))[j].Code?
    ensures var code := BlocksIn(SplitLines(md))[j];
            var head := Html.CodeHead(code.lang, upper);
            var page := Html.RenderCodeBlock(code.lang, upper, Join(code.lines, "\n"));
            && page.Some? && head <= page.value
            && (Html.CodeBehind(head, page.value) == code.lines <==> code.lines != [])
  {
    hide BlocksIn, SplitLines, Split, Join, Html.Decode, Html.UpToTag, Html.CodeHead, Html.RenderCodeBlock,
         Html.IsInherited;
    var lines := SplitLines(md);
    var code := BlocksIn(lines)[j];
    CodeLines(lines, j);
    forall i | 0 <= i < |code.lines|
      ensures '\n' !in code.lines[i]
    {
      assert code.lines[i] in code.lines;
      assert code.lines[i] in lines;
      var k :| 0 <= k < |lines| && lines[k] == code.lines[i];
      LinesHaveNoBreaks(md, k);
    }
    Html.CodeBlockRoundTrip(code.lang, upper, code.lines);
  }

  // The whole converter; None stands for an exception, which happens exactly on the pages some turn
  // of whose scan starts at a bad line.
  method Convert(md: string, slugify: string -> string) returns (page: Option<Page>)
    ensures var lines := SplitLines(md);
            page == if Clean(Parse(lines)) then Some(PageOf(BlocksIn(lines), slugify)) else None
    ensures var lines := SplitLines(md);
            page.None? <==> exists k: nat :: StartsAt(lines, k) && Bad(lines[k..])
  {
    var lines := SplitLines(md);
    CleanExactly(lines);
    var blocks, headings, anchors, used := [], [], {}, map[];
    var i := 0;
    Start(lines, slugify);
    hide SplitLines, StartsAt, Bad, Clean, Parse, BlocksIn, Entries, IdsOf, Slugs, A.Used, A.Count, A.Anchor, Take,
         Choose, Html.ReplaceAll;
    while i < |lines|
      invariant 0 <= i <= |lines| + 1
      invariant headings == Entries(blocks, slugify) && anchors == IdsOf(headings)
      invariant used == A.Used(Slugs(blocks, slugify))
      invariant i < |lines| ==>
                  && (Clean(Parse(lines)) <==> Clean(Parse(lines[i..])))
                  && BlocksIn(lines) == blocks + BlocksIn(lines[i..])
      invariant i >= |lines| ==> Clean(Parse(lines)) && BlocksIn(lines) == blocks
      decreases |lines| + 1 - i
    {
      ghost var rest := lines[i..];
      var branch := Classify(lines, i);
      var next, out := Scan(lines, i, branch);
      TurnEffect(lines, i, next, out, blocks);
      if out.Throws? {
        return None;
      }
      if out.Made? {
        if out.block.Heading? {
          var slug := slugify(out.block.text);
          var id;
          used, id := AnchorFor(Slugs(blocks, slugify), used, slug);
          HeadingAdded(blocks, headings, out.block, slugify);
          anchors := anchors + {id};
          headings := headings + [Entry(out.block.level, Html.ReplaceAll(out.block.text, '`', ""), id)];
        } else {
          BlockAdded(blocks, out.block, slugify);
        }
        blocks := blocks + [out.block];
      } else {
        assert blocks + MadeBy(out) == blocks;
      }
      i := next;
    }
    page := Some(Page(blocks, headings, anchors));
  }
}
