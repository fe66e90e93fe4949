// Escaping text for HTML, and the code blocks it is used in.

module Html {
  import opened Common
  import opened Text

  // `s.replace(/c/g, t)`.
  function ReplaceAll(s: string, c: char, t: string): string {
    if s == "" then "" else (if s[0] == c then t else [s[0]]) + ReplaceAll(s[1..], c, t)
  }

  function EscapeHtml(s: string): string {
    ReplaceAll(ReplaceAll(ReplaceAll(ReplaceAll(s, '&', "&amp;"), '<', "&lt;"), '>', "&gt;"), '"', "&quot;")
  }

  // The same in one pass.
  function Entity(c: char): string {
    match c
    case '&' => "&amp;"
    case '<' => "&lt;"
    case '>' => "&gt;"
    case '"' => "&quot;"
    case _ => [c]
  }

  function Entities(s: string): string {
    if s == "" then "" else Entity(s[0]) + Entities(s[1..])
  }

  // What a browser makes of it.
  function Decode(s: string): string
    decreases |s|
  {
    if s == "" then ""
    else if "&amp;" <= s then "&" + Decode(s[5..])
    else if "&lt;" <= s then "<" + Decode(s[4..])
    else if "&gt;" <= s then ">" + Decode(s[4..])
    else if "&quot;" <= s then "\"" + Decode(s[6..])
    else [s[0]] + Decode(s[1..])
  }

  lemma {:induction false} ReplaceAllAppend(a: string, b: string, c: char, t: string)
    ensures ReplaceAll(a + b, c, t) == ReplaceAll(a, c, t) + ReplaceAll(b, c, t)
    decreases |a|
  {
    if a == "" {
      assert a + b == b;
    } else {
      assert (a + b)[1..] == a[1..] + b;
      ReplaceAllAppend(a[1..], b, c, t);
    }
  }

  lemma {:induction false} ReplaceAllAbsent(s: string, c: char, t: string)
    requires c !in s
    ensures ReplaceAll(s, c, t) == s
  {
    if s == "" {
    } else {
      ReplaceAllAbsent(s[1..], c, t);
      assert [s[0]] + s[1..] == s;
    }
  }

  lemma EscapeAppend(a: string, b: string)
    ensures EscapeHtml(a + b) == EscapeHtml(a) + EscapeHtml(b)
  {
    ReplaceAllAppend(a, b, '&', "&amp;");
    var a1, b1 := ReplaceAll(a, '&', "&amp;"), ReplaceAll(b, '&', "&amp;");
    ReplaceAllAppend(a1, b1, '<', "&lt;");
    var a2, b2 := ReplaceAll(a1, '<', "&lt;"), ReplaceAll(b1, '<', "&lt;");
    ReplaceAllAppend(a2, b2, '>', "&gt;");
    ReplaceAllAppend(ReplaceAll(a2, '>', "&gt;"), ReplaceAll(b2, '>', "&gt;"), '"', "&quot;");
  }

  lemma ReplaceOne(c: char, d: char, t: string)
    ensures ReplaceAll([c], d, t) == if c == d then t else [c]
  {
    assert [c][1..] == "";
  }

  // The entities, letter by letter.
  lemma Spelled()
    ensures "&amp;" == ['&', 'a', 'm', 'p', ';'] && "&lt;" == ['&', 'l', 't', ';']
    ensures "&gt;" == ['&', 'g', 't', ';'] && "&quot;" == ['&', 'q', 'u', 'o', 't', ';']
  {
  }

  lemma EscapeAmpersand()
    ensures EscapeHtml(['&']) == "&amp;"
  {
    hide ReplaceAll;
    Spelled();
    ReplaceOne('&', '&', "&amp;");
    ReplaceAllAbsent("&amp;", '<', "&lt;");
    ReplaceAllAbsent("&amp;", '>', "&gt;");
    ReplaceAllAbsent("&amp;", '"', "&quot;");
  }

  lemma EscapeLess()
    ensures EscapeHtml(['<']) == "&lt;"
  {
    hide ReplaceAll;
    Spelled();
    ReplaceOne('<', '&', "&amp;");
    ReplaceOne('<', '<', "&lt;");
    ReplaceAllAbsent("&lt;", '>', "&gt;");
    ReplaceAllAbsent("&lt;", '"', "&quot;");
  }

  lemma EscapeGreater()
    ensures EscapeHtml(['>']) == "&gt;"
  {
    hide ReplaceAll;
    Spelled();
    ReplaceOne('>', '&', "&amp;");
    ReplaceOne('>', '<', "&lt;");
    ReplaceOne('>', '>', "&gt;");
    ReplaceAllAbsent("&gt;", '"', "&quot;");
  }

  lemma EscapeOther(c: char)
    requires c != '&' && c != '<' && c != '>'
    ensures EscapeHtml([c]) == if c == '"' then "&quot;" else [c]
  {
    hide ReplaceAll;
    ReplaceOne(c, '&', "&amp;");
    ReplaceOne(c, '<', "&lt;");
    ReplaceOne(c, '>', "&gt;");
    ReplaceOne(c, '"', "&quot;");
  }

  lemma EscapeOne(c: char)
    ensures EscapeHtml([c]) == Entity(c)
  {
    hide EscapeHtml;
    match c
    case '&' => EscapeAmpersand();
    case '<' => EscapeLess();
    case '>' => EscapeGreater();
    case _ => EscapeOther(c);
  }

  // Replacing ampersands first makes the four passes independent of each other.
  lemma {:induction false} EscapeIsOnePass(s: string)
    ensures EscapeHtml(s) == Entities(s)
  {
    if s == "" {
    } else {
      assert s == [s[0]] + s[1..];
      EscapeAppend([s[0]], s[1..]);
      EscapeOne(s[0]);
      EscapeIsOnePass(s[1..]);
    }
  }

  lemma DecodeEntity(c: char, rest: string)
    ensures Decode(Entity(c) + rest) == [c] + Decode(rest)
  {
    var s := Entity(c) + rest;
    assert s[|Entity(c)|..] == rest;
    match c
    case '&' => assert s[..5] == "&amp;";
    case '<' => assert s[..4] == "&lt;"; assert s[1] == 'l';
    case '>' => assert s[..4] == "&gt;"; assert s[1] == 'g';
    case '"' => assert s[..6] == "&quot;"; assert s[1] == 'q';
    case _ => assert s[0] == c;
  }

  lemma {:induction false} DecodeEntities(s: string)
    ensures Decode(Entities(s)) == s
  {
    if s == "" {
    } else {
      DecodeEntities(s[1..]);
      DecodeEntity(s[0], Entities(s[1..]));
      assert [s[0]] + s[1..] == s;
    }
  }

  lemma {:induction false} NoMarkup(s: string)
    ensures '<' !in Entities(s) && '>' !in Entities(s) && '"' !in Entities(s)
  {
    if s == "" {
    } else {
      NoMarkup(s[1..]);
    }
  }

  // Nothing is lost: decoding gives the text back, and no markup character is left in between.
  lemma EscapeRoundTrip(s: string)
    ensures Decode(EscapeHtml(s)) == s
    ensures '<' !in EscapeHtml(s) && '>' !in EscapeHtml(s) && '"' !in EscapeHtml(s)
  {
    EscapeIsOnePass(s);
    DecodeEntities(s);
    NoMarkup(s);
  }

  // ----- code blocks -----

  // Names every JavaScript object inherits: looked up in the table of labels they yield a function
  // or an object instead of a string, and escaping that throws.
  predicate IsInherited(name: string) {
    name in {
      "constructor", "__defineGetter__", "__defineSetter__", "hasOwnProperty", "__lookupGetter__", "__lookupSetter__",
      "isPrototypeOf", "propertyIsEnumerable", "toString", "valueOf", "__proto__", "toLocaleString"}
  }

  // `upper` is toUpperCase, used for languages without a label of their own.
  function Label(lang: string, upper: string -> string): string {
    match lang
    case "json" => "JSON"
    case "jsonc" => "JSON"
    case "javascript" => "JavaScript"
    case "js" => "JavaScript"
    case "bash" => "Bash"
    case _ => upper(lang)
  }

  // Everything up to the code itself.
  function CodeHead(lang: string, upper: string -> string): string {
    Join([
      "<div class=\"code-block\">",
      "  <div class=\"code-head\">",
      "    <span class=\"code-lang\">" + EscapeHtml(Label(lang, upper)) + "</span>",
      "    <button class=\"code-copy\" type=\"button\" aria-label=\"Copy\">Copy</button>",
      "  </div>",
      "  <pre><code class=\"lang-" + EscapeHtml(lang) + "\">"], "\n")
  }

  // None when it throws.
  function RenderCodeBlock(lang: string, upper: string -> string, code: string): Option<string> {
    if IsInherited(lang) then None
    else Some(CodeHead(lang, upper) + EscapeHtml(code) + "</code></pre>\n</div>")
  }

  // The text of an element up to the next tag.
  function UpToTag(s: string): string {
    if s == "" || s[0] == '<' then "" else [s[0]] + UpToTag(s[1..])
  }

  lemma {:induction false} UpToTagOf(s: string, rest: string)
    requires '<' !in s && rest != "" && rest[0] == '<'
    ensures UpToTag(s + rest) == s
  {
    if s == "" {
      assert s + rest == rest;
    } else {
      assert (s + rest)[1..] == s[1..] + rest;
      UpToTagOf(s[1..], rest);
    }
  }

  // The lines a reader finds in the code element behind `head`.
  function CodeBehind(head: string, page: string): seq<string>
    requires |head| <= |page|
  {
    Split(Decode(UpToTag(page[|head|..])), '\n')
  }

  lemma RenderedCode(head: string, body: string, tail: string)
    ensures head <= head + body + tail && (head + body + tail)[|head|..] == body + tail
  {
  }

  lemma NoLines()
    ensures Join([], "\n") == "" && Split("", '\n') == [""]
  {
  }

  // Reading the code element of a rendered block gives back the fenced lines, except that a
  // block without lines looks like a block of one empty line.
  lemma CodeBlockRoundTrip(lang: string, upper: string -> string, lines: seq<string>)
    requires forall i :: 0 <= i < |lines| ==> '\n' !in lines[i]
    ensures var head := CodeHead(lang, upper);
            var page := RenderCodeBlock(lang, upper, Join(lines, "\n"));
            && (page.None? <==> IsInherited(lang))
            && (page.Some? ==>
                  && head <= page.value
                  && (CodeBehind(head, page.value) == lines <==> lines != [])
                  && (lines == [] ==> CodeBehind(head, page.value) == [""]))
  {
    hide IsInherited, CodeHead, EscapeHtml, UpToTag, Decode, Split, Join;
    var head, code, tail := CodeHead(lang, upper), Join(lines, "\n"), "</code></pre>\n</div>";
    RenderedCode(head, EscapeHtml(code), tail);
    EscapeRoundTrip(code);
    UpToTagOf(EscapeHtml(code), tail);
    if lines != [] {
      SplitJoin(lines, '\n');
    } else {
      NoLines();
    }
  }

  // The text between `open` and the next `close`, if there is one.
  function Between(page: string, at: nat, close: char): string
    requires at <= |page|
    decreases |page| - at
  {
    if at == |page| || page[at] == close then "" else [page[at]] + Between(page, at + 1, close)
  }

  lemma {:induction false} BetweenIs(before: string, s: string, after: string, close: char)
    requires close !in s && after != "" && after[0] == close
    ensures Between(before + s + after, |before|, close) == s
    decreases |s|
  {
    var page := before + s + after;
    if s == "" {
    } else {
      BetweenIs(before + [s[0]], s[1..], after, close);
      assert (before + [s[0]]) + s[1..] + after == page;
    }
  }

  // What the label of a code block should read.
  predicate Labels(lang: string, upper: string -> string, shown: string) {
    if lang == "json" || lang == "jsonc" then shown == "JSON"
    else if lang == "javascript" || lang == "js" then shown == "JavaScript"
    else if lang == "bash" then shown == "Bash"
    else shown == upper(lang)
  }

  const BEFORE_LABEL: string :=
    "<div class=\"code-block\">" + "\n" + "  <div class=\"code-head\">" + "\n" + "    <span class=\"code-lang\">"

  const BEFORE_LANG: string :=
    "</span>" + "\n"
    + "    <button class=\"code-copy\" type=\"button\" aria-label=\"Copy\">Copy</button>" + "\n"
    + "  </div>" + "\n" + "  <pre><code class=\"lang-"

  lemma JoinSix(a: string, b: string, c: string, d: string, e: string, f: string, sep: string)
    ensures Join([a, b, c, d, e, f], sep) == a + sep + b + sep + c + sep + d + sep + e + sep + f
  {
    assert [a, b, c, d, e, f][1..] == [b, c, d, e, f] && [b, c, d, e, f][1..] == [c, d, e, f];
    assert [c, d, e, f][1..] == [d, e, f] && [d, e, f][1..] == [e, f] && [e, f][1..] == [f];
    assert Join([e, f], sep) == e + sep + f;
    assert Join([d, e, f], sep) == d + sep + (e + sep + f);
    assert Join([c, d, e, f], sep) == c + sep + (d + sep + (e + sep + f));
  }

  // The head around the two texts in it.
  lemma Regrouped(a: string, b: string, c: string, x: string, c2: string, d: string, e: string, f: string, y: string,
        f2: string, n: string)
    ensures a + n + b + n + (c + x + c2) + n + d + n + e + n + (f + y + f2) ==
            (a + n + b + n + c) + x + (c2 + n + d + n + e + n + f) + y + f2
  {
  }

  lemma HeadIs(lang: string, upper: string -> string)
    ensures CodeHead(lang, upper) ==
            BEFORE_LABEL + EscapeHtml(Label(lang, upper)) + BEFORE_LANG + EscapeHtml(lang) + "\">"
  {
    hide EscapeHtml, Label, Join;
    var a, b, c := "<div class=\"code-block\">", "  <div class=\"code-head\">", "    <span class=\"code-lang\">";
    var d := "    <button class=\"code-copy\" type=\"button\" aria-label=\"Copy\">Copy</button>";
    var e, f := "  </div>", "  <pre><code class=\"lang-";
    var x, y := EscapeHtml(Label(lang, upper)), EscapeHtml(lang);
    JoinSix(a, b, c + x + "</span>", d, e, f + y + "\">", "\n");
    Regrouped(a, b, c, x, "</span>", d, e, f, y, "\">", "\n");
  }

  // A reader finds the label and the language of a code block in its head.
  lemma HeadReadsBack(lang: string, upper: string -> string)
    ensures var head, shown := CodeHead(lang, upper), EscapeHtml(Label(lang, upper));
            && |BEFORE_LABEL + shown + BEFORE_LANG| <= |head|
            && Labels(lang, upper, Decode(Between(head, |BEFORE_LABEL|, '<')))
            && Decode(Between(head, |BEFORE_LABEL + shown + BEFORE_LANG|, '"')) == lang
  {
    hide EscapeHtml, Decode, BEFORE_LABEL, BEFORE_LANG;
    var shown := EscapeHtml(Label(lang, upper));
    HeadIs(lang, upper);
    LangFollows();
    EscapeRoundTrip(Label(lang, upper));
    EscapeRoundTrip(lang);
    var rest := BEFORE_LANG + EscapeHtml(lang) + "\">";
    assert CodeHead(lang, upper) == BEFORE_LABEL + shown + rest;
    BetweenIs(BEFORE_LABEL, shown, rest, '<');
    BetweenIs(BEFORE_LABEL + shown + BEFORE_LANG, EscapeHtml(lang), "\">", '"');
    LabelIsRight(lang, upper);
  }

  lemma LangFollows()
    ensures BEFORE_LANG != "" && BEFORE_LANG[0] == '<'
  {
    assert "</span>"[0] == '<';
  }

  lemma LabelIsRight(lang: string, upper: string -> string)
    ensures Labels(lang, upper, Label(lang, upper))
  {
  }
}
