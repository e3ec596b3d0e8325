/** `HtmlRenderer.escapeHtml` and `wrapInTemplate`: the page that wraps
    rendered HTML, its title and its stylesheet. The stylesheet constant
    `ENHANCED_CSS` is a parameter here (`enhancedCss`). */
module HtmlRenderer {
  import opened Wrappers
  import opened Js

  // ---------------------------------------------------------------
  // escapeHtml
  // ---------------------------------------------------------------

  predicate Special(c: char) {
    c == '&' || c == '<' || c == '>' || c == '"' || c == '\''
  }

  function EscapeChar(c: char): (e: string)
    ensures !Special(c) ==> e == [c]
  {
    if c == '&' then "&amp;"
    else if c == '<' then "&lt;"
    else if c == '>' then "&gt;"
    else if c == '"' then "&quot;"
    else if c == '\'' then "&#039;"
    else [c]
  }

  /** `text.replace(/[&<>"']/g, (m) => map[m])` */
  function EscapeHtml(s: string): (t: string)
    ensures |t| >= |s|
    ensures forall i :: 0 <= i < |t| ==> t[i] != '<' && t[i] != '>' && t[i] != '"' && t[i] != '\''
  {
    if s == [] then []
    else
      var rest := EscapeHtml(s[1..]);
      assert forall i :: 0 <= i < |EscapeChar(s[0])| ==>
        EscapeChar(s[0])[i] != '<' && EscapeChar(s[0])[i] != '>' && EscapeChar(s[0])[i] != '"' && EscapeChar(s[0])[i] != '\'';
      EscapeChar(s[0]) + rest
  }

  /** Text without special characters comes out as it went in. */
  lemma {:induction false} EscapePlain(s: string)
    requires forall i :: 0 <= i < |s| ==> !Special(s[i])
    ensures EscapeHtml(s) == s
  {
    if s != [] {
      EscapePlain(s[1..]);
    }
  }

  /** Reading the five entities back. */
  function Unescape(t: string): string
    decreases |t|
  {
    if t == [] then []
    else if StartsWith(t, "&amp;") then "&" + Unescape(t[5..])
    else if StartsWith(t, "&lt;") then "<" + Unescape(t[4..])
    else if StartsWith(t, "&gt;") then ">" + Unescape(t[4..])
    else if StartsWith(t, "&quot;") then "\"" + Unescape(t[6..])
    else if StartsWith(t, "&#039;") then "'" + Unescape(t[6..])
    else [t[0]] + Unescape(t[1..])
  }

  lemma UnescapeOther(t: string)
    requires t != [] && t[0] != '&'
    ensures Unescape(t) == [t[0]] + Unescape(t[1..])
  {
    NotPrefix(t, "&amp;");
    NotPrefix(t, "&lt;");
    NotPrefix(t, "&gt;");
    NotPrefix(t, "&quot;");
    NotPrefix(t, "&#039;");
  }

  lemma NotPrefix(t: string, p: string)
    requires t != [] && p != [] && t[0] != p[0]
    ensures !StartsWith(t, p)
  {
    DifferAt(t, p, 0);
  }

  lemma DifferAt(t: string, p: string, k: nat)
    requires k < |t| && k < |p| && t[k] != p[k]
    ensures !StartsWith(t, p)
  {
    if |p| <= |t| {
      assert t[..|p|][k] == t[k];
    }
  }

  /** An entity is read back as the character it stands for. */
  lemma UnescapeEntity(c: char, rest: string)
    requires Special(c)
    ensures Unescape(EscapeChar(c) + rest) == [c] + Unescape(rest)
  {
    var e := EscapeChar(c);
    var t := e + rest;
    assert t[..|e|] == e && t[|e|..] == rest;
    if c != '&' {
      DifferAt(t, "&amp;", 1);
    }
    if c != '&' && c != '<' {
      DifferAt(t, "&lt;", 1);
    }
    if c == '"' || c == '\'' {
      DifferAt(t, "&gt;", 1);
    }
    if c == '\'' {
      DifferAt(t, "&quot;", 1);
    }
  }

  /** Escaping loses nothing: every original character can be read back. */
  lemma {:induction false} UnescapeEscape(s: string)
    ensures Unescape(EscapeHtml(s)) == s
  {
    if s != [] {
      UnescapeEscape(s[1..]);
      var e := EscapeChar(s[0]);
      var t := EscapeHtml(s);
      assert t == e + EscapeHtml(s[1..]);
      if !Special(s[0]) {
        assert e == [s[0]];
        assert t[0] == s[0] && t[1..] == EscapeHtml(s[1..]);
        UnescapeOther(t);
      } else {
        UnescapeEntity(s[0], EscapeHtml(s[1..]));
      }
      assert Unescape(t) == [s[0]] + s[1..];
    }
  }

  // ---------------------------------------------------------------
  // wrapInTemplate
  // ---------------------------------------------------------------

  /** The options `wrapInTemplate` reads; an absent field takes its default. */
  datatype RenderOptions = RenderOptions(
    includeStyles: Option<bool>,
    customCss: Option<string>,
    theme: Option<string>,
    forPdf: Option<bool>,
    pageSize: Option<string>,
    title: Option<string>)

  const PdfCssHead := "\n      @page {\n        "
  const PdfCssTail :=
    "\n        margin: 20mm;\n      }\n      \n"
    + "      .metric-card, .chart-container, table, figure {\n        page-break-inside: avoid;\n      }\n      \n"
    + "      h1, h2, h3, h4, h5, h6 {\n        page-break-after: avoid;\n      }\n      \n"
    + "      * {\n        print-color-adjust: exact;\n        -webkit-print-color-adjust: exact;\n      }\n    "

  function SizeRule(pageSize: string): string { "size: " + pageSize + ";" }

  function PageSize(o: RenderOptions): string { o.pageSize.GetOr("A4") }

  /** The print rules, present only for PDF output and carrying the page size. */
  function PdfCss(o: RenderOptions): (css: string)
    ensures css != "" <==> o.forPdf == Some(true)
    ensures css != "" ==> Contains(css, SizeRule(PageSize(o)))
  {
    if o.forPdf.GetOr(false) then
      var css := PdfCssHead + SizeRule(PageSize(o)) + PdfCssTail;
      ContainsAt(css, SizeRule(PageSize(o)), |PdfCssHead|);
      css
    else ""
  }

  /** `customCss || (includeStyles ? ENHANCED_CSS + pdfCss : "")` */
  function Css(o: RenderOptions, enhancedCss: string): (css: string)
    ensures o.customCss.Some? && o.customCss.value != "" ==> css == o.customCss.value
    ensures (o.customCss.None? || o.customCss.value == "") ==>
      css == if o.includeStyles.GetOr(true) then enhancedCss + PdfCss(o) else ""
  {
    if o.customCss.Some? && o.customCss.value != "" then o.customCss.value
    else if o.includeStyles.GetOr(true) then enhancedCss + PdfCss(o)
    else ""
  }

  /** A stylesheet element only for a non-empty stylesheet. */
  function StyleElement(css: string): (e: string)
    ensures e == "" <==> css == ""
    ensures css != "" ==> StartsWith(e, "<style>") && EndsWith(e, "</style>")
  {
    if css != "" then "<style>" + css + "</style>" else ""
  }

  function TitleOf(o: RenderOptions): string { o.title.GetOr("Report") }

  const Doctype := "<!DOCTYPE html>"
  const DocHead :=
    Doctype + "\n<html lang=\"en\">\n<head>\n  <meta charset=\"UTF-8\">\n"
    + "  <meta name=\"viewport\" content=\"width=device-width, initial-scale=1.0\">\n  "
  const DocAfterTitle :=
    "\n  <script src=\"https://cdn.tailwindcss.com\"></script>\n    <script>\n"
    + "    tailwind.config = {\n      corePlugins: {\n        preflight: false\n      }\n    };\n  </script>\n  "
  const DocAfterStyle := "\n</head>\n<body data-theme=\""
  const DocAfterTheme := "\">\n  "
  const DocEnd := "\n</body>\n</html>"

  /** The page between the outer newline and indentation of the template. */
  function TitleElement(o: RenderOptions): string {
    "<title>" + EscapeHtml(TitleOf(o)) + "</title>"
  }

  /** Everything after the title element. */
  function AfterTitle(content: string, o: RenderOptions, enhancedCss: string): (r: string)
    ensures EndsWith(r, "</html>")
  {
    var front := DocAfterTitle + StyleElement(Css(o, enhancedCss))
      + DocAfterStyle + o.theme.GetOr("light") + DocAfterTheme + content;
    assert (front + DocEnd)[|front + DocEnd| - 7..] == DocEnd[|DocEnd| - 7..];
    front + DocEnd
  }

  function Page(content: string, o: RenderOptions, enhancedCss: string): string {
    DocHead + TitleElement(o) + AfterTitle(content, o, enhancedCss)
  }

  /** `wrapInTemplate(htmlContent, options)` */
  function WrapInTemplate(content: string, o: RenderOptions, enhancedCss: string): string {
    Trim("\n" + Page(content, o, enhancedCss) + "\n    ")
  }

  /** Trimming removes only the template's own leading newline and
      trailing indentation: the page starts at the doctype and ends at
      `</html>`, whatever the content. */
  lemma WrapIsPage(content: string, o: RenderOptions, enhancedCss: string)
    ensures WrapInTemplate(content, o, enhancedCss) == Page(content, o, enhancedCss)
    ensures StartsWith(WrapInTemplate(content, o, enhancedCss), "<!DOCTYPE html>")
    ensures EndsWith(WrapInTemplate(content, o, enhancedCss), "</html>")
  {
    var head := DocHead + TitleElement(o);
    assert DocHead[..15] == Doctype;
    assert head[..15] == DocHead[..15];
    TrimPage(head, AfterTitle(content, o, enhancedCss));
  }

  /** A page that starts with the doctype and ends with `</html>` survives
      trimming unchanged. */
  lemma TrimPage(head: string, tail: string)
    requires StartsWith(head, Doctype) && EndsWith(tail, "</html>")
    ensures Trim("\n" + (head + tail) + "\n    ") == head + tail
    ensures StartsWith(head + tail, Doctype) && EndsWith(head + tail, "</html>")
  {
    var p := head + tail;
    assert p[..15] == head[..15];
    assert p[|p| - 7..] == tail[|tail| - 7..];
    assert p[0] == '<' && p[|p| - 1] == '>';
    assert Blank("\n") && Blank("\n    ");
    TrimAround("\n", p, "\n    ");
  }

  /** The title element holds the escaped title, "Report" by default. */
  lemma TitleShown(content: string, o: RenderOptions, enhancedCss: string)
    ensures Contains(WrapInTemplate(content, o, enhancedCss), "<title>" + EscapeHtml(TitleOf(o)) + "</title>")
  {
    WrapIsPage(content, o, enhancedCss);
    var t := TitleElement(o);
    var p := DocHead + t + AfterTitle(content, o, enhancedCss);
    assert p[|DocHead|..|DocHead| + |t|] == t;
    ContainsAt(p, t, |DocHead|);
  }
}
