/**
 * The HTML report: escaping, the summary list, the link domain and the block
 * structure of the document (topic sections with cards, the top-3 block, the
 * weather line and the empty-state notice).  The stylesheet and the fixed
 * markup around the blocks are constants; indentation whitespace of the
 * markup is not reproduced.
 */
module HtmlBuilder {
  import opened Wrappers
  import opened Text
  import opened DigestItems

  // ---------------------------------------------------------------------------
  // esc
  // ---------------------------------------------------------------------------

  /** The characters `html.escape(s, quote=True)` replaces. */
  const Special: set<char> := {'&', '<', '>', '"', '\''}

  function EscChar(c: char): string
  {
    match c
    case '&' => "&amp;"
    case '<' => "&lt;"
    case '>' => "&gt;"
    case '"' => "&quot;"
    case '\'' => "&#x27;"
    case _ => [c]
  }

  /** No character of `s` is one that would open or close markup or an attribute value. */
  predicate Escaped(s: string)
  {
    forall k :: 0 <= k < |s| ==> s[k] != '<' && s[k] != '>' && s[k] != '"' && s[k] != '\''
  }

  /** `esc`: `html.escape(s or "", quote=True)`. */
  function Esc(s: string): (r: string)
    ensures Escaped(r)
    ensures |r| >= |s|
  {
    if s == [] then [] else EscChar(s[0]) + Esc(s[1..])
  }

  /** Text without special characters is left as it is. */
  lemma {:induction false} EscPlain(s: string)
    requires forall k :: 0 <= k < |s| ==> s[k] !in Special
    ensures Esc(s) == s
  {
    if s != [] {
      EscPlain(s[1..]);
      assert s == [s[0]] + s[1..];
    }
  }

  /** Reverses `Esc`: decodes the five entities it produces, keeps everything else. */
  function Unescape(s: string): string
    decreases |s|
  {
    if s == [] then []
    else if s[0] != '&' then [s[0]] + Unescape(s[1..])
    else if |s| >= 5 && s[..5] == "&amp;" then "&" + Unescape(s[5..])
    else if |s| >= 4 && s[..4] == "&lt;" then "<" + Unescape(s[4..])
    else if |s| >= 4 && s[..4] == "&gt;" then ">" + Unescape(s[4..])
    else if |s| >= 6 && s[..6] == "&quot;" then "\"" + Unescape(s[6..])
    else if |s| >= 6 && s[..6] == "&#x27;" then "'" + Unescape(s[6..])
    else [s[0]] + Unescape(s[1..])
  }

  /** Each of the five entities decodes to its character. */
  lemma UnescapeAmp(rest: string)
    ensures Unescape("&amp;" + rest) == "&" + Unescape(rest)
  {
    var s := "&amp;" + rest;
    assert s[..5] == "&amp;" && s[5..] == rest;
  }

  lemma UnescapeLt(rest: string)
    ensures Unescape("&lt;" + rest) == "<" + Unescape(rest)
  {
    var s := "&lt;" + rest;
    assert s[1] == 'l' && s[..4] == "&lt;" && s[4..] == rest;
  }

  lemma UnescapeGt(rest: string)
    ensures Unescape("&gt;" + rest) == ">" + Unescape(rest)
  {
    var s := "&gt;" + rest;
    assert s[1] == 'g' && s[..4] == "&gt;" && s[4..] == rest;
  }

  lemma UnescapeQuot(rest: string)
    ensures Unescape("&quot;" + rest) == "\"" + Unescape(rest)
  {
    var s := "&quot;" + rest;
    assert s[1] == 'q' && s[..6] == "&quot;" && s[6..] == rest;
  }

  lemma UnescapeApos(rest: string)
    ensures Unescape("&#x27;" + rest) == "'" + Unescape(rest)
  {
    var s := "&#x27;" + rest;
    assert s[1] == '#' && s[..6] == "&#x27;" && s[6..] == rest;
  }

  lemma UnescapeEntity(c: char, rest: string)
    requires c in Special
    ensures Unescape(EscChar(c) + rest) == [c] + Unescape(rest)
  {
    if c == '&' {
      UnescapeAmp(rest);
    } else if c == '<' {
      UnescapeLt(rest);
    } else if c == '>' {
      UnescapeGt(rest);
    } else if c == '"' {
      UnescapeQuot(rest);
    } else {
      UnescapeApos(rest);
    }
  }

  /** A character that is not special passes through `Unescape`. */
  lemma UnescapePlain(c: char, rest: string)
    requires c !in Special
    ensures Unescape([c] + rest) == [c] + Unescape(rest)
  {
    var s := [c] + rest;
    assert s[0] == c && s[1..] == rest;
  }

  lemma UnescapeEscChar(c: char, rest: string)
    ensures Unescape(EscChar(c) + rest) == [c] + Unescape(rest)
  {
    if c in Special {
      UnescapeEntity(c, rest);
    } else {
      assert EscChar(c) == [c];
      UnescapePlain(c, rest);
    }
  }

  /** Escaping loses nothing: unescaping its output gives the input back. */
  lemma {:induction false} UnescapeEsc(s: string)
    ensures Unescape(Esc(s)) == s
  {
    if s != [] {
      UnescapeEscChar(s[0], Esc(s[1..]));
      UnescapeEsc(s[1..]);
      assert s == [s[0]] + s[1..];
    }
  }

  /** Escaping is injective. */
  lemma EscInjective(a: string, b: string)
    requires Esc(a) == Esc(b)
    ensures a == b
  {
    UnescapeEsc(a);
    UnescapeEsc(b);
  }

  // ---------------------------------------------------------------------------
  // list items
  // ---------------------------------------------------------------------------

  function ListItem(content: string): string
  {
    "<li>" + content + "</li>"
  }

  /** `"".join(f"<li>{c}</li>" for c in contents)`. */
  function ListItems(contents: seq<string>): string
  {
    if contents == [] then "" else ListItem(contents[0]) + ListItems(contents[1..])
  }

  /** Reads a run of `<li>…</li>` items whose contents hold no `<`. */
  function ParseListItems(h: string): Option<seq<string>>
    decreases |h|
  {
    if h == [] then Some([])
    else if |h| >= 4 && h[..4] == "<li>" then
      var body := h[4..];
      var i := IndexOf(body, '<');
      if i + 5 <= |body| && body[i..i + 5] == "</li>" then
        match ParseListItems(body[i + 5..])
        case None => None
        case Some(rest) => Some([body[..i]] + rest)
      else None
    else None
  }


  lemma {:induction false} IndexOfPrefix(a: string, b: string, c: char)
    requires forall j :: 0 <= j < |a| ==> a[j] != c
    requires b != [] && b[0] == c
    ensures IndexOf(a + b, c) == |a|
  {
    if a != [] {
      assert (a + b)[1..] == a[1..] + b;
      IndexOfPrefix(a[1..], b, c);
    }
  }

  /** One item whose content holds no `<` is read back, followed by the rest. */
  lemma ParseListItemCons(c: string, rest: string)
    requires Escaped(c)
    ensures ParseListItems(ListItem(c) + rest) ==
      match ParseListItems(rest)
      case None => None
      case Some(cs) => Some([c] + cs)
  {
    var h := ListItem(c) + rest;
    var tail := "</li>" + rest;
    assert h == "<li>" + (c + tail);
    var body := h[4..];
    assert body == c + tail;
    IndexOfPrefix(c, tail, '<');
    assert body[|c|..|c| + 5] == "</li>";
    assert body[..|c|] == c && body[|c| + 5..] == rest;
  }

  /** A rendered item list can be read back: one item per content, in order. */
  lemma {:induction false} ParseListItemsOf(contents: seq<string>)
    requires forall k :: 0 <= k < |contents| ==> Escaped(contents[k])
    ensures ParseListItems(ListItems(contents)) == Some(contents)
  {
    if contents != [] {
      var c := contents[0];
      var tail := contents[1..];
      ParseListItemsOf(tail);
      ParseListItemCons(c, ListItems(tail));
      assert contents == [c] + tail;
    }
  }

  /** `[esc(c) for c in contents]`. */
  function EscAll(contents: seq<string>): (r: seq<string>)
    ensures |r| == |contents|
    ensures forall k :: 0 <= k < |r| ==> r[k] == Esc(contents[k])
  {
    seq(|contents|, k requires 0 <= k < |contents| => Esc(contents[k]))
  }

  function UnescapeAll(contents: seq<string>): (r: seq<string>)
    ensures |r| == |contents|
    ensures forall k :: 0 <= k < |r| ==> r[k] == Unescape(contents[k])
  {
    seq(|contents|, k requires 0 <= k < |contents| => Unescape(contents[k]))
  }

  /** Escaped items read back and unescaped give the original contents. */
  lemma EscapedListRoundTrip(contents: seq<string>)
    ensures ParseListItems(ListItems(EscAll(contents))) == Some(EscAll(contents))
    ensures UnescapeAll(EscAll(contents)) == contents
  {
    ParseListItemsOf(EscAll(contents));
    forall k | 0 <= k < |contents| ensures UnescapeAll(EscAll(contents))[k] == contents[k] {
      UnescapeEsc(contents[k]);
    }
  }

  // ---------------------------------------------------------------------------
  // summary_to_html_list
  // ---------------------------------------------------------------------------

  /** The characters `l.strip("-• ")` removes. */
  const BulletChars: set<char> := {'-', '•', ' '}

  /** One summary line cleaned of bullet marks: `l.strip("-• ").strip()`. */
  function CleanSummaryLine(l: string): (r: string)
    ensures IsStripped(r) && |r| <= |l|
  {
    Strip(StripSet(l, BulletChars))
  }

  /** `[l.strip("-• ").strip() for l in summary.splitlines() if l.strip()]`. */
  function SummaryLines(lines: seq<string>): (r: seq<string>)
    ensures |r| <= |lines|
  {
    if lines == [] then []
    else if Strip(lines[0]) == [] then SummaryLines(lines[1..])
    else [CleanSummaryLine(lines[0])] + SummaryLines(lines[1..])
  }

  /** Number of lines that are not blank. */
  function CountNonBlank(lines: seq<string>): nat
  {
    if lines == [] then 0
    else (if Strip(lines[0]) == [] then 0 else 1) + CountNonBlank(lines[1..])
  }

  /** One cleaned line per non-blank line, in order: the k-th comes from the k-th non-blank line. */
  lemma {:induction false} SummaryLinesCount(lines: seq<string>)
    ensures |SummaryLines(lines)| == CountNonBlank(lines)
    ensures SummaryLines(lines) == [] <==> forall k :: 0 <= k < |lines| ==> Strip(lines[k]) == []
  {
    if lines != [] {
      SummaryLinesCount(lines[1..]);
      assert forall k :: 0 < k < |lines| ==> lines[k] == lines[1..][k - 1];
    }
  }

  const SummaryListOpen: string := "<ul class='summary-list'>"
  const SummaryListClose: string := "</ul>"

  /** `summary_to_html_list`. */
  function SummaryToHtmlList(summary: string): string
  {
    var lines := SummaryLines(SplitLines(summary));
    if lines == [] then Esc(summary)
    else SummaryListOpen + ListItems(EscAll(lines)) + SummaryListClose
  }

  /** The three parts of `open + items + close` can be cut apart again. */
  lemma WrappedParts(open: string, items: string, close: string)
    ensures var h := open + items + close;
      && |h| == |open| + |items| + |close|
      && h[..|open|] == open && h[|open|..|h| - |close|] == items && h[|h| - |close|..] == close
  {
  }

  /** A summary without any non-blank line is rendered as its escaped text. */
  lemma SummaryBlankIsEscaped(summary: string)
    requires forall k :: 0 <= k < |SplitLines(summary)| ==> Strip(SplitLines(summary)[k]) == []
    ensures SummaryToHtmlList(summary) == Esc(summary)
  {
    SummaryLinesCount(SplitLines(summary));
  }

  /**
   * A summary with a non-blank line gives a list with exactly one item per
   * non-blank line, in order, holding that line cleaned of bullet marks and
   * escaped.
   */
  lemma SummaryListItemsSpec(summary: string)
    requires SummaryLines(SplitLines(summary)) != []
    ensures var lines := SummaryLines(SplitLines(summary));
      var h := SummaryToHtmlList(summary);
      var n := |SummaryListOpen|;
      && |lines| == CountNonBlank(SplitLines(summary))
      && |h| >= n + |SummaryListClose|
      && h[..n] == SummaryListOpen && h[|h| - |SummaryListClose|..] == SummaryListClose
      && ParseListItems(h[n..|h| - |SummaryListClose|]) == Some(EscAll(lines))
      && UnescapeAll(EscAll(lines)) == lines
  {
    var lines := SummaryLines(SplitLines(summary));
    SummaryLinesCount(SplitLines(summary));
    WrappedParts(SummaryListOpen, ListItems(EscAll(lines)), SummaryListClose);
    EscapedListRoundTrip(lines);
  }

  // ---------------------------------------------------------------------------
  // link_domain
  // ---------------------------------------------------------------------------

  /** Length of a leading `https://` or `http://`, or 0 when there is neither. */
  function SchemeLength(url: string): (n: nat)
    ensures n == 0 || n == 7 || n == 8
    ensures n <= |url|
  {
    if |url| >= 8 && url[..8] == "https://" then 8
    else if |url| >= 7 && url[..7] == "http://" then 7
    else 0
  }

  /** `link_domain`: what `^https?://([^/]+)/` captures, or "" when the pattern does not match. */
  function LinkDomain(url: string): (d: string)
    ensures forall j :: 0 <= j < |d| ==> d[j] != '/'
    ensures d != [] ==> var p := SchemeLength(url);
      p > 0 && p + |d| < |url| && url[p..p + |d|] == d && url[p + |d|] == '/'
    ensures d == [] <==>
      || SchemeLength(url) == 0
      || IndexOf(url[SchemeLength(url)..], '/') == 0
      || IndexOf(url[SchemeLength(url)..], '/') == |url| - SchemeLength(url)
  {
    var p := SchemeLength(url);
    if p == 0 then ""
    else
      var rest := url[p..];
      var i := IndexOf(rest, '/');
      if i == 0 || i == |rest| then "" else rest[..i]
  }

  /** The host of a URL of the form `scheme://host/rest` is exactly `host`. */
  lemma LinkDomainOf(scheme: string, host: string, rest: string)
    requires scheme == "http://" || scheme == "https://"
    requires host != [] && forall j :: 0 <= j < |host| ==> host[j] != '/'
    ensures LinkDomain(scheme + host + "/" + rest) == host
  {
    var url := scheme + host + "/" + rest;
    assert url == scheme + (host + ("/" + rest));
    assert url[..|scheme|] == scheme;
    if scheme == "http://" {
      assert url[4] == ':' && "https://"[4] == 's';
      if |url| >= 8 {
        assert url[..8][4] == url[4];
      }
    }
    assert SchemeLength(url) == |scheme|;
    assert url[|scheme|..] == host + ("/" + rest);
    IndexOfPrefix(host, "/" + rest, '/');
  }

  // ---------------------------------------------------------------------------
  // build_html
  // ---------------------------------------------------------------------------

  const BadgeTag: string := "<span"
  /** The breaking-news badge put in front of a card's title. */
  const BreakingBadge: string := BadgeTag + " class=\"badge breaking\">NAUJA</span>"

  const CardOpen: string := "<article class=\"card\"><div class=\"card-top\"><h3 class=\"card-title\">"
  const HeadingClose: string := "</h3"
  const CardMetaOpen: string := "><div class=\"meta\"><span class=\"meta-item\">"
  const CardTopicOpen: string := "</span><span class=\"dot\">•</span><span class=\"meta-item\">"
  const CardLinkOpen: string := "</span><span class=\"dot\">•</span><a class=\"meta-link\" href=\""
  const CardLinkText: string := "\" target=\"_blank\" rel=\"noopener noreferrer\">Skaityti "
  const CardBodyOpen: string := "</a></div></div><div class=\"card-body\">"
  const CardClose: string := "</div></article>"

  /** The badge of an item: present exactly for breaking items. */
  function Badge(it: Item): string
  {
    if it.isBreaking then BreakingBadge else ""
  }

  /** The part of a card after its title: time, topic, link, domain and summary. */
  function CardTail(topic: string, it: Item): string
  {
    HeadingClose + CardMeta(topic, it)
  }

  /** Time, topic, link, domain and summary of a card. */
  function CardMeta(topic: string, it: Item): string
  {
    CardMetaOpen + Esc(it.publishedLocalStr) + CardTopicOpen + Esc(topic)
      + CardLinkOpen + Esc(it.url) + CardLinkText + Esc(LinkDomain(it.url))
      + CardBodyOpen + SummaryToHtmlList(it.summary) + CardClose
  }

  /** One card of a topic section. */
  function CardHtml(topic: string, it: Item): string
  {
    CardOpen + Badge(it) + Esc(it.title) + CardTail(topic, it)
  }

  /** Text that starts differently from `marker` cannot start with `o + marker`. */
  lemma PrefixDecides(o: string, marker: string, r: string)
    requires |marker| >= 2 && |r| >= 2 && r[..2] != marker[..2]
    ensures !(|o + r| >= |o| + |marker| && (o + r)[..|o| + |marker|] == o + marker)
  {
    if |o + r| >= |o| + |marker| {
      assert (o + r)[..|o| + |marker|][|o|..|o| + 2] == r[..2];
      assert (o + marker)[|o|..|o| + 2] == marker[..2];
    }
  }

  /** The card text after its badge never starts like the badge. */
  lemma NotBadgeStart(e: string, t: string)
    requires Escaped(e) && |t| >= 2 && t[0] == '<' && t[1] == '/'
    ensures |e + t| >= 2 && (e + t)[..2] != BreakingBadge[..2]
  {
    assert BreakingBadge[0] == BadgeTag[0] == '<' && BreakingBadge[1] == BadgeTag[1] == 's';
    if e != [] {
      assert (e + t)[0] == e[0] != '<';
    } else {
      assert (e + t)[1] == '/';
    }
  }

  /** After the card opening, the badge is present exactly when `breaking` says so. */
  lemma BadgeIffAfter(o: string, b: string, r: string, breaking: bool)
    requires b == (if breaking then BreakingBadge else "")
    requires |r| >= 2 && r[..2] != BreakingBadge[..2]
    ensures var c := o + b + r;
      (|c| >= |o| + |BreakingBadge| && c[..|o| + |BreakingBadge|] == o + BreakingBadge) <==> breaking
  {
    if breaking {
      assert o + b + r == (o + BreakingBadge) + r;
    } else {
      assert o + b + r == o + r;
      PrefixDecides(o, BreakingBadge, r);
    }
  }

  /** A card shape with badge `b`, escaped title `e` and tail `t` shows the badge exactly when `breaking`. */
  lemma CardShapeBadgeIff(b: string, e: string, t: string, breaking: bool)
    requires b == (if breaking then BreakingBadge else "")
    requires Escaped(e) && |t| >= 2 && t[0] == '<' && t[1] == '/'
    ensures var c := CardOpen + b + e + t;
      var n := |CardOpen| + |BreakingBadge|;
      (|c| >= n && c[..n] == CardOpen + BreakingBadge) <==> breaking
  {
    NotBadgeStart(e, t);
    BadgeIffAfter(CardOpen, b, e + t, breaking);
    assert CardOpen + b + e + t == CardOpen + b + (e + t);
  }

  /** The tail of a card opens the closing tag of its title. */
  lemma CardTailOpens(topic: string, it: Item)
    ensures var t := CardTail(topic, it); |t| >= 2 && t[0] == '<' && t[1] == '/'
  {
    HeadingCloseOpens(CardMeta(topic, it));
  }

  lemma HeadingCloseOpens(m: string)
    ensures var t := HeadingClose + m; |t| >= 2 && t[0] == '<' && t[1] == '/'
  {
    OpensWith(HeadingClose, m);
  }

  /** A card opens with the "NAUJA" badge exactly when its item is breaking. */
  lemma CardBadgeIff(topic: string, it: Item)
    ensures var c := CardHtml(topic, it);
      var n := |CardOpen| + |BreakingBadge|;
      (|c| >= n && c[..n] == CardOpen + BreakingBadge) <==> it.isBreaking
  {
    CardTailOpens(topic, it);
    CardShapeBadgeIff(Badge(it), Esc(it.title), CardTail(topic, it), it.isBreaking);
  }

  /** `''.join(cards)` for the items of one topic. */
  function CardsHtml(topic: string, items: seq<Item>): string
  {
    Concat(Cards(topic, items))
  }

  /** `[f(x) for x in xs]`. */
  function MapSeq<A, B>(f: A -> B, xs: seq<A>): (ys: seq<B>)
    ensures |ys| == |xs|
    ensures forall k :: 0 <= k < |xs| ==> ys[k] == f(xs[k])
  {
    seq(|xs|, k requires 0 <= k < |xs| => f(xs[k]))
  }

  lemma MapSeqAppend<A, B>(f: A -> B, xs: seq<A>, ys: seq<A>)
    ensures MapSeq(f, xs + ys) == MapSeq(f, xs) + MapSeq(f, ys)
  {
    var l := MapSeq(f, xs + ys);
    var r := MapSeq(f, xs) + MapSeq(f, ys);
    assert |l| == |r|;
    forall k | 0 <= k < |l| ensures l[k] == r[k] {
      if k < |xs| {
        assert (xs + ys)[k] == xs[k];
      } else {
        assert (xs + ys)[k] == ys[k - |xs|];
      }
    }
  }

  /** The card builder of one topic. */
  function CardOf(topic: string): Item -> string
  {
    it => CardHtml(topic, it)
  }

  /** One card per item, in order. */
  function Cards(topic: string, items: seq<Item>): (cards: seq<string>)
    ensures |cards| == |items|
    ensures forall k :: 0 <= k < |items| ==> cards[k] == CardHtml(topic, items[k])
  {
    MapSeq(CardOf(topic), items)
  }

  const SectionPrefix: string := "<section"
  const SectionOpen: string := " class=\"topic\"><div class=\"topic-head\"><h2 class=\"topic-title\">"
  const SectionCountOpen: string := "</h2><div class=\"topic-count\">"
  const SectionCardsOpen: string := " vnt.</div></div><div class=\"cards\">"
  const SectionClose: string := "</div></section>"

  lemma OpensWith(p: string, r: string)
    requires |p| >= 2
    ensures |p + r| >= 2 && (p + r)[0] == p[0] && (p + r)[1] == p[1]
  {
  }

  /** The block of one topic: its name, its item count and its cards. */
  function SectionHtml(s: Section): string
  {
    SectionPrefix + SectionBody(s)
  }

  /** A topic block opens a `<section` tag. */
  lemma SectionHtmlOpens(s: Section)
    ensures var h := SectionHtml(s); |h| >= 2 && h[1] == 's'
  {
    SectionPrefixOpens(SectionBody(s));
  }

  lemma SectionPrefixOpens(b: string)
    ensures var h := SectionPrefix + b; |h| >= 2 && h[1] == 's'
  {
    OpensWith(SectionPrefix, b);
  }

  /** The block of one topic after its opening tag name. */
  function SectionBody(s: Section): string
  {
    SectionOpen + Esc(s.topic) + SectionCountOpen + NatToString(|s.items|)
      + SectionCardsOpen + CardsHtml(s.topic, s.items) + SectionClose
  }

  /** The sections that have at least one item, in topic order. */
  function NonEmptySections(sections: seq<Section>): seq<Section>
  {
    if sections == [] then []
    else
      var init := NonEmptySections(sections[..|sections| - 1]);
      var last := sections[|sections| - 1];
      if last.items == [] then init else init + [last]
  }

  /** Every kept section is a section of the input, and has items. */
  lemma {:induction false} NonEmptySectionsOnly(sections: seq<Section>, k: nat)
    requires k < |NonEmptySections(sections)|
    ensures NonEmptySections(sections)[k] in sections && NonEmptySections(sections)[k].items != []
  {
    var init := sections[..|sections| - 1];
    if k < |NonEmptySections(init)| {
      NonEmptySectionsOnly(init, k);
    }
  }

  /** Every section of the input that has items is kept. */
  lemma {:induction false} NonEmptySectionsAll(sections: seq<Section>, j: nat)
    requires j < |sections| && sections[j].items != []
    ensures sections[j] in NonEmptySections(sections)
  {
    var init := sections[..|sections| - 1];
    if j < |init| {
      assert init[j] == sections[j];
      NonEmptySectionsAll(init, j);
    }
  }

  /** Nothing is kept exactly when every section is empty. */
  lemma {:induction false} NonEmptySectionsEmptyIff(sections: seq<Section>)
    ensures NonEmptySections(sections) == [] <==> forall j :: 0 <= j < |sections| ==> sections[j].items == []
  {
    if sections != [] {
      var init := sections[..|sections| - 1];
      NonEmptySectionsEmptyIff(init);
      assert forall j :: 0 <= j < |init| ==> init[j] == sections[j];
    }
  }

  /** `sections_html`: one block per topic that has items, in topic order. */
  function SectionsHtml(sections: seq<Section>): (r: seq<string>)
    ensures |r| == |NonEmptySections(sections)|
    ensures forall k :: 0 <= k < |r| ==> r[k] == SectionHtml(NonEmptySections(sections)[k])
  {
    MapSeq(SectionHtml, NonEmptySections(sections))
  }

  /** Only topics with at least one item are rendered: each block is that of a non-empty section. */
  lemma SectionsHtmlOnlyNonEmpty(sections: seq<Section>, k: nat)
    requires k < |SectionsHtml(sections)|
    ensures exists s :: s in sections && s.items != [] && SectionsHtml(sections)[k] == SectionHtml(s)
  {
    NonEmptySectionsOnly(sections, k);
  }

  /** Every topic with at least one item is rendered. */
  lemma SectionsHtmlAllNonEmpty(sections: seq<Section>, j: nat)
    requires j < |sections| && sections[j].items != []
    ensures SectionHtml(sections[j]) in SectionsHtml(sections)
  {
    NonEmptySectionsAll(sections, j);
    var kept := NonEmptySections(sections);
    var k :| 0 <= k < |kept| && kept[k] == sections[j];
    assert SectionsHtml(sections)[k] == SectionHtml(sections[j]);
  }

  const EmptyPrefix: string := "<div"
  /** The notice shown when no topic has items. */
  const EmptyState: string := EmptyPrefix + " class=\"empty\">Šiuo metu naujienų šiame lange nerasta. Bandyk vėliau.</div>"

  /** `body_content`: the topic blocks, or the empty-state notice when there are none. */
  function BodyContent(sectionsHtml: seq<string>): string
  {
    if sectionsHtml != [] then Concat(sectionsHtml) else EmptyState
  }

  /** A list of blocks whose first one opens a `<section` never reads as the empty-state notice. */
  lemma BodyContentEmptyIff(sh: seq<string>)
    requires sh != [] ==> |sh[0]| >= 2 && sh[0][1] == 's'
    ensures BodyContent(sh) == EmptyState <==> sh == []
  {
    if sh != [] {
      assert Concat(sh) == sh[0] + Concat(sh[1..]);
      assert Concat(sh)[1] == 's';
      assert EmptyState[1] == EmptyPrefix[1] == 'd';
    }
  }

  /** The empty-state notice is shown exactly when no topic has items. */
  lemma EmptyStateIff(sections: seq<Section>)
    ensures BodyContent(SectionsHtml(sections)) == EmptyState <==>
      forall j :: 0 <= j < |sections| ==> sections[j].items == []
  {
    NonEmptySectionsEmptyIff(sections);
    var sh := SectionsHtml(sections);
    if sh != [] {
      SectionHtmlOpens(NonEmptySections(sections)[0]);
    }
    BodyContentEmptyIff(sh);
  }

  const Top3Open: string := "<section class=\"top3\"><div class=\"top3-head\"><div class=\"top3-kicker\">Svarbiausia</div><h2 class=\"top3-title\">Top 3 šiandien</h2></div><ol class=\"top3-list\">"
  const Top3Close: string := "</ol></section>"

  /** One highlight line as shown: `line.lstrip('•').strip()`. */
  function CleanHighlight(line: string): (r: string)
    ensures IsStripped(r) && |r| <= |line|
  {
    Strip(LStripSet(line, {'•'}))
  }

  function CleanHighlights(top3: seq<string>): (r: seq<string>)
    ensures |r| == |top3|
    ensures forall k :: 0 <= k < |r| ==> r[k] == CleanHighlight(top3[k])
  {
    seq(|top3|, k requires 0 <= k < |top3| => CleanHighlight(top3[k]))
  }

  /** `top3_html`: empty without highlights, otherwise the numbered list of them. */
  function Top3Html(top3: seq<string>): string
  {
    if top3 == [] then "" else Top3Open + ListItems(EscAll(CleanHighlights(top3))) + Top3Close
  }

  /**
   * The top-3 block is present exactly when there are highlights, and then
   * lists one item per highlight, in order, cleaned of its leading bullets.
   */
  lemma Top3HtmlSpec(top3: seq<string>)
    ensures Top3Html(top3) == "" <==> top3 == []
    ensures top3 != [] ==>
      var h := Top3Html(top3);
      var n := |Top3Open|;
      && |h| >= n + |Top3Close| && h[..n] == Top3Open && h[|h| - |Top3Close|..] == Top3Close
      && ParseListItems(h[n..|h| - |Top3Close|]) == Some(EscAll(CleanHighlights(top3)))
      && UnescapeAll(EscAll(CleanHighlights(top3))) == CleanHighlights(top3)
  {
    if top3 != [] {
      WrappedParts(Top3Open, ListItems(EscAll(CleanHighlights(top3))), Top3Close);
      EscapedListRoundTrip(CleanHighlights(top3));
    }
  }

  const WeatherOpen: string := "<div class=\"weather\"><span class=\"weather-dot\"></span><span>"
  const WeatherClose: string := "</span></div>"

  /** `weather_html`: present exactly when the weather line is given and not empty. */
  function WeatherHtml(weatherLine: Option<string>): (h: string)
    ensures h == "" <==> (weatherLine.None? || weatherLine.value == "")
    ensures h != "" ==> h == WeatherOpen + Esc(weatherLine.value) + WeatherClose
  {
    if weatherLine.Some? && weatherLine.value != "" then WeatherOpen + Esc(weatherLine.value) + WeatherClose else ""
  }

  /** Page start up to the document title (the meta tags are not modelled). */
  const DocOpen: string := "<!doctype html><html lang=\"lt\"><head>[meta]<title>"
  /** The stylesheet and the top bar (neither is modelled) up to the header. */
  const DocStyle: string := "</title><style>[css]</style></head><body>[topbar]<div class=\"wrap\"><section class=\"hero\"><h1>"
  const DocSubtitleOpen: string := "</h1><p class=\"sub\">"
  const DocDateOpen: string := "</p><div class=\"meta2\">[source]<span class=\"pill\"><b>Data:</b> "
  const DocGeneratedOpen: string := "</span><span class=\"pill\"><b>Sugeneruota:</b> "
  const DocGeneratedClose: string := "</span>"
  const DocHeroClose: string := "</div></section>"
  const DocFooter: string := "<div class=\"footer\">[note]</div></div></body></html>"

  /** The whole document around its variable parts. */
  function Document(header: string, subtitle: string, dateStr: string, generatedAt: string,
                    weatherHtml: string, top3Html: string, bodyContent: string): string
  {
    DocOpen + Esc(header) + DocStyle + Esc(header) + DocSubtitleOpen + Esc(subtitle)
      + DocDateOpen + Esc(dateStr) + DocGeneratedOpen + Esc(generatedAt) + DocGeneratedClose
      + weatherHtml + DocHeroClose + top3Html + bodyContent + DocFooter
  }

  lemma CardsStep(topic: string, items: seq<Item>, j: nat)
    requires j < |items|
    ensures Cards(topic, items[..j + 1]) == Cards(topic, items[..j]) + [CardHtml(topic, items[j])]
  {
    assert items[..j + 1] == items[..j] + [items[j]];
    MapSeqAppend(CardOf(topic), items[..j], [items[j]]);
  }

  /** Mapping over the kept sections, one more section at a time. */
  lemma MapNonEmptyStep(f: Section -> string, sections: seq<Section>, i: nat)
    requires i < |sections|
    ensures MapSeq(f, NonEmptySections(sections[..i + 1])) ==
      MapSeq(f, NonEmptySections(sections[..i])) + (if sections[i].items == [] then [] else [f(sections[i])])
  {
    NonEmptySectionsStep(sections, i);
    if sections[i].items != [] {
      MapSeqAppend(f, NonEmptySections(sections[..i]), [sections[i]]);
    }
  }

  lemma SectionsHtmlStep(sections: seq<Section>, i: nat)
    requires i < |sections|
    ensures SectionsHtml(sections[..i + 1]) ==
      SectionsHtml(sections[..i]) + (if sections[i].items == [] then [] else [SectionHtml(sections[i])])
  {
    MapNonEmptyStep(SectionHtml, sections, i);
  }

  lemma NonEmptySectionsStep(sections: seq<Section>, i: nat)
    requires i < |sections|
    ensures NonEmptySections(sections[..i + 1]) ==
      NonEmptySections(sections[..i]) + (if sections[i].items == [] then [] else [sections[i]])
  {
    assert sections[..i + 1][..i] == sections[..i];
  }

  /** The cards of one topic, card by card. */
  method BuildCards(topic: string, items: seq<Item>) returns (cards: seq<string>)
    ensures Concat(cards) == CardsHtml(topic, items)
  {
    cards := [];
    var j := 0;
    while j < |items|
      invariant 0 <= j <= |items|
      invariant cards == Cards(topic, items[..j])
    {
      CardsStep(topic, items, j);
      cards := cards + [CardHtml(topic, items[j])];
      j := j + 1;
    }
    assert items[..j] == items;
  }

  /** The block of one topic, built from its cards. */
  method BuildSection(topic: string, items: seq<Item>) returns (block: string)
    ensures block == SectionHtml(Section(topic, items))
  {
    var cards := BuildCards(topic, items);
    block := SectionPrefix + (SectionOpen + Esc(topic) + SectionCountOpen
      + NatToString(|items|) + SectionCardsOpen + Concat(cards) + SectionClose);
  }

  /**
   * `build_html`: walks the sections in order, skipping topics without items,
   * builds each topic's cards, then assembles the document.  `generatedAt` is
   * the formatted current time.
   */
  method BuildHtml(dateStr: string, header: string, subtitle: string, sections: seq<Section>,
                   top3: seq<string>, weatherLine: Option<string>, generatedAt: string)
    returns (doc: string)
    ensures doc == Document(header, subtitle, dateStr, generatedAt, WeatherHtml(weatherLine),
                            Top3Html(top3), BodyContent(SectionsHtml(sections)))
  {
    var sectionsHtml: seq<string> := [];
    var i := 0;
    while i < |sections|
      invariant 0 <= i <= |sections|
      invariant sectionsHtml == SectionsHtml(sections[..i])
    {
      var topic := sections[i].topic;
      var items := sections[i].items;
      SectionsHtmlStep(sections, i);
      if items != [] {
        var block := BuildSection(topic, items);
        sectionsHtml := sectionsHtml + [block];
      }
      i := i + 1;
    }
    assert sections[..i] == sections;
    var top3Html := "";
    if top3 != [] {
      top3Html := Top3Open + ListItems(EscAll(CleanHighlights(top3))) + Top3Close;
    }
    var weatherHtml := WeatherHtml(weatherLine);
    var bodyContent := if sectionsHtml != [] then Concat(sectionsHtml) else EmptyState;
    doc := Document(header, subtitle, dateStr, generatedAt, weatherHtml, top3Html, bodyContent);
  }
}
