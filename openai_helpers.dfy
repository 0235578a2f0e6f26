/**
 * The two text-generation calls: the per-article summary and the top-3
 * highlight selection.  The generation service is a function from a prompt
 * to `Success(output_text)` or `Failure(message)` (an exception).
 */
module OpenAiHelpers {
  import opened Wrappers
  import opened Text
  import opened TimeUtils
  import opened DigestItems

  /** `client.responses.create(model=MODEL, input=prompt).output_text`, or the exception it raises. */
  type Generator = string -> Result<string>

  // ---------------------------------------------------------------------------
  // summarize_lt
  // ---------------------------------------------------------------------------

  /** At most this many characters of the article are sent for summarising. */
  const SummaryTextLimit: nat := 12000

  /** First words of the summary prompt. */
  const SummaryOpening: string := "Tu esi"
  /** Instruction text of the summary prompt, up to the title (wording not modelled). */
  const SummaryInstructions: string := SummaryOpening + " profesionalus naujienų redaktorius Lietuvoje. [instructions]\n\nPavadinimas: "
  /** Text between the title and the article in the summary prompt. */
  const SummaryTextLabel: string := "\n\nStraipsnio tekstas:\n"

  /** The prompt text before the article: instructions, title and label. */
  function SummaryPromptHead(title: string): string
  {
    SummaryInstructions + title + SummaryTextLabel
  }

  /** The summary prompt as the f-string builds it, `.strip()`ped. */
  function SummaryPrompt(title: string, text: string): string
  {
    Strip(SummaryPromptHead(title) + Take(text, SummaryTextLimit))
  }

  /**
   * `summarize_lt`: the stripped output of the generator for the summary
   * prompt; an exception from the generator propagates as a failure.
   */
  function SummarizeLt(title: string, text: string, generate: Generator): (r: Result<string>)
    ensures r.Success? ==> IsStripped(r.value)
    ensures r.Success? <==> generate(SummaryPrompt(title, text)).Success?
    ensures r.Success? ==> r.value == Strip(generate(SummaryPrompt(title, text)).value)
    ensures r.Failure? ==> r.error == generate(SummaryPrompt(title, text)).error
  {
    match generate(SummaryPrompt(title, text))
    case Success(out) => Success(Strip(out))
    case Failure(msg) => Failure(msg)
  }

  /** Stripping text that starts with a kept character only strips its end. */
  lemma {:induction false} StripAppend(a: string, b: string, cs: set<char>)
    requires a != [] && a[0] !in cs && RStripSet(b, cs) != []
    ensures StripSet(a + b, cs) == a + RStripSet(b, cs)
    decreases |b|
  {
    var ab := a + b;
    assert ab[0] == a[0];
    if b[|b| - 1] in cs {
      assert ab[..|ab| - 1] == a + b[..|b| - 1];
      StripAppend(a, b[..|b| - 1], cs);
    } else {
      assert ab[|ab| - 1] == b[|b| - 1];
    }
  }

  lemma SummaryPromptHeadStart(title: string)
    ensures SummaryPromptHead(title) != [] && SummaryPromptHead(title)[0] == 'T'
  {
    assert SummaryOpening[0] == 'T';
    assert SummaryInstructions[0] == 'T';
    assert SummaryPromptHead(title) == SummaryInstructions + (title + SummaryTextLabel);
  }

  /**
   * For a non-blank, stripped article text the prompt holds the head followed
   * by the first `SummaryTextLimit` characters of the text (less any trailing
   * whitespace the cut exposes): nothing beyond that limit is sent.
   */
  lemma {:induction false} SummaryPromptEmbedsPrefix(title: string, text: string)
    requires text != [] && IsStripped(text)
    ensures var t := RStripSet(Take(text, SummaryTextLimit), Whitespace);
      && t != [] && |t| <= SummaryTextLimit && t == text[..|t|]
      && SummaryPrompt(title, text) == SummaryPromptHead(title) + t
  {
    var cut := Take(text, SummaryTextLimit);
    var t := RStripSet(cut, Whitespace);
    assert cut[0] == text[0];
    assert t != [];
    SummaryPromptHeadStart(title);
    assert 'T' !in Whitespace;
    StripAppend(SummaryPromptHead(title), cut, Whitespace);
  }

  // ---------------------------------------------------------------------------
  // pick_top3_highlights
  // ---------------------------------------------------------------------------

  /** At most this many items are listed in the highlight prompt. */
  const ListingLimit: nat := 30
  /** At most this many highlight lines are returned. */
  const HighlightCount: nat := 3

  /** The mode hint of the highlight prompt. */
  function ModeHint(dt: Option<DigestType>): (h: string)
    ensures h == "Ryto santrauka" <==> dt == Some(Morning)
    ensures dt != Some(Morning) ==> h == "Vidurdienio atnaujinimas"
  {
    if dt == Some(Morning) then "Ryto santrauka" else "Vidurdienio atnaujinimas"
  }

  /** Instruction text of the highlight prompt before the mode hint (wording not modelled). */
  const Top3Opening: string := "Tu esi naujienų redaktorius. "
  /** Instruction text between the mode hint and the listing (wording not modelled). */
  const Top3Rules: string := ".\n[rules: exactly 3 lines, each '• <headline> — <why it matters>']\n\nSąrašas:\n"

  /** The listing line for item number `n`: `"n) [topic] title (published)"`. */
  function ListingLine(n: nat, it: Item): string
  {
    NatToString(n) + ") [" + it.topic + "] " + it.title + " (" + it.publishedLocalStr + ")"
  }

  /** The listing lines of `items[:30]`, numbered from 1 in input order. */
  function Listing(items: seq<Item>): (lines: seq<string>)
    ensures |lines| == if |items| <= ListingLimit then |items| else ListingLimit
    ensures forall k :: 0 <= k < |lines| ==> lines[k] == ListingLine(k + 1, items[k])
  {
    var n := if |items| <= ListingLimit then |items| else ListingLimit;
    seq(n, k requires 0 <= k < n => ListingLine(k + 1, items[k]))
  }

  /** Each listing line starts with its own number and a `)`, and the numbers are 1, 2, … in order. */
  lemma ListingNumbered(items: seq<Item>, k: nat)
    requires k < |Listing(items)|
    ensures var d := NatToString(k + 1);
      && |Listing(items)[k]| > |d| && Listing(items)[k][..|d|] == d && Listing(items)[k][|d|] == ')'
      && DigitsValue(d) == k + 1
  {
    var d := NatToString(k + 1);
    var line := Listing(items)[k];
    assert line == d + (") [" + items[k].topic + "] " + items[k].title + " (" + items[k].publishedLocalStr + ")");
    DigitsValueOfNatToString(k + 1);
  }

  /** The highlight prompt (already stripped: it starts and ends with non-blank text). */
  function Top3Prompt(dt: Option<DigestType>, lines: seq<string>): string
  {
    Top3Opening + ModeHint(dt) + Top3Rules + JoinLines(lines)
  }

  /** `bullets[:3]` of the non-blank, stripped lines of the stripped response. */
  function ParseBullets(out: string): seq<string>
  {
    Take(NonBlankStripped(SplitLines(Strip(out))), HighlightCount)
  }

  /**
   * The parsed highlights are the first (at most three) non-blank lines of
   * the response, in order; each is stripped, non-empty and holds no line break.
   */
  lemma ParseBulletsSpec(out: string)
    ensures var all := NonBlankStripped(SplitLines(Strip(out)));
      var r := ParseBullets(out);
      && |r| == (if |all| <= HighlightCount then |all| else HighlightCount)
      && r == all[..|r|]
      && forall k :: 0 <= k < |r| ==> r[k] != [] && IsStripped(r[k]) && NoLineBreaks(r[k])
  {
    var lines := SplitLines(Strip(out));
    assert forall k :: 0 <= k < |lines| ==> NoLineBreaks(lines[k]);
    NonBlankStrippedNoBreaks(lines);
  }

  /** The highlight lines `pick_top3_highlights` returns for `items`. */
  function Highlights(items: seq<Item>, dt: Option<DigestType>, generate: Generator): seq<string>
  {
    if items == [] then []
    else match generate(Top3Prompt(dt, Listing(items)))
      case Failure(_) => []
      case Success(out) => ParseBullets(out)
  }

  /**
   * `pick_top3_highlights`: no request on empty input; otherwise one request
   * with the mode hint and the numbered listing of the first 30 items, whose
   * response is parsed into at most three lines; a failure gives no lines.
   * `request` is the prompt sent to the generator, `None` if none was sent.
   */
  method PickTop3Highlights(items: seq<Item>, dt: Option<DigestType>, generate: Generator)
    returns (bullets: seq<string>, request: Option<string>)
    ensures items == [] ==> bullets == [] && request == None
    ensures items != [] ==> request == Some(Top3Prompt(dt, Listing(items)))
    ensures items != [] ==> bullets == match generate(request.value)
                                       case Failure(_) => []
                                       case Success(out) => ParseBullets(out)
    ensures bullets == Highlights(items, dt, generate)
    ensures |bullets| <= HighlightCount
    ensures forall k :: 0 <= k < |bullets| ==> bullets[k] != [] && IsStripped(bullets[k])
  {
    if items == [] {
      return [], None;
    }
    var lines: seq<string> := [];
    var i := 0;
    while i < |items| && i < ListingLimit
      invariant 0 <= i <= |items| && i <= ListingLimit
      invariant |lines| == i
      invariant forall k :: 0 <= k < i ==> lines[k] == ListingLine(k + 1, items[k])
    {
      lines := lines + [ListingLine(i + 1, items[i])];
      i := i + 1;
    }
    assert lines == Listing(items);
    var prompt := Top3Prompt(dt, lines);
    request := Some(prompt);
    match generate(prompt)
    case Failure(_) =>
      bullets := [];
    case Success(out) =>
      ParseBulletsSpec(out);
      bullets := ParseBullets(out);
  }
}
