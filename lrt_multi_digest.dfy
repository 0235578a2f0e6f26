/**
 * The digest run: choose the mode and its per-topic cap, walk the topic
 * feeds collecting new, in-window entries (each URL at most once over all
 * topics), summarise each collected article, pick the highlights, build the
 * page and send it.
 *
 * The feed reader, the page fetcher, the text extractor and the text
 * generator are functions passed in; every use of the network is recorded
 * as a `Call`, so that what is and is not fetched can be stated.
 */
module LrtMultiDigest {
  import opened Wrappers
  import opened Text
  import opened TimeUtils
  import opened DigestItems
  import opened OpenAiHelpers
  import opened HtmlBuilder
  import opened EmailSender

  /** One feed entry.  An absent `title` or `link` attribute is the empty string. */
  datatype Entry = Entry(
    title: string,
    link: string,
    publishedParsed: Option<int>,   // UTC seconds
    updatedParsed: Option<int>)     // UTC seconds

  /** One key of the topic table with its feed address. */
  datatype Topic = Topic(name: string, rssUrl: string)

  /** The topic table the digest is run with, in order. */
  const Topics: seq<Topic> := [
    Topic("Lietuvoje", "https://www.lrt.lt/naujienos/lietuvoje?rss"),
    Topic("Pasaulyje", "https://www.lrt.lt/naujienos/pasaulyje?rss"),
    Topic("Mokslas ir IT", "https://www.lrt.lt/naujienos/mokslas-ir-it?rss"),
    Topic("Verslas", "https://www.lrt.lt/naujienos/verslas?rss"),
    Topic("Sportas", "https://www.lrt.lt/naujienos/sportas?rss")
  ]

  /** The per-mode item caps (`MAX_ARTICLES_PER_TOPIC_*`). */
  datatype Caps = Caps(morning: int, midday: int, evening: int)

  /** The caps and the breaking window used when the environment sets none. */
  const DefaultCaps: Caps := Caps(5, 5, 5)
  const DefaultBreakingMinutes: int := 90

  /** The services the run talks to. */
  datatype Services = Services(
    feed: string -> seq<Entry>,          // `feedparser.parse(url).entries`
    fetch: string -> Result<string>,     // `fetch_html`: the page, or the exception
    extract: string -> Result<string>,   // `trafilatura.extract` ("" for None), or the exception
    generate: Generator)                 // the text generator

  /** One use of an outside service. */
  datatype Call = ParseFeed(url: string) | FetchPage(url: string) | Generate(prompt: string)

  // ---------------------------------------------------------------------------
  // mode and cap
  // ---------------------------------------------------------------------------

  /** The `match digest_type` of `main`: the cap of the mode, or `None` (not scheduled). */
  function CapFor(dt: Option<DigestType>, caps: Caps): Option<int>
  {
    match dt
    case Some(Morning) => Some(caps.morning)
    case Some(Midday) => Some(caps.midday)
    case Some(Evening) => Some(caps.evening)
    case None => None
  }

  /** A run is scheduled exactly at 07, 12 and 18 o'clock, and then uses that mode's cap. */
  lemma CapForSchedule(now: int, caps: Caps)
    ensures CapFor(GetDigestType(now), caps).None? <==> Hour(now) !in {7, 12, 18}
    ensures Hour(now) == 7 ==> CapFor(GetDigestType(now), caps) == Some(caps.morning)
    ensures Hour(now) == 12 ==> CapFor(GetDigestType(now), caps) == Some(caps.midday)
    ensures Hour(now) == 18 ==> CapFor(GetDigestType(now), caps) == Some(caps.evening)
  {
    GetDigestTypeSpec(now, Morning);
  }

  // ---------------------------------------------------------------------------
  // one entry
  // ---------------------------------------------------------------------------

  /** What an entry is shown as: its title, or its link when the title is empty. */
  function EntryTitle(e: Entry): string
  {
    if e.title != "" then e.title else e.link
  }

  /** `published_parsed or updated_parsed`. */
  function EntryTime(e: Entry): Option<int>
  {
    if e.publishedParsed.Some? then e.publishedParsed else e.updatedParsed
  }

  /** The window and the clock of a run. */
  datatype Context = Context(
    windowStart: int,
    windowEnd: int,
    now: int,
    offset: int,
    breakingMinutes: int,
    cap: int)

  /** An entry without a time is kept; one with a time must fall inside the window. */
  predicate InWindow(ctx: Context, published: Option<int>)
  {
    published.None? || ctx.windowStart <= published.value <= ctx.windowEnd
  }

  /** The entry has a link not yet collected, and is inside the window. */
  predicate Qualifies(ctx: Context, e: Entry, seen: set<string>)
  {
    e.link != "" && e.link !in seen && InWindow(ctx, ToLocalDt(EntryTime(e), ctx.offset))
  }

  /** Article text shorter than this is not summarised. */
  const MinTextLength: nat := 200
  /** The summary used when too little text could be extracted. */
  const NoTextNotice: string := "Nepavyko patikimai ištraukti teksto."
  /** The start of the summary used when fetching or summarising raised. */
  const ErrorPrefix: string := "Klaida: "

  /** `extract_text`: the extracted text, `""` for none, stripped. */
  function ExtractText(html: string, extract: string -> Result<string>): (r: Result<string>)
    ensures r.Success? ==> IsStripped(r.value)
  {
    match extract(html)
    case Failure(e) => Failure(e)
    case Success(t) => Success(Strip(t))
  }

  /** The summary of one article together with the calls made for it. */
  datatype Enriched = Enriched(summary: string, calls: seq<Call>)

  /** The block under `# Fetch + extract + summarize`, with its `except` branch. */
  function Enrich(title: string, url: string, svc: Services): (r: Enriched)
    ensures |r.calls| >= 1 && r.calls[0] == FetchPage(url)
    ensures |r.calls| <= 2 && forall k :: 1 <= k < |r.calls| ==> r.calls[k].Generate?
  {
    match svc.fetch(url)
    case Failure(e) => Enriched(ErrorPrefix + e, [FetchPage(url)])
    case Success(html) =>
      match ExtractText(html, svc.extract)
      case Failure(e) => Enriched(ErrorPrefix + e, [FetchPage(url)])
      case Success(text) =>
        if |text| < MinTextLength then Enriched(NoTextNotice, [FetchPage(url)])
        else
          var call := Generate(SummaryPrompt(title, text));
          match SummarizeLt(title, text, svc.generate)
          case Failure(e) => Enriched(ErrorPrefix + e, [FetchPage(url), call])
          case Success(s) => Enriched(s, [FetchPage(url), call])
  }

  /**
   * The generator is asked exactly when the page was fetched and at least 200
   * characters of text were extracted from it; a summary then is the stripped
   * answer, and an exception from the fetch, the extraction or the generator
   * becomes a `Klaida: ` summary with its message.
   */
  lemma EnrichSpec(title: string, url: string, svc: Services)
    ensures var r := Enrich(title, url, svc);
      var text := if svc.fetch(url).Success? then ExtractText(svc.fetch(url).value, svc.extract) else Failure("");
      && (|r.calls| == 2 <==> text.Success? && |text.value| >= MinTextLength)
      && (|r.calls| == 2 ==> r.calls[1] == Generate(SummaryPrompt(title, text.value)))
      && (svc.fetch(url).Failure? ==> r.summary == ErrorPrefix + svc.fetch(url).error)
      && (svc.fetch(url).Success? && text.Failure? ==> r.summary == ErrorPrefix + text.error)
      && (text.Success? && |text.value| < MinTextLength ==> r.summary == NoTextNotice)
      && (|r.calls| == 2 && svc.generate(SummaryPrompt(title, text.value)).Success? ==>
            r.summary == Strip(svc.generate(SummaryPrompt(title, text.value)).value))
      && (|r.calls| == 2 && svc.generate(SummaryPrompt(title, text.value)).Failure? ==>
            r.summary == ErrorPrefix + svc.generate(SummaryPrompt(title, text.value)).error)
  {
  }

  /** The item dictionary built for a collected entry. */
  function MakeItem(topic: string, ctx: Context, e: Entry, summary: string): (it: Item)
    ensures it.topic == topic && it.url == e.link && it.title == EntryTitle(e) && it.summary == summary
    ensures it.publishedLocal == ToLocalDt(EntryTime(e), ctx.offset)
    ensures it.publishedLocalStr == "" <==> it.publishedLocal.None?
    ensures it.publishedLocal.Some? ==> it.publishedLocalStr == FormatHourMinute(it.publishedLocal.value)
    ensures it.isBreaking <==>
      it.publishedLocal.Some? && ctx.now - it.publishedLocal.value <= ctx.breakingMinutes * SecondsPerMinute
  {
    var published := ToLocalDt(EntryTime(e), ctx.offset);
    Item(topic, EntryTitle(e), e.link, summary, published,
         if published.Some? then FormatHourMinute(published.value) else "",
         published.Some? && ctx.now - published.value <= ctx.breakingMinutes * SecondsPerMinute)
  }

  /** The summarising step, as a function of the title and the URL. */
  type Enricher = (string, string) -> Enriched

  function EnricherOf(svc: Services): Enricher
  {
    (title, url) => Enrich(title, url, svc)
  }

  /** The step fetches the entry's own page, once, and reads no feed. */
  ghost predicate FetchesOwnPage(enrich: Enricher)
  {
    forall title, url :: FetchedUrls(enrich(title, url).calls) == [url] && ParsedFeeds(enrich(title, url).calls) == []
  }

  /** The item for a collected entry, with its summary. */
  function ItemFor(topic: string, ctx: Context, enrich: Enricher, e: Entry): Item
  {
    MakeItem(topic, ctx, e, enrich(EntryTitle(e), e.link).summary)
  }

  // ---------------------------------------------------------------------------
  // one topic
  // ---------------------------------------------------------------------------

  /** The items of one topic and the calls made for them. */
  datatype TopicResult = TopicResult(items: seq<Item>, calls: seq<Call>)

  function Then(a: TopicResult, b: TopicResult): TopicResult
  {
    TopicResult(a.items + b.items, a.calls + b.calls)
  }

  lemma ThenAssoc(a: TopicResult, b: TopicResult, c: TopicResult)
    ensures Then(Then(a, b), c) == Then(a, Then(b, c))
  {
    assert (a.items + b.items) + c.items == a.items + (b.items + c.items);
    assert (a.calls + b.calls) + c.calls == a.calls + (b.calls + c.calls);
  }

  /**
   * The inner `for e in feed.entries` loop from a given point: `seen` holds
   * the URLs collected so far and `count` the items of this topic so far.
   */
  function TopicRun(topic: string, entries: seq<Entry>, ctx: Context, enrich: Enricher,
                    seen: set<string>, count: int): TopicResult
  {
    if entries == [] then TopicResult([], [])
    else
      var e := entries[0];
      if !Qualifies(ctx, e, seen) then TopicRun(topic, entries[1..], ctx, enrich, seen, count)
      else
        var en := enrich(EntryTitle(e), e.link);
        var head := TopicResult([MakeItem(topic, ctx, e, en.summary)], en.calls);
        if count + 1 >= ctx.cap then head
        else Then(head, TopicRun(topic, entries[1..], ctx, enrich, seen + {e.link}, count + 1))
  }

  /** The entries that would be collected with no cap, in order. */
  function Picks(entries: seq<Entry>, ctx: Context, seen: set<string>): seq<Entry>
  {
    if entries == [] then []
    else if Qualifies(ctx, entries[0], seen) then [entries[0]] + Picks(entries[1..], ctx, seen + {entries[0].link})
    else Picks(entries[1..], ctx, seen)
  }

  /** How many more items a topic may take: at least one, however small the cap. */
  function Limit(cap: int, count: int): (n: nat)
    ensures n >= 1 && n >= cap - count
  {
    if cap - count >= 1 then cap - count else 1
  }

  /**
   * The loop with its `break` collects exactly the first `Limit(cap, count)`
   * entries of the uncapped selection, each made into its item.
   */
  lemma {:induction false} TopicRunIsCappedPicks(topic: string, entries: seq<Entry>, ctx: Context, enrich: Enricher,
                                                 seen: set<string>, count: int)
    ensures var r := TopicRun(topic, entries, ctx, enrich, seen, count);
      var p := Take(Picks(entries, ctx, seen), Limit(ctx.cap, count));
      && |r.items| == |p|
      && forall k :: 0 <= k < |p| ==> r.items[k] == ItemFor(topic, ctx, enrich, p[k])
    decreases |entries|
  {
    if entries != [] {
      var e := entries[0];
      if !Qualifies(ctx, e, seen) {
        TopicRunIsCappedPicks(topic, entries[1..], ctx, enrich, seen, count);
      } else if count + 1 < ctx.cap {
        TopicRunIsCappedPicks(topic, entries[1..], ctx, enrich, seen + {e.link}, count + 1);
        var rest := Picks(entries[1..], ctx, seen + {e.link});
        var p := Take(Picks(entries, ctx, seen), Limit(ctx.cap, count));
        var q := Take(rest, Limit(ctx.cap, count + 1));
        assert Picks(entries, ctx, seen) == [e] + rest;
        assert p == [e] + q;
      }
    }
  }

  /** The URLs of a list of items, in order. */
  function UrlsOf(items: seq<Item>): (urls: seq<string>)
    ensures |urls| == |items|
    ensures forall k :: 0 <= k < |items| ==> urls[k] == items[k].url
  {
    seq(|items|, k requires 0 <= k < |items| => items[k].url)
  }

  /** The pages fetched, in order. */
  function FetchedUrls(calls: seq<Call>): seq<string>
  {
    if calls == [] then []
    else (if calls[0].FetchPage? then [calls[0].url] else []) + FetchedUrls(calls[1..])
  }

  /** The feeds read, in order. */
  function ParsedFeeds(calls: seq<Call>): seq<string>
  {
    if calls == [] then []
    else (if calls[0].ParseFeed? then [calls[0].url] else []) + ParsedFeeds(calls[1..])
  }

  lemma {:induction false} FetchedUrlsAppend(a: seq<Call>, b: seq<Call>)
    ensures FetchedUrls(a + b) == FetchedUrls(a) + FetchedUrls(b)
  {
    if a != [] {
      assert (a + b)[0] == a[0] && (a + b)[1..] == a[1..] + b;
      FetchedUrlsAppend(a[1..], b);
    } else {
      assert a + b == b;
    }
  }

  lemma {:induction false} ParsedFeedsAppend(a: seq<Call>, b: seq<Call>)
    ensures ParsedFeeds(a + b) == ParsedFeeds(a) + ParsedFeeds(b)
  {
    if a != [] {
      assert (a + b)[0] == a[0] && (a + b)[1..] == a[1..] + b;
      ParsedFeedsAppend(a[1..], b);
    } else {
      assert a + b == b;
    }
  }

  lemma OneOrTwoCalls(c: seq<Call>, url: string)
    requires 1 <= |c| <= 2 && c[0] == FetchPage(url) && forall k :: 1 <= k < |c| ==> c[k].Generate?
    ensures FetchedUrls(c) == [url] && ParsedFeeds(c) == []
  {
    if |c| == 2 {
      var rest := c[1..];
      assert rest[0] == c[1] && rest[1..] == [];
      assert FetchedUrls(rest) == [] && ParsedFeeds(rest) == [];
    } else {
      assert c[1..] == [];
    }
  }

  lemma EnrichFetchesOwnPage(svc: Services)
    ensures FetchesOwnPage(EnricherOf(svc))
  {
    forall title, url
      ensures FetchedUrls(EnricherOf(svc)(title, url).calls) == [url]
        && ParsedFeeds(EnricherOf(svc)(title, url).calls) == []
    {
      OneOrTwoCalls(Enrich(title, url, svc).calls, url);
    }
  }

  /**
   * Every item of a topic run has a link, a link not collected before and
   * not repeated within the run, a time inside the window when it has one,
   * and the topic's name; the run takes at most `Limit(cap, count)` items.
   */
  lemma {:induction false} TopicRunItems(topic: string, entries: seq<Entry>, ctx: Context, enrich: Enricher,
                                         seen: set<string>, count: int)
    ensures var r := TopicRun(topic, entries, ctx, enrich, seen, count);
      && |r.items| <= Limit(ctx.cap, count)
      && (forall k :: 0 <= k < |r.items| ==>
            r.items[k].url != "" && r.items[k].url !in seen && r.items[k].topic == topic
            && InWindow(ctx, r.items[k].publishedLocal))
      && UrlsDistinct(r.items)
    decreases |entries|
  {
    if entries != [] {
      var e := entries[0];
      if !Qualifies(ctx, e, seen) {
        TopicRunItems(topic, entries[1..], ctx, enrich, seen, count);
      } else if count + 1 < ctx.cap {
        var it := MakeItem(topic, ctx, e, enrich(EntryTitle(e), e.link).summary);
        var rest := TopicRun(topic, entries[1..], ctx, enrich, seen + {e.link}, count + 1);
        TopicRunItems(topic, entries[1..], ctx, enrich, seen + {e.link}, count + 1);
        var items := [it] + rest.items;
        forall i, j | 0 <= i < j < |items| ensures items[i].url != items[j].url {
          if i == 0 {
            assert items[j] == rest.items[j - 1];
          } else {
            assert items[i] == rest.items[i - 1] && items[j] == rest.items[j - 1];
          }
        }
      }
    }
  }

  /** A topic run fetches exactly the pages of its items, in order, and reads no feed. */
  lemma {:induction false} TopicRunCalls(topic: string, entries: seq<Entry>, ctx: Context, enrich: Enricher,
                                         seen: set<string>, count: int)
    requires FetchesOwnPage(enrich)
    ensures var r := TopicRun(topic, entries, ctx, enrich, seen, count);
      && FetchedUrls(r.calls) == UrlsOf(r.items)
      && ParsedFeeds(r.calls) == []
    decreases |entries|
  {
    if entries != [] {
      var e := entries[0];
      if !Qualifies(ctx, e, seen) {
        TopicRunCalls(topic, entries[1..], ctx, enrich, seen, count);
      } else {
        var en := enrich(EntryTitle(e), e.link);
        var it := MakeItem(topic, ctx, e, en.summary);
        if count + 1 < ctx.cap {
          var rest := TopicRun(topic, entries[1..], ctx, enrich, seen + {e.link}, count + 1);
          TopicRunCalls(topic, entries[1..], ctx, enrich, seen + {e.link}, count + 1);
          FetchedUrlsAppend(en.calls, rest.calls);
          ParsedFeedsAppend(en.calls, rest.calls);
          assert UrlsOf([it] + rest.items) == [e.link] + UrlsOf(rest.items);
        } else {
          assert UrlsOf([it]) == [e.link];
        }
      }
    }
  }

  // ---------------------------------------------------------------------------
  // all topics
  // ---------------------------------------------------------------------------

  /** The sections, one per topic in order, and every call made while collecting. */
  datatype Collected = Collected(sections: seq<Section>, calls: seq<Call>)

  /** The outer `for topic_name, rss_url in TOPICS.items()` loop. */
  function CollectSpec(topics: seq<Topic>, ctx: Context, feed: string -> seq<Entry>, enrich: Enricher): (c: Collected)
    ensures |c.sections| == |topics|
    decreases |topics|
  {
    if topics == [] then Collected([], [])
    else
      var prev := CollectSpec(topics[..|topics| - 1], ctx, feed, enrich);
      var t := topics[|topics| - 1];
      var run := TopicRun(t.name, feed(t.rssUrl), ctx, enrich, UrlSet(Flatten(prev.sections)), 0);
      Collected(prev.sections + [Section(t.name, run.items)], prev.calls + [ParseFeed(t.rssUrl)] + run.calls)
  }

  /** The feed addresses of the topics, in order. */
  function FeedUrls(topics: seq<Topic>): (urls: seq<string>)
    ensures |urls| == |topics|
    ensures forall k :: 0 <= k < |topics| ==> urls[k] == topics[k].rssUrl
  {
    seq(|topics|, k requires 0 <= k < |topics| => topics[k].rssUrl)
  }

  lemma UrlsDistinctAppend(a: seq<Item>, b: seq<Item>)
    requires UrlsDistinct(a) && UrlsDistinct(b)
    requires forall k :: 0 <= k < |b| ==> b[k].url !in UrlSet(a)
    ensures UrlsDistinct(a + b)
  {
    var ab := a + b;
    forall i, j | 0 <= i < j < |ab| ensures ab[i].url != ab[j].url {
      if j >= |a| && i < |a| {
        assert ab[j] == b[j - |a|] && ab[i] == a[i];
        UrlSetHas(a, i);
      } else if i >= |a| {
        assert ab[i] == b[i - |a|] && ab[j] == b[j - |a|];
      }
    }
  }

  lemma UrlsOfAppend(a: seq<Item>, b: seq<Item>)
    ensures UrlsOf(a + b) == UrlsOf(a) + UrlsOf(b)
  {
  }

  /** Collecting gives one section per topic, named after it and in topic order, of at most `max(cap, 1)` items. */
  lemma {:induction false} CollectSections(topics: seq<Topic>, ctx: Context, feed: string -> seq<Entry>, enrich: Enricher)
    ensures var c := CollectSpec(topics, ctx, feed, enrich);
      forall i :: 0 <= i < |topics| ==>
        c.sections[i].topic == topics[i].name && |c.sections[i].items| <= Limit(ctx.cap, 0)
    decreases |topics|
  {
    if topics != [] {
      var init := topics[..|topics| - 1];
      var prev := CollectSpec(init, ctx, feed, enrich);
      CollectSections(init, ctx, feed, enrich);
      var t := topics[|topics| - 1];
      TopicRunItems(t.name, feed(t.rssUrl), ctx, enrich, UrlSet(Flatten(prev.sections)), 0);
      var c := CollectSpec(topics, ctx, feed, enrich);
      forall i | 0 <= i < |topics|
        ensures c.sections[i].topic == topics[i].name && |c.sections[i].items| <= Limit(ctx.cap, 0)
      {
        if i < |init| {
          assert c.sections[i] == prev.sections[i];
        }
      }
    }
  }

  /** No URL appears twice in the whole digest, and every item has a link and lies in the window. */
  lemma {:induction false} CollectItems(topics: seq<Topic>, ctx: Context, feed: string -> seq<Entry>, enrich: Enricher)
    ensures var flat := Flatten(CollectSpec(topics, ctx, feed, enrich).sections);
      && UrlsDistinct(flat)
      && (forall k :: 0 <= k < |flat| ==> flat[k].url != "" && InWindow(ctx, flat[k].publishedLocal))
    decreases |topics|
  {
    if topics != [] {
      var init := topics[..|topics| - 1];
      var prev := CollectSpec(init, ctx, feed, enrich);
      CollectItems(init, ctx, feed, enrich);
      var t := topics[|topics| - 1];
      var run := TopicRun(t.name, feed(t.rssUrl), ctx, enrich, UrlSet(Flatten(prev.sections)), 0);
      TopicRunItems(t.name, feed(t.rssUrl), ctx, enrich, UrlSet(Flatten(prev.sections)), 0);
      FlattenAppend(prev.sections, Section(t.name, run.items));
      UrlsDistinctAppend(Flatten(prev.sections), run.items);
      var flat := Flatten(prev.sections) + run.items;
      forall k | 0 <= k < |flat| ensures flat[k].url != "" && InWindow(ctx, flat[k].publishedLocal) {
        if k >= |Flatten(prev.sections)| {
          assert flat[k] == run.items[k - |Flatten(prev.sections)|];
        }
      }
    }
  }

  /** The feeds are read once each, in topic order. */
  lemma {:induction false} CollectFeeds(topics: seq<Topic>, ctx: Context, feed: string -> seq<Entry>, enrich: Enricher)
    requires FetchesOwnPage(enrich)
    ensures ParsedFeeds(CollectSpec(topics, ctx, feed, enrich).calls) == FeedUrls(topics)
    decreases |topics|
  {
    if topics != [] {
      var init := topics[..|topics| - 1];
      var prev := CollectSpec(init, ctx, feed, enrich);
      CollectFeeds(init, ctx, feed, enrich);
      var t := topics[|topics| - 1];
      var run := TopicRun(t.name, feed(t.rssUrl), ctx, enrich, UrlSet(Flatten(prev.sections)), 0);
      TopicRunCalls(t.name, feed(t.rssUrl), ctx, enrich, UrlSet(Flatten(prev.sections)), 0);
      ParsedFeedsAppend(prev.calls + [ParseFeed(t.rssUrl)], run.calls);
      ParsedFeedsAppend(prev.calls, [ParseFeed(t.rssUrl)]);
      FeedCall(t.rssUrl);
      assert FeedUrls(topics) == FeedUrls(init) + [t.rssUrl];
    }
  }

  /** The pages fetched are exactly those of the collected items, in order. */
  lemma {:induction false} CollectFetches(topics: seq<Topic>, ctx: Context, feed: string -> seq<Entry>, enrich: Enricher)
    requires FetchesOwnPage(enrich)
    ensures var c := CollectSpec(topics, ctx, feed, enrich);
      FetchedUrls(c.calls) == UrlsOf(Flatten(c.sections))
    decreases |topics|
  {
    if topics != [] {
      var init := topics[..|topics| - 1];
      var prev := CollectSpec(init, ctx, feed, enrich);
      CollectFetches(init, ctx, feed, enrich);
      var t := topics[|topics| - 1];
      var run := TopicRun(t.name, feed(t.rssUrl), ctx, enrich, UrlSet(Flatten(prev.sections)), 0);
      TopicRunCalls(t.name, feed(t.rssUrl), ctx, enrich, UrlSet(Flatten(prev.sections)), 0);
      FlattenAppend(prev.sections, Section(t.name, run.items));
      UrlsOfAppend(Flatten(prev.sections), run.items);
      FetchedUrlsAppend(prev.calls + [ParseFeed(t.rssUrl)], run.calls);
      FetchedUrlsAppend(prev.calls, [ParseFeed(t.rssUrl)]);
      FeedCall(t.rssUrl);
    }
  }

  lemma FeedCall(url: string)
    ensures ParsedFeeds([ParseFeed(url)]) == [url] && FetchedUrls([ParseFeed(url)]) == []
  {
    assert [ParseFeed(url)][1..] == [];
  }

  lemma CollectStep(topics: seq<Topic>, i: nat, ctx: Context, feed: string -> seq<Entry>, enrich: Enricher)
    requires i < |topics|
    ensures var prev := CollectSpec(topics[..i], ctx, feed, enrich);
      var t := topics[i];
      var run := TopicRun(t.name, feed(t.rssUrl), ctx, enrich, UrlSet(Flatten(prev.sections)), 0);
      CollectSpec(topics[..i + 1], ctx, feed, enrich) ==
        Collected(prev.sections + [Section(t.name, run.items)], prev.calls + [ParseFeed(t.rssUrl)] + run.calls)
  {
    assert topics[..i + 1][..i] == topics[..i];
  }

  /** An entry that does not qualify is passed over. */
  lemma TopicRunSkip(topic: string, entries: seq<Entry>, j: nat, ctx: Context, enrich: Enricher,
                     seen: set<string>, count: int)
    requires j < |entries| && !Qualifies(ctx, entries[j], seen)
    ensures TopicRun(topic, entries[j..], ctx, enrich, seen, count) ==
      TopicRun(topic, entries[j + 1..], ctx, enrich, seen, count)
  {
    assert entries[j..][0] == entries[j] && entries[j..][1..] == entries[j + 1..];
  }

  /** An entry that qualifies is collected, and ends the topic once the cap is reached. */
  lemma TopicRunTake(topic: string, entries: seq<Entry>, j: nat, ctx: Context, enrich: Enricher,
                     seen: set<string>, count: int)
    requires j < |entries| && Qualifies(ctx, entries[j], seen)
    ensures var e := entries[j];
      var en := enrich(EntryTitle(e), e.link);
      var head := TopicResult([MakeItem(topic, ctx, e, en.summary)], en.calls);
      TopicRun(topic, entries[j..], ctx, enrich, seen, count) ==
        if count + 1 >= ctx.cap then head
        else Then(head, TopicRun(topic, entries[j + 1..], ctx, enrich, seen + {e.link}, count + 1))
  {
    assert entries[j..][0] == entries[j] && entries[j..][1..] == entries[j + 1..];
  }

  /** Appending one collected item to the results so far. */
  lemma ThenSnoc(items: seq<Item>, calls: seq<Call>, item: Item, more: seq<Call>, rest: TopicResult)
    ensures Then(TopicResult(items, calls), TopicResult([item], more)) == TopicResult(items + [item], calls + more)
    ensures Then(TopicResult(items, calls), Then(TopicResult([item], more), rest)) ==
      Then(TopicResult(items + [item], calls + more), rest)
  {
    ThenAssoc(TopicResult(items, calls), TopicResult([item], more), rest);
  }

  /**
   * One pass of the inner loop: an entry without a link, with a link already
   * collected or with a time outside the window is skipped; any other is
   * enriched and made into an item.
   */
  method VisitEntry(topic: string, e: Entry, ctx: Context, enrich: Enricher, seen: set<string>)
    returns (visit: Option<TopicResult>)
    ensures visit.Some? <==> Qualifies(ctx, e, seen)
    ensures visit.Some? ==>
      var en := enrich(EntryTitle(e), e.link);
      visit.value == TopicResult([MakeItem(topic, ctx, e, en.summary)], en.calls)
  {
    var title := EntryTitle(e);
    var url := e.link;
    if url == "" || url in seen {
      return None;
    }
    var publishedLocal := ToLocalDt(EntryTime(e), ctx.offset);
    if publishedLocal.Some? && !(ctx.windowStart <= publishedLocal.value <= ctx.windowEnd) {
      return None;
    }
    var en := enrich(title, url);
    var item := MakeItem(topic, ctx, e, en.summary);
    visit := Some(TopicResult([item], en.calls));
  }

  /**
   * The inner loop of `main` for one topic: each entry is skipped when it has
   * no link, a link already collected or a time outside the window; the
   * others are summarised and collected until the topic reaches its cap.
   * `seen` grows by the URLs collected.
   */
  method CollectTopic(topic: string, entries: seq<Entry>, ctx: Context, enrich: Enricher, seen0: set<string>)
    returns (items: seq<Item>, calls: seq<Call>, seen: set<string>)
    ensures TopicResult(items, calls) == TopicRun(topic, entries, ctx, enrich, seen0, 0)
    ensures seen == seen0 + UrlSet(items)
  {
    ghost var full := TopicRun(topic, entries, ctx, enrich, seen0, 0);
    items, calls, seen := [], [], seen0;
    var count := 0;
    var j := 0;
    while j < |entries|
      invariant 0 <= j <= |entries| && count == |items|
      invariant seen == seen0 + UrlSet(items)
      invariant full == Then(TopicResult(items, calls), TopicRun(topic, entries[j..], ctx, enrich, seen, count))
    {
      var visit := VisitEntry(topic, entries[j], ctx, enrich, seen);
      if visit.None? {
        TopicRunSkip(topic, entries, j, ctx, enrich, seen, count);
        j := j + 1;
        continue;
      }
      TopicRunTake(topic, entries, j, ctx, enrich, seen, count);
      var url := entries[j].link;
      var item := visit.value.items[0];
      var more := visit.value.calls;
      assert visit.value == TopicResult([item], more);
      ThenSnoc(items, calls, item, more, TopicRun(topic, entries[j + 1..], ctx, enrich, seen + {url}, count + 1));
      calls := calls + more;
      UrlSetAppend(items, [item]);
      UrlSetSingle(item);
      items := items + [item];
      seen := seen + {url};
      count := count + 1;
      if count >= ctx.cap {
        break;
      }
      j := j + 1;
    }
    assert items + [] == items && calls + [] == calls;
  }

  /**
   * The collection loops of `main`: each topic's feed is read in topic
   * order and its entries collected into the topic's section; `flat` and
   * `seen` are the list of all items and the set of their URLs.
   */
  method Collect(topics: seq<Topic>, ctx: Context, svc: Services)
    returns (sections: seq<Section>, flat: seq<Item>, seen: set<string>, calls: seq<Call>)
    ensures sections == CollectSpec(topics, ctx, svc.feed, EnricherOf(svc)).sections
    ensures calls == CollectSpec(topics, ctx, svc.feed, EnricherOf(svc)).calls
    ensures flat == Flatten(sections) && seen == UrlSet(flat)
  {
    var feed := svc.feed;
    var enrich := EnricherOf(svc);
    sections, flat, seen, calls := [], [], {}, [];
    var i := 0;
    while i < |topics|
      invariant 0 <= i <= |topics|
      invariant Collected(sections, calls) == CollectSpec(topics[..i], ctx, feed, enrich)
      invariant flat == Flatten(sections) && seen == UrlSet(flat)
    {
      var topic := topics[i];
      var entries := feed(topic.rssUrl);
      var items, topicCalls;
      CollectStep(topics, i, ctx, feed, enrich);
      items, topicCalls, seen := CollectTopic(topic.name, entries, ctx, enrich, seen);
      FlattenAppend(sections, Section(topic.name, items));
      UrlSetAppend(flat, items);
      calls := calls + [ParseFeed(topic.rssUrl)] + topicCalls;
      sections := sections + [Section(topic.name, items)];
      flat := flat + items;
      i := i + 1;
    }
    assert topics[..i] == topics;
  }

  // ---------------------------------------------------------------------------
  // main
  // ---------------------------------------------------------------------------

  /** How a run of `main` ends. */
  datatype DigestRun =
    | NotScheduled
    | Ran(mode: DigestType, sections: seq<Section>, calls: seq<Call>, subject: string, html: string,
          outcome: Outcome)

  /** The "generated at" time of the page: the date, then the local `HH:MM`. */
  function GeneratedAt(dateStr: string, now: int): string
  {
    dateStr + " " + FormatHourMinute(now)
  }

  /** The highlight request, when there are items to choose from. */
  function HighlightCalls(flat: seq<Item>, dt: Option<DigestType>): seq<Call>
  {
    if flat == [] then [] else [Generate(Top3Prompt(dt, Listing(flat)))]
  }

  /** The context of a scheduled run. */
  function RunContext(now: int, offset: int, breakingMinutes: int, dt: Option<DigestType>, cap: int): Context
  {
    var w := GetTimeWindowLocal(dt, now);
    Context(w.0, w.1, now, offset, breakingMinutes, cap)
  }

  /** What a scheduled run produces from the collected sections: the page, its highlights and the send. */
  function Publish(mode: DigestType, c: Collected, dateStr: string, now: int, weatherLine: Option<string>,
                   generate: Generator, env: Env, connect: Connector, mail: Mailer): DigestRun
  {
    var dt := Some(mode);
    var t := TitlesAndSubject(dateStr, dt);
    var flat := Flatten(c.sections);
    var html := Document(t.header, t.subtitle, dateStr, GeneratedAt(dateStr, now), WeatherHtml(weatherLine),
                         Top3Html(Highlights(flat, dt, generate)), BodyContent(SectionsHtml(c.sections)));
    Ran(mode, c.sections, c.calls + HighlightCalls(flat, dt), t.subject, html,
        SendOutcome(env, t.subject, html, connect, mail))
  }

  /** What a run of `main` does at local time `now`. */
  function RunSpec(now: int, offset: int, dateStr: string, caps: Caps, breakingMinutes: int,
                   topics: seq<Topic>, svc: Services, weatherLine: Option<string>,
                   env: Env, connect: Connector, mail: Mailer): DigestRun
  {
    var dt := GetDigestType(now);
    match CapFor(dt, caps)
    case None => NotScheduled
    case Some(cap) =>
      Publish(dt.value, CollectSpec(topics, RunContext(now, offset, breakingMinutes, dt, cap), svc.feed, EnricherOf(svc)),
              dateStr, now, weatherLine, svc.generate, env, connect, mail)
  }

  /** Outside the three trigger hours nothing is read, fetched, generated or sent. */
  lemma RunSpecSchedule(now: int, offset: int, dateStr: string, caps: Caps, breakingMinutes: int,
                        topics: seq<Topic>, svc: Services, weatherLine: Option<string>,
                        env: Env, connect: Connector, mail: Mailer)
    ensures RunSpec(now, offset, dateStr, caps, breakingMinutes, topics, svc, weatherLine, env, connect, mail).NotScheduled?
      <==> Hour(now) !in {7, 12, 18}
  {
    CapForSchedule(now, caps);
  }

  /** A run that publishes does so at the trigger hour of its mode. */
  lemma RunSpecMode(now: int, offset: int, dateStr: string, caps: Caps, breakingMinutes: int,
                    topics: seq<Topic>, svc: Services, weatherLine: Option<string>,
                    env: Env, connect: Connector, mail: Mailer)
    ensures var r := RunSpec(now, offset, dateStr, caps, breakingMinutes, topics, svc, weatherLine, env, connect, mail);
      r.Ran? ==> GetDigestType(now) == Some(r.mode) && Hour(now) == TriggerHour(r.mode)
  {
    var dt := GetDigestType(now);
    if dt.Some? {
      GetDigestTypeSpec(now, dt.value);
    }
  }

  /**
   * A run that publishes shows what was collected with its mode's window and
   * cap, and adds one highlight request when there are items.
   */
  lemma RunSpecCollected(now: int, offset: int, dateStr: string, caps: Caps, breakingMinutes: int,
                         topics: seq<Topic>, svc: Services, weatherLine: Option<string>,
                         env: Env, connect: Connector, mail: Mailer)
    ensures var r := RunSpec(now, offset, dateStr, caps, breakingMinutes, topics, svc, weatherLine, env, connect, mail);
      r.Ran? ==>
        var dt := GetDigestType(now);
        var c := CollectSpec(topics, RunContext(now, offset, breakingMinutes, dt, CapFor(dt, caps).value), svc.feed, EnricherOf(svc));
        && r.sections == c.sections
        && r.calls == c.calls + HighlightCalls(Flatten(c.sections), dt)
  {
    var dt := GetDigestType(now);
    var cap := CapFor(dt, caps);
    if cap.Some? {
      var c := CollectSpec(topics, RunContext(now, offset, breakingMinutes, dt, cap.value), svc.feed, EnricherOf(svc));
      PublishShows(dt.value, c, dateStr, now, weatherLine, svc.generate, env, connect, mail);
    }
  }

  /** The published run carries the collected sections and the calls made. */
  lemma PublishShows(mode: DigestType, c: Collected, dateStr: string, now: int, weatherLine: Option<string>,
                     generate: Generator, env: Env, connect: Connector, mail: Mailer)
    ensures var r := Publish(mode, c, dateStr, now, weatherLine, generate, env, connect, mail);
      r == Ran(mode, c.sections, c.calls + HighlightCalls(Flatten(c.sections), Some(mode)), r.subject, r.html, r.outcome)
  {
  }

  /**
   * A scheduled run has one section per topic, in topic order, of at most
   * `max(cap, 1)` items; each URL appears once over the whole digest, and
   * every item has a link and, when it has a time, lies on the day of the
   * run, at or after the window's start hour and not after the run.
   */
  lemma ScheduledRunItems(now: int, offset: int, breakingMinutes: int, mode: DigestType, cap: int,
                          topics: seq<Topic>, svc: Services)
    requires GetDigestType(now) == Some(mode)
    ensures var c := CollectSpec(topics, RunContext(now, offset, breakingMinutes, Some(mode), cap), svc.feed, EnricherOf(svc));
      var flat := Flatten(c.sections);
      && |c.sections| == |topics|
      && (forall i :: 0 <= i < |topics| ==>
            c.sections[i].topic == topics[i].name && |c.sections[i].items| <= Limit(cap, 0))
      && UrlsDistinct(flat)
      && (forall k :: 0 <= k < |flat| ==>
            flat[k].url != ""
            && (flat[k].publishedLocal.Some? ==>
                  Day(flat[k].publishedLocal.value) == Day(now) && Hour(flat[k].publishedLocal.value) >= WindowStartHour(Some(mode))
                  && flat[k].publishedLocal.value <= now))
  {
    var dt := Some(mode);
    var ctx := RunContext(now, offset, breakingMinutes, dt, cap);
    var flat := Flatten(CollectSpec(topics, ctx, svc.feed, EnricherOf(svc)).sections);
    CollectSections(topics, ctx, svc.feed, EnricherOf(svc));
    CollectItems(topics, ctx, svc.feed, EnricherOf(svc));
    forall k | 0 <= k < |flat| && flat[k].publishedLocal.Some?
      ensures Day(flat[k].publishedLocal.value) == Day(now)
        && Hour(flat[k].publishedLocal.value) >= WindowStartHour(dt) && flat[k].publishedLocal.value <= now
    {
      WithinWindowSameDay(dt, now, flat[k].publishedLocal.value);
    }
  }

  /**
   * A scheduled run reads every feed once in topic order, fetches exactly
   * the pages of the collected items, and asks for highlights at most once,
   * only when there are items.
   */
  lemma ScheduledRunCalls(ctx: Context, topics: seq<Topic>, svc: Services, dt: Option<DigestType>)
    ensures var c := CollectSpec(topics, ctx, svc.feed, EnricherOf(svc));
      var flat := Flatten(c.sections);
      var calls := c.calls + HighlightCalls(flat, dt);
      && ParsedFeeds(calls) == FeedUrls(topics)
      && FetchedUrls(calls) == UrlsOf(flat)
      && |calls| == |c.calls| + (if flat == [] then 0 else 1)
  {
    var c := CollectSpec(topics, ctx, svc.feed, EnricherOf(svc));
    var flat := Flatten(c.sections);
    EnrichFetchesOwnPage(svc);
    CollectFeeds(topics, ctx, svc.feed, EnricherOf(svc));
    CollectFetches(topics, ctx, svc.feed, EnricherOf(svc));
    ParsedFeedsAppend(c.calls, HighlightCalls(flat, dt));
    FetchedUrlsAppend(c.calls, HighlightCalls(flat, dt));
  }

  /**
   * With the configured topic table and the default caps, every mode has the
   * cap 5, and collecting gives the five topics, in table order, each with at
   * most five items (what `RunSpecCollected` says a published run shows).
   */
  lemma DefaultRunSections(now: int, offset: int, mode: DigestType, svc: Services)
    requires GetDigestType(now) == Some(mode)
    ensures CapFor(Some(mode), DefaultCaps) == Some(5)
    ensures var c := CollectSpec(Topics, RunContext(now, offset, DefaultBreakingMinutes, Some(mode), 5), svc.feed, EnricherOf(svc));
      && |c.sections| == |Topics| == 5
      && forall i :: 0 <= i < |Topics| ==> c.sections[i].topic == Topics[i].name && |c.sections[i].items| <= 5
  {
    ScheduledRunItems(now, offset, DefaultBreakingMinutes, mode, 5, Topics, svc);
  }

  /** A time in the window lies on the day of `now`, at or after the start hour and not after `now`. */
  lemma WithinWindowSameDay(dt: Option<DigestType>, now: int, t: int)
    requires GetTimeWindowLocal(dt, now).0 <= t <= now
    ensures Day(t) == Day(now) && Hour(t) >= WindowStartHour(dt) && t <= now
  {
    var start := GetTimeWindowLocal(dt, now).0;
    assert start == Day(now) * SecondsPerDay + WindowStartHour(dt) * SecondsPerHour;
    assert now < (Day(now) + 1) * SecondsPerDay;
    assert t == Day(t) * SecondsPerDay + t % SecondsPerDay;
    assert t % SecondsPerDay == Hour(t) * SecondsPerHour + (t % SecondsPerDay) % SecondsPerHour;
  }

  /**
   * `main`: resolves the mode; outside the trigger hours it stops at once.
   * Otherwise it collects the items and publishes them.
   */
  method RunDigest(now: int, offset: int, dateStr: string, caps: Caps, breakingMinutes: int,
                   topics: seq<Topic>, svc: Services, weatherLine: Option<string>,
                   env: Env, connect: Connector, mail: Mailer)
    returns (r: DigestRun)
    ensures r == RunSpec(now, offset, dateStr, caps, breakingMinutes, topics, svc, weatherLine, env, connect, mail)
  {
    var dt := GetDigestType(now);
    var window := GetTimeWindowLocal(dt, now);
    var maxPerTopic := CapFor(dt, caps);
    if maxPerTopic.None? {
      return NotScheduled;
    }
    var ctx := Context(window.0, window.1, now, offset, breakingMinutes, maxPerTopic.value);
    var sections, flat, seen, calls := Collect(topics, ctx, svc);
    assert Collected(sections, calls) == CollectSpec(topics, ctx, svc.feed, EnricherOf(svc));
    r := PublishRun(dt.value, sections, flat, calls, dateStr, now, weatherLine, svc.generate, env, connect, mail);
  }

  /**
   * The rest of `main`: picks the highlights, builds the page with the
   * weather line passed in, and sends it.
   */
  method PublishRun(mode: DigestType, sections: seq<Section>, flat: seq<Item>, calls: seq<Call>,
                    dateStr: string, now: int, weatherLine: Option<string>,
                    generate: Generator, env: Env, connect: Connector, mail: Mailer)
    returns (r: DigestRun)
    requires flat == Flatten(sections)
    ensures r == Publish(mode, Collected(sections, calls), dateStr, now, weatherLine, generate, env, connect, mail)
  {
    var dt := Some(mode);
    var titles := TitlesAndSubject(dateStr, dt);
    var top3, request := PickTop3Highlights(flat, dt, generate);
    var allCalls := calls;
    if request.Some? {
      allCalls := calls + [Generate(request.value)];
    }
    assert allCalls == calls + HighlightCalls(flat, dt);
    var html := BuildHtml(dateStr, titles.header, titles.subtitle, sections, top3, weatherLine, GeneratedAt(dateStr, now));
    var outcome := SendHtmlEmailIndividual(env, titles.subject, html, connect, mail);
    r := Ran(mode, sections, allCalls, titles.subject, html, outcome);
  }
}
