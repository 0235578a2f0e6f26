# LRT news digest: a Dafny model

This project models a scheduled news digest for LRT, the Lithuanian national
broadcaster, and proves properties of that model. One run of the digest does the following:

- resolves the digest mode (morning at 07, midday at 12, evening at 18,
  local time) and its per-topic cap;
- reads every topic's RSS feed in topic order;
- keeps each entry that has a link not yet collected and whose publication
  time, when it has one, falls in the mode's look-back window;
- fetches each kept article and summarises it with a text generator;
- asks the generator once for the three main highlights;
- builds an HTML page with cards, a top-3 block, an optional weather block
  and an empty-state notice;
- sends the page to each recipient as a separate e-mail over an
  authenticated SMTP session.

## Modules

| file | module | models |
|---|---|---|
| `wrappers.dfy` | `Wrappers` | `Option` and `Result` |
| `text.dfy` | `Text` | the Python string operations used: `strip`, `lstrip`, `splitlines`, `split`, `join`, `replace(c, "")`, the slice `xs[:n]`, the non-blank strip comprehension and decimal rendering |
| `time_utils.dfy` | `TimeUtils` | `time_utils.py`: the mode, the window, the titles and local time |
| `digest_items.dfy` | `DigestItems` | the item dictionary and the `sections` entries |
| `openai_helpers.dfy` | `OpenAiHelpers` | `summarize_lt` and `pick_top3_highlights` (a method with the listing loop) |
| `html_builder.dfy` | `HtmlBuilder` | `esc`, `summary_to_html_list`, `link_domain`, and `build_html` (methods with its loops) |
| `email_sender.dfy` | `EmailSender` | `send_html_email_individual`: the settings, their checks and the sending loop (methods) |
| `lrt_multi_digest.dfy` | `LrtMultiDigest` | `main`: the mode-to-cap match, the topic and entry loops (methods), the highlights, the page and the send |

## How the outside world is modelled

- **Services.** The feed reader, the page fetcher, the text extractor, the
  text generator and the SMTP session are function parameters. The fetcher,
  the extractor and the generator return a `Result`: an exception they raise
  is a `Failure` value, which the run handles as the source does. The feed
  reader returns the feed's entries and cannot fail. The SMTP connector and
  mailer return an optional error.
- **Call log.** Each use of the feed reader, the fetcher or the generator is
  recorded as a `Call`. This lets the proofs state which feeds are read,
  which pages are fetched and when the generator is asked.
- **Loops.** Each loop in the source is a Dafny `method` with a `while`
  loop. Its contract ties the result to a recursive specification function,
  and the lemmas prove the source's promises about that function:
  - the entry loop: `CollectTopic` against `TopicRun`;
  - the topic loop: `Collect` against `CollectSpec`;
  - the card and section loops: `BuildCards` and `BuildHtml` against
    `Cards` and `SectionsHtml`;
  - the recipient loop: `SendAll` against `Deliver`;
  - the highlight listing: `PickTop3Highlights` against `Listing`.
- **Time.** A local time is a count of seconds from a local midnight. The
  time zone is a fixed offset, and the current time `now` is a parameter.

## Where the code and its documentation differ (the model follows the code)

- `get_time_window_local` starts the evening window at 17:00. Its
  docstring says 18:00. `WindowStartHour` gives 17.
- `get_digest_type` returns `"evening"` at 18:xx. Its docstring and the
  "Not scheduled" message name only 07:00 and 12:00.
- `titles_and_subject` and the mode hint of `pick_top3_highlights` give
  the midday texts for the evening mode; `EveningUsesMiddayTitles` and
  `ModeHint` state this.
- The cap check `count >= max_per_topic` runs only after an item is
  appended. With a cap of 0 or less, a topic therefore still takes its first
  qualifying entry, if it has one; `Limit` states this.
- `pick_top3_highlights` promises three bullets. It returns at most three,
  and none when the generator fails or there are no items.

## Model

| member | source | states |
|---|---|---|
| `Text.LStripSet` | html_builder.py:81 | `lstrip(chars)` drops exactly the longest prefix of characters in the set; the rest does not start with one |
| `Text.RStripSet` | openai_helpers.py:24 | `rstrip` drops exactly the longest suffix of characters in the set; the rest does not end with one |
| `Text.StripSet` | html_builder.py:14 | `strip(chars)` gives a text that neither starts nor ends with a character of the set and is no longer than the input |
| `Text.StripSetSlice` | html_builder.py:14 | what `strip(chars)` leaves is the piece of the input after its leading characters of the set; every character cut before or after that piece is in the set |
| `Text.Strip` | email_sender.py:10 | `strip()` gives a text that neither starts nor ends with whitespace and is no longer than the input |
| `Text.StripOfStripped` | email_sender.py:13-16 | stripping a text that is already stripped changes nothing |
| `Text.StripIdempotent` | email_sender.py:19 | stripping twice is stripping once |
| `Text.StripEmptyIffAllWhitespace` | html_builder.py:14 | a line strips to "" exactly when all its characters are whitespace (the `if l.strip()` filter) |
| `Text.SplitLines` | openai_helpers.py:62 | `splitlines()` gives lines without line boundaries and gives no line exactly for the empty text |
| `Text.SplitJoinLines` | openai_helpers.py:56 | lines without boundaries joined with "\n" split back into the same lines |
| `Text.SplitOn` | email_sender.py:10 | `split(",")` gives at least one part and no part holds the separator |
| `Text.JoinSplitOn` | email_sender.py:10 | joining the parts of `split(c)` with `c` gives back the input |
| `Text.RemoveChars` | email_sender.py:19 | `replace(c, "")` leaves no removed character and never lengthens the text |
| `Text.Take` | openai_helpers.py:7 | `xs[:n]` (`text[:12000]`, `bullets[:3]`) is the prefix of length min(len, n) |
| `Text.NonBlankStripped` | email_sender.py:10 | `[x.strip() for x in xs if x.strip()]` keeps non-empty stripped texts, no more than the input |
| `Text.NonBlankStrippedElements` | email_sender.py:10 | a text is kept exactly when it is non-empty and some input strips to it |
| `Text.NonBlankStrippedNoBreaks` | openai_helpers.py:62 | lines without line boundaries stay without them |
| `Text.NatToString` | html_builder.py:69 | the decimal rendering is non-empty, all digits and without a leading zero |
| `Text.DigitsValueOfNatToString` | openai_helpers.py:40-43 | the decimal rendering of n reads back as n |
| `Text.NatToStringInjective` | html_builder.py:69 | different counts are rendered differently |
| `TimeUtils.Hour` | time_utils.py:9-13 | the hour of a local time is in 0..23 |
| `TimeUtils.Minute` | lrt_multi_digest.py:97 | the minute of a local time is in 0..59 |
| `TimeUtils.AtHourOfDay` | time_utils.py:25-29 | combining the date of `t` with hour h gives the same day, hour h, minute 0, on the hour |
| `TimeUtils.GetDigestType` | time_utils.py:6-15 | definition: morning at hour 7, midday at hour 12, evening at hour 18, no mode at any other hour (stated by `GetDigestTypeSpec`) |
| `TimeUtils.GetDigestTypeSpec` | time_utils.py:6-15 | the mode is m exactly when the hour is m's trigger hour (7, 12, 18); there is no mode exactly when the hour is none of them |
| `TimeUtils.WindowStartHour` | time_utils.py:26-31 | the window start (0, 7 for midday, 17 for evening) is an hour of the day |
| `TimeUtils.GetTimeWindowLocal` | time_utils.py:18-32 | the window ends at now and starts on now's day at the mode's start hour, on the hour |
| `TimeUtils.WindowOrderedIff` | time_utils.py:18-32 | the window start is not after now exactly when now's hour is at least the start hour |
| `TimeUtils.ResolvedWindowOrdered` | time_utils.py:6-32 | at every trigger hour the window start is not after now |
| `TimeUtils.TitlesAndSubject` | time_utils.py:35-47 | subject and header end with the date; the morning subject is produced exactly for the morning mode |
| `TimeUtils.EveningUsesMiddayTitles` | time_utils.py:39-46 | the evening mode and no mode get the midday subject, header and subtitle |
| `TimeUtils.ToLocalDt` | time_utils.py:50-55 | no time gives no local time; otherwise the local time is the UTC time shifted by the zone offset |
| `TimeUtils.TwoDigits` | lrt_multi_digest.py:97 | a number below 100 is rendered as two digits that read back as the number |
| `TimeUtils.FormatHourMinute` | lrt_multi_digest.py:97 | `%H:%M` gives five characters, a colon in the middle, digits reading back as the hour and the minute |
| `DigestItems.FlattenAppend` | lrt_multi_digest.py:110-111 | appending a topic's section appends exactly its items to the flat list |
| `DigestItems.UrlSetHas` | lrt_multi_digest.py:112 | every collected item's URL is in the seen set |
| `DigestItems.UrlSetOnly` | lrt_multi_digest.py:112 | every URL in the seen set belongs to some collected item |
| `DigestItems.UrlSetAppend` | lrt_multi_digest.py:112 | the URLs of two lists of items together are the union of their URLs |
| `DigestItems.UrlSetSingle` | lrt_multi_digest.py:112 | one item adds exactly its own URL |
| `OpenAiHelpers.SummaryPrompt` | openai_helpers.py:7-24 | definition: the stripped text of the instructions, the title and the first 12000 characters of the article (stated by `SummaryPromptEmbedsPrefix`) |
| `OpenAiHelpers.SummarizeLt` | openai_helpers.py:6-27 | the summary succeeds exactly when the generator answers the prompt, and is then its stripped answer; a failure carries the generator's error |
| `OpenAiHelpers.SummaryPromptEmbedsPrefix` | openai_helpers.py:7-24 | the prompt is the instructions followed by a non-empty prefix of at most 12000 characters of the text: nothing past the limit is sent |
| `OpenAiHelpers.ModeHint` | openai_helpers.py:45 | the morning hint is given exactly for the morning mode, the midday hint otherwise |
| `OpenAiHelpers.Listing` | openai_helpers.py:39-43 | one listing line per item, for the first 30 items at most, line k made from item k with number k+1 |
| `OpenAiHelpers.ListingNumbered` | openai_helpers.py:40-43 | listing line k starts with the decimal number k+1 and ")" |
| `OpenAiHelpers.Top3Prompt` | openai_helpers.py:45-57 | definition: the opening, the mode hint, the rules and the listing lines joined with "\n"; the prompt is only sent with a non-empty listing; its placeholder wording and the listing's closing `)` then leave no outer whitespace, so the source's `strip()` changes nothing |
| `OpenAiHelpers.ParseBullets` | openai_helpers.py:61-63 | definition: the first three non-blank lines of the stripped answer, each stripped (stated by `ParseBulletsSpec`) |
| `OpenAiHelpers.Highlights` | openai_helpers.py:30-65 | definition: no highlights without items or when the generator fails, else the parsed answer to the top-3 prompt (stated by `PickTop3Highlights`) |
| `OpenAiHelpers.ParseBulletsSpec` | openai_helpers.py:61-63 | the highlights are the first (at most three) non-blank lines of the answer, in order, each stripped, non-empty and on one line |
| `OpenAiHelpers.PickTop3Highlights` | openai_helpers.py:30-65 | no items: no request and no lines; otherwise exactly one request with the mode hint and the listing, its answer parsed into at most three stripped non-empty lines, and none on failure |
| `HtmlBuilder.EscChar` | html_builder.py:9-10 | definition: `&`, `<`, `>`, `"` and `'` become `&amp;`, `&lt;`, `&gt;`, `&quot;` and `&#x27;`, as `html.escape(s, quote=True)` does; every other character stays |
| `HtmlBuilder.Esc` | html_builder.py:9-10 | the escaped text holds no `<`, `>`, `"` or `'` and is not shorter than the input |
| `HtmlBuilder.EscPlain` | html_builder.py:9-10 | text without special characters is left unchanged |
| `HtmlBuilder.Unescape` | html_builder.py:9-10 | definition: the decoder of those five entities, the partner against which `UnescapeEsc` and `EscapedListRoundTrip` state that escaping loses nothing |
| `HtmlBuilder.UnescapeEsc` | html_builder.py:9-10 | unescaping the escaped text gives back the text (escaping loses nothing) |
| `HtmlBuilder.EscInjective` | html_builder.py:9-10 | different texts are escaped differently |
| `HtmlBuilder.ParseListItems` | html_builder.py:17 | definition: the reader of a run of `<li>…</li>` items, giving their contents, or none when the text is not such a run |
| `HtmlBuilder.ParseListItemsOf` | html_builder.py:17 | a run of `<li>` items with escaped contents reads back as exactly those contents, in order |
| `HtmlBuilder.EscapedListRoundTrip` | html_builder.py:17 | a list of escaped lines reads back, and unescapes to the original lines |
| `HtmlBuilder.CleanSummaryLine` | html_builder.py:14 | a cleaned summary line is stripped and not longer than the line |
| `HtmlBuilder.SummaryLinesCount` | html_builder.py:14-16 | one cleaned line per non-blank line; no lines exactly when every line is blank |
| `HtmlBuilder.SummaryToHtmlList` | html_builder.py:13-18 | definition: the escaped summary when no line is non-blank, else a `summary-list` list of the escaped cleaned lines (stated by `SummaryBlankIsEscaped` and `SummaryListItemsSpec`) |
| `HtmlBuilder.SummaryBlankIsEscaped` | html_builder.py:15-16 | a summary whose lines are all blank is shown as its escaped text |
| `HtmlBuilder.SummaryListItemsSpec` | html_builder.py:13-18 | otherwise it is a `summary-list` list whose items read back as the escaped cleaned lines, one per non-blank line, which unescape to those lines |
| `HtmlBuilder.SchemeLength` | html_builder.py:22 | the `https?://` prefix has length 8, 7 or 0 and fits in the URL |
| `HtmlBuilder.LinkDomain` | html_builder.py:21-23 | a non-empty domain is the slash-free text after the scheme that a `/` follows; it is empty exactly when there is no scheme, the host is empty or no `/` follows it |
| `HtmlBuilder.LinkDomainOf` | html_builder.py:21-23 | for `scheme://host/rest` the domain is exactly `host` |
| `HtmlBuilder.CardHtml` | html_builder.py:41-62 | definition: a card with the badge when breaking, the escaped title, the escaped time, topic, link and domain, and the summary list |
| `HtmlBuilder.CardBadgeIff` | html_builder.py:41-51 | a card's title starts with the breaking badge exactly when the item is breaking |
| `HtmlBuilder.Cards` | html_builder.py:39-63 | one card per item, in order |
| `HtmlBuilder.SectionHtml` | html_builder.py:64-76 | definition: a topic block with the escaped topic, the item count in decimal and the topic's cards joined in order |
| `HtmlBuilder.NonEmptySections` | html_builder.py:36-38 | definition: the sections that have items, in order (stated by `NonEmptySectionsOnly`, `NonEmptySectionsAll` and `NonEmptySectionsEmptyIff`) |
| `HtmlBuilder.NonEmptySectionsOnly` | html_builder.py:36-38 | every section shown is a section of the input with items |
| `HtmlBuilder.NonEmptySectionsAll` | html_builder.py:36-38 | every section with items is shown |
| `HtmlBuilder.NonEmptySectionsEmptyIff` | html_builder.py:36-38 | no section is shown exactly when no topic has items |
| `HtmlBuilder.SectionsHtml` | html_builder.py:35-76 | one topic block per section with items, in section order |
| `HtmlBuilder.SectionsHtmlOnlyNonEmpty` | html_builder.py:36-38 | each topic block comes from a section that has items |
| `HtmlBuilder.SectionsHtmlAllNonEmpty` | html_builder.py:64-76 | each section with items has its block on the page |
| `HtmlBuilder.BodyContent` | html_builder.py:101-109 | definition: the topic blocks joined, or the empty-state notice when there are none |
| `HtmlBuilder.BodyContentEmptyIff` | html_builder.py:101-109 | the body is the empty-state notice exactly when there is no topic block |
| `HtmlBuilder.EmptyStateIff` | html_builder.py:101-109 | the empty-state notice is shown exactly when no topic has items |
| `HtmlBuilder.CleanHighlight` | html_builder.py:81 | a cleaned highlight is stripped and not longer than the line |
| `HtmlBuilder.CleanHighlights` | html_builder.py:81 | one cleaned highlight per line, in order |
| `HtmlBuilder.Top3Html` | html_builder.py:78-90 | definition: nothing without highlights, else the top-3 list of the escaped highlights with leading bullets removed |
| `HtmlBuilder.Top3HtmlSpec` | html_builder.py:78-90 | the top-3 block is absent exactly without highlights; otherwise its list reads back as the escaped cleaned highlights, which unescape to them |
| `HtmlBuilder.WeatherHtml` | html_builder.py:92-99 | the weather block is present exactly when a non-empty weather line is given, and then wraps the escaped line |
| `HtmlBuilder.Document` | html_builder.py:111-413 | definition: the page around the escaped header, subtitle, date and generation time, then the weather block, the top-3 block, the body content and the footer |
| `HtmlBuilder.BuildCards` | html_builder.py:39-63 | the card loop produces the topic's cards joined in order |
| `HtmlBuilder.BuildSection` | html_builder.py:64-76 | the topic block built from the loop's cards is the topic's block |
| `HtmlBuilder.BuildHtml` | html_builder.py:26-413 | the page is the document around the escaped titles and date, the weather block, the top-3 block and the topic blocks (or the empty-state notice) |
| `EmailSender.GetEnv` | email_sender.py:9 | definition: `os.getenv(name, "")`, the variable's value or "" when it is unset |
| `EmailSender.GetEnvOr` | email_sender.py:13-18 | `getenv(name) or default` gives the default exactly when the variable is unset, empty or equal to it, and the variable's value whenever it is set and non-empty |
| `EmailSender.Dedup` | email_sender.py:11 | definition: `list(dict.fromkeys(xs))`, each value at its first occurrence (stated by the four `Dedup` lemmas) |
| `EmailSender.DedupElements` | email_sender.py:11 | `dict.fromkeys` keeps exactly the values of its input |
| `EmailSender.DedupDistinct` | email_sender.py:11 | no value occurs twice after deduplication |
| `EmailSender.DedupFirstOccurrenceOrder` | email_sender.py:11 | values come out in the order of their first occurrence |
| `EmailSender.DedupOfDistinct` | email_sender.py:11 | a list without repeats is left unchanged |
| `EmailSender.ParseRecipients` | email_sender.py:9-11 | definition: the deduplicated non-blank stripped fields of the comma-separated value (stated by `ParseRecipientsSpec`) |
| `EmailSender.ParseRecipientsSpec` | email_sender.py:9-11 | recipients are non-blank, stripped and comma-free, none twice, and an address is a recipient exactly when some comma-separated field strips to it |
| `EmailSender.CleanPassword` | email_sender.py:18-19 | the cleaned password holds no space and no no-break space |
| `EmailSender.CleanPasswordOfPlain` | email_sender.py:18-19 | a password without blanks is kept as it is |
| `EmailSender.CleanPasswordIdempotent` | email_sender.py:18-19 | cleaning a cleaned password changes nothing |
| `EmailSender.ParseInt` | email_sender.py:15 | `int()` on a stripped text: an optional sign and ASCII digits give their value; the empty text and any other text give no number |
| `EmailSender.ParseIntOfNatToString` | email_sender.py:15 | `int()` reads back every unsigned decimal number |
| `EmailSender.ReadSettings` | email_sender.py:9-19 | definition: the recipients, the stripped sender, host, port text and user with their defaults, and the cleaned password |
| `EmailSender.CheckSettings` | email_sender.py:15-26 | definition: the checks in source order: the port parses, a recipient exists, sender, user and password are non-empty, the sender is the user (stated by `CheckSettingsAccepts` and `LoadConfigErrorOrder`) |
| `EmailSender.LoadConfig` | email_sender.py:9-26 | definition: the checks applied to the settings read from the environment |
| `EmailSender.CheckSettingsAccepts` | email_sender.py:15-26 | settings are accepted exactly when the port parses, there is a recipient, sender, user and password are given and the sender is the user; the accepted configuration holds the settings unchanged |
| `EmailSender.LoadConfigAccepts` | email_sender.py:9-26 | the same, stated on the environment's cleaned values |
| `EmailSender.LoadConfigErrorOrder` | email_sender.py:15-22 | a bad port is reported first, then an empty recipient list |
| `EmailSender.LoadConfigDefaults` | email_sender.py:14-15 | with the host and port variables unset or empty, an accepted configuration uses `smtp.gmail.com` and port 587 |
| `EmailSender.MessageFor` | email_sender.py:37-45 | each message goes from the sender to one recipient only, with the subject, the plain notice and the page |
| `EmailSender.Deliver` | email_sender.py:36-46 | definition: one message per recipient from recipient k on, in order, stopping at the first refused message (stated by `DeliverSpec`) |
| `EmailSender.DeliverSpec` | email_sender.py:36-46 | sending ends with messages for a prefix of the recipients, one each, in order; all of them exactly when delivered, and otherwise the next recipient's message is the one refused |
| `EmailSender.SendOutcome` | email_sender.py:8-46 | definition: refused on invalid settings, else the session's connect failure or the delivery outcome (stated by `SendOutcomeSpec`) |
| `EmailSender.SendOutcomeSpec` | email_sender.py:8-46 | a run is refused exactly when the settings are invalid (nothing sent); after a session that opened it sends to the recipients in order, to all exactly when delivered |
| `EmailSender.SendHtmlEmailIndividual` | email_sender.py:8-46 | the method's outcome is the specified outcome of the settings, the session and the messages |
| `EmailSender.SendWith` | email_sender.py:21-34 | refuse, fail to connect, or send, as the checks and the session decide |
| `EmailSender.SendAll` | email_sender.py:36-46 | the recipient loop gives the specified delivery outcome |
| `LrtMultiDigest.CapFor` | lrt_multi_digest.py:44-53 | definition: the configured cap of the mode, and no cap (the run exits) without a mode (stated by `CapForSchedule`) |
| `LrtMultiDigest.CapForSchedule` | lrt_multi_digest.py:44-53 | no cap exactly outside the hours 7, 12 and 18; at each of them the cap of its mode |
| `LrtMultiDigest.EntryTitle` | lrt_multi_digest.py:68 | definition: the entry's title, or its link when the title is missing or empty |
| `LrtMultiDigest.EntryTime` | lrt_multi_digest.py:77 | definition: the publication time, or the update time when there is no publication time |
| `LrtMultiDigest.InWindow` | lrt_multi_digest.py:78-83 | definition: an entry without a time is kept; one with a time is kept when its local time lies from the window start to the window end, both included |
| `LrtMultiDigest.Qualifies` | lrt_multi_digest.py:69-83 | definition: the entry has a non-empty link, not seen yet, and lies in the window (stated by `VisitEntry` and `TopicRunItems`) |
| `LrtMultiDigest.ExtractText` | fetcher.py:12-14 | the extracted text is stripped |
| `LrtMultiDigest.Enrich` | lrt_multi_digest.py:86-95 | summarising an entry first fetches its own page, and then asks the generator at most once |
| `LrtMultiDigest.EnrichSpec` | lrt_multi_digest.py:86-95 | the generator is asked exactly when the page was fetched and at least 200 characters were extracted; the summary is then its stripped answer; short text gives the notice; an error from the fetch, the extraction or the generator gives `Klaida: ` and its message |
| `LrtMultiDigest.MakeItem` | lrt_multi_digest.py:97-108 | the item carries the topic, link, title and summary; its time string is `HH:MM` of the local time or "" without one; it is breaking exactly when it has a time within the breaking minutes of now |
| `LrtMultiDigest.ItemFor` | lrt_multi_digest.py:86-108 | definition: the item made from an entry with the summary its enrichment gives |
| `LrtMultiDigest.Picks` | lrt_multi_digest.py:67-83 | definition: the qualifying entries in feed order, each seen link excluded, without the cap |
| `LrtMultiDigest.TopicRun` | lrt_multi_digest.py:67-116 | definition: the entry loop: entries that do not qualify are skipped; a qualifying one becomes its item with its calls; the loop stops after the item that brings the count to the cap (stated by `TopicRunIsCappedPicks`, `TopicRunItems` and `TopicRunCalls`) |
| `LrtMultiDigest.Limit` | lrt_multi_digest.py:114-116 | a topic may take at least one item, and at least cap minus count |
| `LrtMultiDigest.TopicRunIsCappedPicks` | lrt_multi_digest.py:67-116 | the loop with its `break` collects exactly the first `Limit` entries of the uncapped selection, each as its item |
| `LrtMultiDigest.EnrichFetchesOwnPage` | lrt_multi_digest.py:86-95 | summarising fetches exactly the entry's own page and reads no feed |
| `LrtMultiDigest.TopicRunItems` | lrt_multi_digest.py:67-116 | a topic's items have links not seen before and not repeated, times in the window, the topic's name, and number at most `Limit` |
| `LrtMultiDigest.TopicRunCalls` | lrt_multi_digest.py:67-116 | a topic fetches exactly the pages of its items, in order, and reads no feed |
| `LrtMultiDigest.CollectSpec` | lrt_multi_digest.py:56-116 | collecting gives one section per topic |
| `LrtMultiDigest.CollectSections` | lrt_multi_digest.py:56-116 | section i is named after topic i and has at most `max(cap, 1)` items |
| `LrtMultiDigest.CollectItems` | lrt_multi_digest.py:57-116 | no URL appears twice in the whole digest; every item has a link and lies in the window |
| `LrtMultiDigest.CollectFeeds` | lrt_multi_digest.py:63-64 | the feeds are read once each, in topic order |
| `LrtMultiDigest.CollectFetches` | lrt_multi_digest.py:63-116 | the pages fetched are exactly those of the collected items, in order |
| `LrtMultiDigest.VisitEntry` | lrt_multi_digest.py:68-108 | an entry is collected exactly when it has a link not yet seen and lies in the window, and then becomes its item with its summary's calls |
| `LrtMultiDigest.CollectTopic` | lrt_multi_digest.py:64-116 | the entry loop gives the specified topic run; the seen set grows by exactly the collected URLs |
| `LrtMultiDigest.Collect` | lrt_multi_digest.py:55-116 | the topic loop gives the specified sections and calls; `flat_items` is all sections' items in order and the seen set is their URLs |
| `LrtMultiDigest.GeneratedAt` | html_builder.py:111 | definition: the date followed by a space and `HH:MM` of now |
| `LrtMultiDigest.Publish` | lrt_multi_digest.py:118-134 | definition: the highlights of the flat items, the page with the titles, the weather, the top-3 block and the sections, and the send outcome of that page (stated by `PublishShows`) |
| `LrtMultiDigest.RunSpec` | lrt_multi_digest.py:34-135 | definition: not scheduled without a cap; otherwise the sections collected in the mode's window under its cap, then published (stated by `RunSpecSchedule`, `RunSpecMode` and `RunSpecCollected`) |
| `LrtMultiDigest.RunSpecSchedule` | lrt_multi_digest.py:35-53 | a run stops without reading, fetching, generating or sending exactly outside the hours 7, 12 and 18 |
| `LrtMultiDigest.RunSpecMode` | lrt_multi_digest.py:35-53 | a run that publishes does so in the mode of the current hour, at that mode's trigger hour |
| `LrtMultiDigest.RunSpecCollected` | lrt_multi_digest.py:40-120 | a published run shows what was collected with its mode's window and cap, and adds one highlight request exactly when there are items |
| `LrtMultiDigest.PublishShows` | lrt_multi_digest.py:118-134 | publishing keeps the collected sections and adds the highlight request to the calls |
| `LrtMultiDigest.ScheduledRunItems` | lrt_multi_digest.py:40-116 | a scheduled run has a named section per topic, in order, of at most `max(cap, 1)` items; each URL once; every item with a time lies on the day of the run, from the window's start hour to now |
| `LrtMultiDigest.ScheduledRunCalls` | lrt_multi_digest.py:63-120 | every feed is read once in topic order, exactly the collected pages are fetched, and the highlight request is added once exactly when there are items |
| `LrtMultiDigest.WithinWindowSameDay` | lrt_multi_digest.py:81-83 | a time inside the window lies on now's day, at or after the start hour and not after now |
| `LrtMultiDigest.DefaultRunSections` | config.py:11-29 | with the source's five topics and default caps, every mode has the cap 5 and collecting gives the five topics' sections in table order, each with at most five items |
| `LrtMultiDigest.RunDigest` | lrt_multi_digest.py:34-135 | `main` does what the run specification says: not scheduled, or the collected sections, the calls, the subject, the page and the send outcome |
| `LrtMultiDigest.PublishRun` | lrt_multi_digest.py:118-134 | highlights, page and send give the specified published run |

## Left out

- Network and libraries. Feed parsing, HTTP fetching, text extraction,
  the text generator and SMTP are function parameters, not implementations.
  `fetcher.py` and the `feedparser`, `requests`, `trafilatura`, OpenAI and
  `smtplib` libraries are not part of this model.
- SMTP session details. The 30-second timeout, the EHLO/STARTTLS/login
  sequence and the MIME encoding are folded into one `Connector` result and
  one `Message` value.
- Weather. `weather.py` is not part of this model; the weather line is a
  parameter of the run.
- Clock. `datetime.now` is read several times in the source; the model
  uses one `now` for all of them. The date string is a parameter. The
  `generated_at` time is written as that date followed by `HH:MM` of `now`.
- Time zone. `Europe/Vilnius` with its daylight-saving rules is a fixed
  offset.
- Time precision. Times are whole seconds; fractions of a second are not
  represented.
- Page chrome. The source's meta tags, the stylesheet, the top bar, the
  "Šaltinis" pill and the footer note are short placeholder texts. The
  indentation and line breaks of the source's HTML templates are not
  reproduced.
- Prompt wording. The Lithuanian instruction text of both prompts is a
  placeholder; the prompts' variable parts (title, truncated text, mode
  hint, listing) are modelled.
- `esc(None)`. Every text in the model is a string, so the `None` case
  does not arise.
- `int()` edge cases. `int()`'s acceptance of underscores and of non-ASCII
  digits is not modelled: `ParseInt` accepts an optional sign and ASCII
  digits only.
- Configuration. `config.py` reads `MAX_ARTICLES_PER_TOPIC_*` and
  `BREAKING_MINUTES` from the environment. In the model they are parameters
  of the run, with the defaults as `DefaultCaps` and `DefaultBreakingMinutes`.
- Topics. The topic table is a parameter; `Topics` holds the source's
  table. A sequence may repeat a topic name where a dictionary cannot. The
  `sections` dictionary is a list with one entry per topic, in topic order.
- Console output. The `print` statements are left out.
- `LrtMultiDigest.Services`: the feed reader returns a list of entries, so
  a feed that cannot be read shows as no entries (or as the entries read
  before the error). An exception escaping `feedparser.parse`
  (lrt_multi_digest.py:64), which aborts the run with nothing sent, is not
  modelled.
- Error messages. The texts of the `RuntimeError` and `ValueError` messages
  of email_sender.py:15-26 are not modelled; a refusal carries the
  `ConfigError` that names the failed check.
- Extractor results. The extractor's `None` result is the empty string.
- `LrtMultiDigest.ExtractText`: both `None` and `""` from `trafilatura`
  become `""`. Only the stripping is stated, because the extractor is an
  outside function.
