# Tweet bot: content selection, publish/retry controller and bookkeeping

A Dafny model of the decision logic of a scheduled tweet bot (`bot.js`): how the text
of a post is chosen, how the publish call reacts to the platform's answer, and how
the three JSON documents (content library, post history, generation settings) are
updated and reported. Everything is pure: the documents are values, random choices
are index parameters, and the platform's answers come from a script of attempts.

Modules, one file each:

- `Wrappers` (`wrappers.dfy`): `Option`, standing for `null`/`undefined` and for a
  document whose read throws.
- `JsText` (`js_text.dfy`): the JavaScript string operations the bot relies on:
  `includes`, `replace` with a string pattern (first occurrence only, with the `$`
  replacement patterns), `substring`, `slice`, `join` and ASCII `toLowerCase`. An
  `indexOf` is defined only as the search behind `includes` and `replace`. A `Split`
  is used only to show that the hashtag suffix separates back into its tags.
- `Documents` (`documents.dfy`): post records, the library, the settings and
  `trackPostedTweet`, `addTweet`, `configureAI` and `getStats`.
- `Generation` (`generation.dfy`): `generateAITweet`, which covers the eight
  templates, the per-topic phrase tables and their defaults, the hashtag suffix and
  the `maxLength` cut.
- `Library` (`library.dfy`): `getRandomTweet`, which avoids the last fifty posted
  texts and falls back to the whole library.
- `ImagePrompt` (`image_prompt.dfy`): the text part of `generateAIImage`, where the
  first technical term found in the lower-cased tweet becomes the subject.
- `Publisher` (`publisher.dfy`): `postTweet`.
  - The text is chosen as the supplied text, else the generated text, else a
    library entry.
  - The platform's error is classified, and a duplicate is retried with fresh
    content up to three times.
  - On a length error, a text over 280 units is cut once and retried. This is the
    evidently intended length branch. As written, the code throws a `ReferenceError`
    there (see "## Findings"); `Publisher.RecoverAsWritten` models that.
  - The shared retry depth is state passed in and returned.

Each publish attempt consumes one `Attempt`. An attempt holds:

- its random draws;
- the generator's answer and the library's answer for those draws;
- the platform's answer;
- the clock reading.

`Publisher.Drawn` ties the two answers to `GenerateAITweet` and `RandomTweet`, and
`Publisher.PostSelectsContent` shows that every attempt of a call then publishes
exactly what `SelectContent` picks.

The code keeps the retry depth in one object field shared by every call. It resets
that field only on success and at the cap; an auth, rate-limit or other error leaves
the depth where it was. A per-chain counter would not leak between calls; the model
follows the code, and `Publisher.DepthLeaksAcrossCalls` shows the consequence.

## Model

| member | source | states |
|---|---|---|
| Documents.TrackPostedTweet | bot.js:609-627 | An unreadable history stays unreadable; otherwise the new history is the last `min(n+1, 100)` records of the old history followed by the new record, in order, ending with the new record |
| Documents.TrackEvictsOldest | bot.js:612-621 | Below 100 records the record is only appended; at 100 exactly the oldest record is dropped |
| Documents.AddTweet | bot.js:630-639 | The library grows by exactly the new text at the end, earlier entries and schedules unchanged, with no de-duplication (its count in the multiset rises by one) |
| Documents.Merge | bot.js:645 | For each of the nine keys, a supplied key's value wins and an absent key keeps the stored value |
| Documents.ConfigureAI | bot.js:642-651 | For each of the nine keys, a supplied key overrides the stored value and an absent key keeps it; an unreadable configuration stays unreadable |
| Documents.ConfigureAIComposes | bot.js:645 | The spread merge with no settings changes nothing, repeating the same settings is idempotent, and two updates equal one update with the later keys winning |
| Documents.GetStats | bot.js:664-682 | Reports exist exactly when library and history are readable; the counts, the last record (absent for an empty history), the schedules, and generation enabled only when the settings are readable and enabled |
| Documents.StatsAfterTrack | bot.js:664-682 | After recording a post the statistics report it as the last post, with the capped count |
| Documents.StatsAfterAdd | bot.js:630-639 | After `addTweet` the library count rises by one and the history figures are unchanged |
| Documents.StatsAfterToggle | bot.js:808-815 | `ai-enable` and `ai-disable` decide the reported generation flag |
| JsText.IndexOfFindsFirst | bot.js:582 | The search behind `includes` and `replace` returns the leftmost occurrence, and -1 only when the pattern occurs nowhere |
| JsText.IncludesIffOccurs | bot.js:595 | `includes` holds exactly when the pattern occurs somewhere |
| JsText.Expand | bot.js:450-460 | A replacement text without `$` is inserted verbatim |
| JsText.ReplaceFirst | bot.js:450-460 | Without the pattern the text is unchanged; with it and a replacement without `$`, exactly one occurrence is exchanged, so the length changes by the replacement's length minus the pattern's |
| JsText.ReplaceFirstSpec | bot.js:450-460 | `replace` with a string pattern leaves text without the pattern alone and otherwise rewrites only the leftmost occurrence, keeping everything around it |
| JsText.LowerAscii | bot.js:156 | Same length; every ASCII capital becomes its lower-case letter and every other character is kept, so no ASCII capital remains |
| JsText.SplitJoin | bot.js:474 | Joining pieces that do not contain the separator and splitting again gives the pieces back |
| Generation.GenerateAITweet | bot.js:336-489 | The result is null exactly when the settings cannot be read or generation is disabled, and a generated text is at most `maxLength` long when `maxLength >= 3` |
| Generation.GenerateAITweetSpec | bot.js:449-480 | For an enabled configuration, the result is the drawn template with `{topic}` replaced by the drawn topic and the phrase placeholder replaced by the topic's table entry or the default. The hashtag suffix follows when hashtags are on, and the whole text is cut to `maxLength` |
| Generation.FillTemplateSpec | bot.js:450-460 | The replacement chain turns a template into lead, topic, middle, phrase and tail: each placeholder is replaced once and the fixed text is untouched |
| Generation.FillSlotsSpec | bot.js:451-460 | Running the placeholder replacements over text holding one placeholder replaces that placeholder with its phrase if it is among them, and changes nothing else |
| Generation.FillSlotsWithoutBrace | bot.js:451-460 | Text without `{` passes every placeholder replacement unchanged |
| Generation.OtherPlaceholderAbsent | bot.js:451-460 | A placeholder does not occur in text whose only `{` opens a different placeholder, so its replacement is a no-op there |
| Generation.TemplatesAreBraceFree | bot.js:347-356 | Every template's fixed text contains no `{`, so its only placeholders are `{topic}` and its one phrase placeholder |
| Generation.Phrase | bot.js:451-459 | A topic that is one of the eight table keys gets that key's table entry; any other topic gets the placeholder's default |
| Generation.HashtagSuffix | bot.js:474 | The suffix starts with a space; a count of 0 or of 3 and more gives all three tags, and a count of -3 or less gives none |
| Generation.Hashtags | bot.js:463-473 | Every topic's hashtag list, known or fallback, has three tags |
| Generation.HashtagSuffixSpec | bot.js:462-475 | The suffix is a space followed by the first `hashtagCount` tags joined by spaces, as `slice` counts them: a count of 0 is falsy and acts as 3, and a negative count drops tags from the end |
| Generation.HashtagSuffixSplits | bot.js:474 | For a topic without spaces, the suffix splits back into exactly the chosen tags |
| Generation.Truncate | bot.js:477-480 | The text is never longer than `maxLength` when `maxLength >= 3` |
| Generation.TruncateSpec | bot.js:477-480 | A text that fits is unchanged; a longer one becomes its first `maxLength - 3` units plus `...`, exactly `maxLength` long; below a limit of 3 it becomes `...` |
| Library.RecentTexts | bot.js:498 | The texts of the newest `min(n, 50)` history records, oldest first |
| Library.Available | bot.js:499-501 | An entry survives the filter exactly when its text is not among the recent texts, and it survives as often as the library holds it |
| Library.Pool | bot.js:504 | The pool is empty only for an empty library and holds only library entries; when some entry was not posted recently, every pooled entry was not, and when all were, the pool is the whole library |
| Library.RandomTweet | bot.js:492-514 | An unreadable document gives the apology text; otherwise the result is `undefined` exactly when the library is empty and is a library entry when there is one |
| Library.RandomTweetAvoidsRecent | bot.js:497-508 | When some library entry was not posted recently, the chosen entry was not posted recently |
| Library.RandomTweetFallsBack | bot.js:504-508 | When every entry was posted recently, the draw picks from the whole library |
| Library.ApologyOnlyOnFailure | bot.js:510-513 | The apology text comes only from a failed read, unless the library itself holds that text |
| Library.EveryAvailableEntryReachable | bot.js:507-508 | Every entry not posted recently is chosen by some random index |
| Library.RecentEntrySkipped | bot.js:497-508 | With library `[A, B]` and `A` just posted, the only possible choice is `B` |
| ImagePrompt.FirstFound | bot.js:155-160 | The position found holds a term the text includes, and no earlier term is included; none is found only when no term is included |
| ImagePrompt.Prompt | bot.js:159-166 | The prompt starts with the fixed lead and ends with the fixed style text |
| ImagePrompt.PromptNamesFirstTerm | bot.js:155-162 | The prompt names the first listed term that the lower-cased tweet includes |
| ImagePrompt.PromptFallsBack | bot.js:159-164 | Without any listed term the prompt uses the fallback subject |
| ImagePrompt.LoweredMissesUpperCase | bot.js:156 | Lower-cased text never includes a term containing an upper-case ASCII letter |
| ImagePrompt.UpperCaseTermNeverMatches | bot.js:148-157 | The listed term `AI` can never be the subject, whatever the tweet says |
| Publisher.Classify | bot.js:575-604 | The catch block's order: 403 is an auth error and 429 a rate-limit error whatever the detail; then a detail including `duplicate`; then one including `length`; everything else is another error |
| Publisher.StatusCodesWin | bot.js:576-581 | A 403 or 429 is classified by its code even when the detail mentions a duplicate |
| Publisher.DuplicateBeforeLength | bot.js:582-595 | A detail mentioning both a duplicate and a length problem is treated as a duplicate |
| Publisher.Choose | bot.js:521-526 | A truthy supplied text is kept, else a truthy generated text, else the library's answer is taken |
| Publisher.SelectContent | bot.js:518-527 | A truthy supplied text is published as is; otherwise a non-empty generated text; with generation off or unreadable, the library entry |
| Publisher.EmptyTextIsFresh | bot.js:521 | An empty supplied text is falsy and selects content exactly as no text does |
| Publisher.DisabledGenerationUsesLibrary | bot.js:521-526 | With generation disabled and a non-empty library, the published text is a library entry |
| Publisher.Shorten | bot.js:598-599 | The shortened text is exactly 280 units: the first 277 units of the original followed by `...` |
| Publisher.Recover | bot.js:572-604 | The catch block with the corrected length branch. Auth, rate-limit and other errors throw and keep the depth. A duplicate retries with no text one level deeper, or returns null at the cap with the depth reset. A length error retries the text cut to 280 units at the same depth, only when the text is over 280; as written the code throws instead (`Publisher.RecoverAsWritten`). Both retries are promised, not only their shape: a duplicate below the cap always retries, and a length error on a text over 280 always retries |
| Publisher.RecoverAsWritten | bot.js:595-603 | As the code is written, a length error throws a `ReferenceError` for `text`; every other case is as `Recover` |
| Publisher.Post | bot.js:517-606 | A call makes at least one attempt and at most the budget. Success and null leave depth 0, and a thrown error never lowers it. Nothing but a success changes the documents, and the first attempt publishes the chosen text. Errors are handled by the corrected length branch (`Publisher.Recover`), not the code as written (`Publisher.RecoverAsWritten`) |
| Publisher.RetryStep | bot.js:582-600 | A retry hands the rest of the script to the nested call and prepends the current attempt to its trace |
| Publisher.DuplicateStep | bot.js:582-594 | After a duplicate below the cap the call continues one level deeper with no text; at the cap it returns null with depth 0 after that attempt |
| Publisher.DuplicateRunSkips | bot.js:582-594 | A run of duplicates from depth `d` makes exactly `3 - d` retries, then returns null with depth 0 and the history unchanged |
| Publisher.DuplicateRetriesGetNoText | bot.js:586-589 | In a run of duplicates every retry is called with no text, so it picks fresh content |
| Publisher.PostTrace | bot.js:517-606 | Every attempt but the last failed. Each attempt published the text chosen from its call's argument. A retry gets no text exactly when the attempt before it was a duplicate |
| Publisher.PostSelectsContent | bot.js:518-527 | When every attempt is drawn from the documents, each attempt publishes what `SelectContent` picks for its call's argument and draws |
| Publisher.PublishedIsLastAttempt | bot.js:563-570 | A published call ends with the one successful attempt; its text, id and time are the ones recorded in the history |
| Publisher.SuccessResets | bot.js:563-570 | A success on the first attempt records the post, resets the depth and returns that record |
| Publisher.TerminalErrorsKeepDepth | bot.js:575-604 | An auth, rate-limit or unrecognised error is thrown after one attempt, leaves the depth and the documents as they were |
| Publisher.LengthRetriesOnce | bot.js:595-604 | With the corrected length branch (as written the code throws `ReferenceError`, see `Publisher.RecoverAsWritten`): a length error on a text over 280 retries once with the 280-unit text at the same depth; a second length error is rethrown, not cut again |
| Publisher.LongChosenTextRetries | bot.js:518-600 | With the corrected length branch: whether the text was supplied, generated or drawn from the library, a length error on a chosen text over 280 units leads to a second attempt with that text cut to 280 units |
| Publisher.ShortTextLengthErrorRethrown | bot.js:595-604 | With the corrected length branch (as written every length error throws `ReferenceError`, see `Publisher.RecoverAsWritten`): a length error on a text of at most 280 units is rethrown without a retry |
| Publisher.PostKeepsHistoryCapped | bot.js:609-621 | A call never grows the history past 100 records |
| Publisher.DepthLeaksAcrossCalls | bot.js:575-594 | Two duplicates followed by a rate-limit error leave the shared depth at 2, so the next call gets only one duplicate retry |
| Publisher.LengthBranchScoping | bot.js:572-604 | For every input, the handler as written and the intended handler agree exactly when the error is not a length error |
| Publisher.LengthBranchWitness | bot.js:595-600 | For a 300-unit text rejected with detail `length`, the intended handler retries with 280 units while the code as written throws `ReferenceError` |

## Left out

- Network I/O is not modelled. This covers the platform client, media upload, image download and the image services (bot.js:145-333 and 530-561). The platform's answer to each attempt is a script entry. The image branch never changes which text is posted.
- File persistence is not modelled: `fs-extra` reads and writes, default-file creation and the log file. The documents are values, and a read that throws is `None`. A failed write is only logged by the code, so it is not modelled.
- The cron scheduler, the CLI dispatch and the constructor's credential checks are wiring. The only CLI commands modelled are `ai-enable` and `ai-disable`, through `Documents.StatsAfterToggle`.
- `Math.random` is not modelled: each random choice is an index parameter that must be in range (`DrawFits`, `PickFits`).
- An empty `topics` array is excluded by `Generation.DrawFits`. The code would insert the topic `undefined` there.
- A configuration without a `maxLength` or `hashtagCount` key is not modelled. Both are integers here. In the code, a missing `maxLength` disables the cut and a missing `hashtagCount` behaves as 3.
- Table lookups by topic match only the eight own keys. A topic naming an inherited `Object.prototype` property, such as `constructor`, is treated as unknown.
- `toLowerCase` is modelled for ASCII letters only, not full Unicode case mapping.
- String lengths count Dafny characters. An emoji outside the Basic Multilingual Plane is one character here but two UTF-16 units in JavaScript. The template tails that end in such emoji are therefore one unit shorter per emoji than `.length` reports.
- Generation.GenerateAITweetSpec: requires the drawn topic and the chosen phrase to contain no `{` or `$`. With those characters, `replace` would insert `$` patterns or create new placeholders. Every built-in phrase meets this, but the premise is stated rather than proved for the 72 table strings.
- Generation.FillTemplateSpec: requires the topic to contain no `{` or `$`, for the same reason as `Generation.GenerateAITweetSpec`. A configured topic with either character is not covered by this lemma; `Generation.GenerateAITweet` still models it.
- Overlapping scheduler firings are not modelled. The five-minute job (bot.js:690) and the daily jobs (bot.js:703, 715, 727 and 739) fire together at 9:00, 12:00, 17:00 and 20:00. Two `postTweet` chains then interleave at every `await`, share the retry depth, and race on the read-modify-write of the history (bot.js:611-623). The model runs one call at a time.
- With an image, one attempt can call the platform twice (bot.js:555-558): a failed media tweet is logged and the text is tweeted again. A script entry stands for the answer to the last of those calls.
- Publisher.Post: requires the script to hold at least `Budget(depth, supplied)` attempts. This is the most a call can consume; it stands in for the platform being able to answer every attempt.
- `test-twitter.js` and `verify-clean.js` are not modelled: one is a live-API smoke script, the other a deployment lint over file contents.

## Findings

| source | as written | input that shows it | evidently intended | confidence | as-written member | corrected member |
|---|---|---|---|---|---|---|
| bot.js:595-600 | `text` is declared with `let` inside the `try` block, so the `catch` block's `if (text && text.length > 280)` names an unbound variable and throws `ReferenceError` | a supplied 300-unit text, and a platform error with no code and detail `length` | retry once with the first 277 units plus `...` at the same depth | not executed | Publisher.RecoverAsWritten (shown by Publisher.LengthBranchScoping and Publisher.LengthBranchWitness) | Publisher.Recover (used by Publisher.Post; proved in Publisher.LengthRetriesOnce) |
