/**
 `postTweet`: choose the text, publish it, and react to the platform's answer.
 A success is recorded in the history; a duplicate is retried with fresh content
 up to three times; a text that is too long is cut to 280 units once and retried;
 every other failure is thrown to the caller.

 The retry depth is the bot's `recursionDepth` field, shared by every call: it is
 passed in and returned. Each publish attempt consumes one `Attempt` from a script
 that holds the random draws for that attempt and the platform's answer to it.
 */
module Publisher {
  import opened Wrappers
  import opened JsText
  import opened Documents
  import opened Generation
  import opened Library

  /** `maxRecursionDepth`. */
  const MaxDepth: nat := 3

  /** The platform's length limit. */
  const PlatformLimit: nat := 280

  /** What the platform answers: the new post's id, or an error with optional `code` and `data.detail`. */
  datatype Outcome = Posted(id: string) | Failed(code: Option<int>, detail: Option<string>)

  /** The random draws of one attempt: topic, template and library index. */
  datatype Draw = Draw(topicPick: nat, templatePick: nat, tweetPick: nat)

  /**
   One publish attempt: its random draws, what the generator and the library
   answer for them, the platform's answer and the clock reading.
   */
  datatype Attempt = Attempt(draw: Draw, generated: Option<string>, library: Option<string>, outcome: Outcome, now: string)

  /** The error a call throws. `ReferenceError` is what evaluating an unbound name throws. */
  datatype Failure =
    | AuthFailed
    | RateLimited
    | Rethrown(code: Option<int>, detail: Option<string>)
    | ReferenceError(name: string)

  /** How a call ends: the recorded post, null after too many duplicates, or an exception. */
  datatype Result = Published(rec: PostRecord) | Skipped | Thrown(failure: Failure)

  /** The catch block's reading of an error. */
  datatype Kind = Auth | RateLimit | Duplicate | TooLong | Other

  /** The checks of the catch block, in their order. */
  function Classify(code: Option<int>, detail: Option<string>): (k: Kind)
    ensures k == Auth <==> code == Some(403)
    ensures k == RateLimit <==> code == Some(429)
    ensures k == Duplicate <==> code != Some(403) && code != Some(429) && detail.Some? && Includes(detail.value, "duplicate")
    ensures k == TooLong <==>
              && code != Some(403) && code != Some(429) && detail.Some?
              && !Includes(detail.value, "duplicate") && Includes(detail.value, "length")
  {
    if code == Some(403) then Auth
    else if code == Some(429) then RateLimit
    else if detail.Some? && Includes(detail.value, "duplicate") then Duplicate
    else if detail.Some? && Includes(detail.value, "length") then TooLong
    else Other
  }

  /** A text that is absent (`null`, `undefined`) or empty is falsy. */
  predicate Falsy(text: Option<string>) {
    text.None? || text.value == ""
  }

  /** `text.substring(0, 277) + '...'`. */
  function Shorten(text: string): (r: string)
    requires |text| > PlatformLimit
    ensures |r| == PlatformLimit
    ensures r[..PlatformLimit - 3] == text[..PlatformLimit - 3]
    ensures r[PlatformLimit - 3..] == "..."
  {
    Substring(text, PlatformLimit - 3) + "..."
  }

  /**
   `text || generated || library`: the supplied text when it is truthy, else the
   generated one when that is truthy, else the library entry.
   */
  function Choose(supplied: Option<string>, generated: Option<string>, library: Option<string>): (text: Option<string>)
    ensures text in {supplied, generated, library}
    ensures !Falsy(supplied) ==> text == supplied
    ensures Falsy(supplied) && !Falsy(generated) ==> text == generated
    ensures Falsy(supplied) && Falsy(generated) ==> text == library
  {
    if !Falsy(supplied) then supplied
    else if !Falsy(generated) then generated
    else library
  }

  /** The text an attempt publishes, from the documents and the draws. */
  function SelectContent(store: Store, supplied: Option<string>, draw: Draw): (text: Option<string>)
    requires DrawFits(store.config, draw.topicPick, draw.templatePick)
    requires PickFits(store.content, store.posted, draw.tweetPick)
    ensures !Falsy(supplied) ==> text == supplied
    ensures Falsy(supplied) && GenerateAITweet(store.config, draw.topicPick, draw.templatePick).Some?
              && GenerateAITweet(store.config, draw.topicPick, draw.templatePick).value != ""
            ==> text == GenerateAITweet(store.config, draw.topicPick, draw.templatePick)
    ensures Falsy(supplied) && (store.config.None? || !store.config.value.enabled)
            ==> text == RandomTweet(store.content, store.posted, draw.tweetPick)
  {
    Choose(supplied, GenerateAITweet(store.config, draw.topicPick, draw.templatePick),
           RandomTweet(store.content, store.posted, draw.tweetPick))
  }

  /** The attempt's answers are what the generator and the library give for its draws. */
  predicate Drawn(store: Store, a: Attempt) {
    && DrawFits(store.config, a.draw.topicPick, a.draw.templatePick)
    && PickFits(store.content, store.posted, a.draw.tweetPick)
    && a.generated == GenerateAITweet(store.config, a.draw.topicPick, a.draw.templatePick)
    && a.library == RandomTweet(store.content, store.posted, a.draw.tweetPick)
  }

  /** 1 when the attempt's text may be over the limit (fresh content, or a long supplied text). */
  function LongFlag(supplied: Option<string>): nat {
    if Falsy(supplied) || |supplied.value| > PlatformLimit then 1 else 0
  }

  /**
   The most attempts one call can make: one per depth level for duplicates, and one
   extra whenever the text at hand may need shortening.
   */
  function Budget(depth: nat, supplied: Option<string>): nat
    requires depth <= MaxDepth
  {
    1 + LongFlag(supplied) + 2 * (MaxDepth - depth)
  }

  /** What the catch block decides: finish with a result and a depth, or call again. */
  datatype Action = Finish(result: Result, depth: nat) | Retry(supplied: Option<string>, depth: nat)

  /**
   The catch block for a failed attempt that published `text` at depth `depth`.
   Auth and rate-limit errors throw and keep the depth; a duplicate retries with
   fresh content one level deeper, or returns null and resets the depth at the cap;
   a length error retries a text over the limit, shortened, at the same depth;
   anything else is rethrown.
   */
  function Recover(code: Option<int>, detail: Option<string>, text: Option<string>, depth: nat): (a: Action)
    requires depth <= MaxDepth
    ensures a.depth <= MaxDepth
    ensures a.Retry? ==> Classify(code, detail) in {Duplicate, TooLong}
    ensures a.Retry? && Classify(code, detail) == Duplicate ==> a.supplied == None && a.depth == depth + 1
    ensures a.Retry? && Classify(code, detail) == TooLong ==>
              && text.Some? && |text.value| > PlatformLimit
              && a.supplied == Some(Shorten(text.value)) && a.depth == depth
    ensures a.Finish? && a.result.Skipped? <==> Classify(code, detail) == Duplicate && depth == MaxDepth
    ensures a.Finish? && a.result.Skipped? ==> a.depth == 0
    ensures a.Finish? && !a.result.Skipped? ==> a.depth == depth && a.result.Thrown?
    ensures Classify(code, detail) == Duplicate && depth < MaxDepth ==> a == Retry(None, depth + 1)
    ensures Classify(code, detail) == TooLong && text.Some? && |text.value| > PlatformLimit ==>
              a == Retry(Some(Shorten(text.value)), depth)
  {
    match Classify(code, detail)
    case Auth => Finish(Thrown(AuthFailed), depth)
    case RateLimit => Finish(Thrown(RateLimited), depth)
    case Duplicate =>
      if depth < MaxDepth then Retry(None, depth + 1) else Finish(Skipped, 0)
    case TooLong =>
      if text.Some? && |text.value| > PlatformLimit then Retry(Some(Shorten(text.value)), depth)
      else Finish(Thrown(Rethrown(code, detail)), depth)
    case Other => Finish(Thrown(Rethrown(code, detail)), depth)
  }

  /**
   The catch block as the code is written: `text` is declared with `let` inside the
   `try` block, so the length branch's reference to it is unbound in the `catch`
   block and throws instead of retrying.
   */
  function RecoverAsWritten(code: Option<int>, detail: Option<string>, text: Option<string>, depth: nat): (a: Action)
    requires depth <= MaxDepth
    ensures Classify(code, detail) == TooLong ==> a == Finish(Thrown(ReferenceError("text")), depth)
    ensures Classify(code, detail) != TooLong ==> a == Recover(code, detail, text, depth)
  {
    if Classify(code, detail) == TooLong then Finish(Thrown(ReferenceError("text")), depth)
    else Recover(code, detail, text, depth)
  }

  /** The outcome of a call: its result, the depth afterwards, the documents and its trace. */
  datatype Run = Run(result: Result, depth: nat, store: Store, attempts: seq<Option<string>>, given: seq<Option<string>>)

  /**
   `postTweet(supplied)` starting at retry depth `depth`, with each publish attempt
   taking the next entry of `script`. In the result, `attempts` lists the text each
   attempt published and `given` the argument of the call that made it (the
   outer call, then each retry).
   */
  function Post(store: Store, supplied: Option<string>, depth: nat, script: seq<Attempt>): (r: Run)
    requires depth <= MaxDepth
    requires |script| >= Budget(depth, supplied)
    ensures 1 <= |r.attempts| <= Budget(depth, supplied)
    ensures r.depth <= MaxDepth
    ensures r.result.Published? || r.result.Skipped? ==> r.depth == 0
    ensures r.result.Thrown? ==> r.depth >= depth
    ensures r.store.content == store.content && r.store.config == store.config
    ensures !r.result.Published? ==> r.store == store
    ensures |r.given| == |r.attempts| && r.given[0] == supplied
    ensures r.attempts[0] == Choose(supplied, script[0].generated, script[0].library)
    decreases MaxDepth - depth, LongFlag(supplied)
  {
    var a := script[0];
    var text := Choose(supplied, a.generated, a.library);
    match a.outcome
    case Posted(id) =>
      var rec := PostRecord(text, id, a.now);
      Run(Published(rec), 0, store.(posted := TrackPostedTweet(store.posted, rec)), [text], [supplied])
    case Failed(code, detail) =>
      var action := Recover(code, detail, text, depth);
      if action.Finish? then Run(action.result, action.depth, store, [text], [supplied])
      else
        var inner := Post(store, action.supplied, action.depth, script[1..]);
        Run(inner.result, inner.depth, inner.store, [text] + inner.attempts, [supplied] + inner.given)
  }

  /** The platform rejected the attempt as a duplicate. */
  predicate IsDuplicate(o: Outcome) {
    o.Failed? && Classify(o.code, o.detail) == Duplicate
  }

  /** The auth and rate-limit checks come first: a 403 mentioning a duplicate is still an auth failure. */
  lemma StatusCodesWin(detail: Option<string>)
    ensures Classify(Some(403), detail) == Auth
    ensures Classify(Some(429), detail) == RateLimit
  {
  }

  /** A detail naming both a duplicate and a length problem is read as a duplicate. */
  lemma DuplicateBeforeLength(code: Option<int>, detail: string)
    requires code != Some(403) && code != Some(429)
    requires Includes(detail, "duplicate") && Includes(detail, "length")
    ensures Classify(code, Some(detail)) == Duplicate
  {
  }

  /** A retry hands the rest of the script to the next call and prepends this attempt to its trace. */
  lemma RetryStep(store: Store, supplied: Option<string>, depth: nat, script: seq<Attempt>)
    requires depth <= MaxDepth
    requires |script| >= Budget(depth, supplied)
    requires script[0].outcome.Failed?
    requires Recover(script[0].outcome.code, script[0].outcome.detail,
                     Choose(supplied, script[0].generated, script[0].library), depth).Retry?
    ensures var text := Choose(supplied, script[0].generated, script[0].library);
            var action := Recover(script[0].outcome.code, script[0].outcome.detail, text, depth);
            && action.depth <= MaxDepth
            && |script[1..]| >= Budget(action.depth, action.supplied)
            && var inner := Post(store, action.supplied, action.depth, script[1..]);
               Post(store, supplied, depth, script)
               == Run(inner.result, inner.depth, inner.store, [text] + inner.attempts, [supplied] + inner.given)
  {
  }

  /**
   A run of duplicate answers starting at depth `depth` makes `MaxDepth - depth`
   retries, then returns null with the depth reset and nothing recorded.
   */
  lemma {:induction false} DuplicateRunSkips(store: Store, supplied: Option<string>, depth: nat, script: seq<Attempt>)
    requires depth <= MaxDepth
    requires |script| >= Budget(depth, supplied)
    requires forall k :: 0 <= k < |script| ==> IsDuplicate(script[k].outcome)
    ensures var r := Post(store, supplied, depth, script);
            && r.result == Skipped
            && r.depth == 0
            && r.store == store
            && |r.attempts| == MaxDepth - depth + 1
    decreases MaxDepth - depth
  {
    if depth < MaxDepth {
      DuplicateStep(store, supplied, depth, script);
      var rest := script[1..];
      DuplicatesContinue(script);
      DuplicateRunSkips(store, None, depth + 1, rest);
    } else {
      DuplicateStep(store, supplied, depth, script);
    }
  }

  /** The rest of a run of duplicates is one too. */
  lemma DuplicatesContinue(script: seq<Attempt>)
    requires |script| > 0
    requires forall k :: 0 <= k < |script| ==> IsDuplicate(script[k].outcome)
    ensures forall k :: 0 <= k < |script[1..]| ==> IsDuplicate(script[1..][k].outcome)
  {
    forall k | 0 <= k < |script[1..]| ensures IsDuplicate(script[1..][k].outcome) {
      assert script[1..][k] == script[k + 1];
    }
  }

  /** One duplicate answer: below the cap the call retries with no text one level deeper; at the cap it returns null. */
  lemma DuplicateStep(store: Store, supplied: Option<string>, depth: nat, script: seq<Attempt>)
    requires depth <= MaxDepth
    requires |script| >= Budget(depth, supplied)
    requires IsDuplicate(script[0].outcome)
    ensures var text := Choose(supplied, script[0].generated, script[0].library);
            if depth < MaxDepth then
              && |script[1..]| >= Budget(depth + 1, None)
              && var inner := Post(store, None, depth + 1, script[1..]);
                 Post(store, supplied, depth, script)
                 == Run(inner.result, inner.depth, inner.store, [text] + inner.attempts, [supplied] + inner.given)
            else
              Post(store, supplied, depth, script) == Run(Skipped, 0, store, [text], [supplied])
  {
  }

  /** In a run of duplicates every retry is handed no text, so each one publishes fresh content. */
  lemma DuplicateRetriesGetNoText(store: Store, supplied: Option<string>, depth: nat, script: seq<Attempt>)
    requires depth <= MaxDepth
    requires |script| >= Budget(depth, supplied)
    requires forall k :: 0 <= k < |script| ==> IsDuplicate(script[k].outcome)
    ensures var r := Post(store, supplied, depth, script);
            forall k :: 1 <= k < |r.given| ==> r.given[k] == None
  {
    PostTrace(store, supplied, depth, script);
  }

  /**
   The trace: every attempt but the last failed; each attempt published the text
   chosen from its call's argument and its own answers; and a retry is handed no
   text exactly when the attempt before it was rejected as a duplicate.
   */
  lemma {:induction false} PostTrace(store: Store, supplied: Option<string>, depth: nat, script: seq<Attempt>)
    requires depth <= MaxDepth
    requires |script| >= Budget(depth, supplied)
    ensures var r := Post(store, supplied, depth, script);
            && (forall k :: 0 <= k < |r.attempts| - 1 ==> script[k].outcome.Failed?)
            && (forall k :: 0 <= k < |r.attempts| ==> r.attempts[k] == Choose(r.given[k], script[k].generated, script[k].library))
            && (forall k :: 1 <= k < |r.given| ==> (IsDuplicate(script[k - 1].outcome) <==> r.given[k] == None))
    decreases MaxDepth - depth, LongFlag(supplied)
  {
    var text := Choose(supplied, script[0].generated, script[0].library);
    var o := script[0].outcome;
    if o.Failed? && Recover(o.code, o.detail, text, depth).Retry? {
      var action := Recover(o.code, o.detail, text, depth);
      RetryStep(store, supplied, depth, script);
      PostTrace(store, action.supplied, action.depth, script[1..]);
      var r := Post(store, supplied, depth, script);
      var inner := Post(store, action.supplied, action.depth, script[1..]);
      ShiftedFailures(script, r.attempts, inner.attempts, text);
      ShiftedChoices(script, r.attempts, r.given, inner.attempts, inner.given, supplied);
      ShiftedGiven(script, r.given, inner.given, supplied);
    }
  }

  /** The failures of a retried call, moved one position later in its caller's trace. */
  lemma ShiftedFailures(script: seq<Attempt>, attempts: seq<Option<string>>, innerAttempts: seq<Option<string>>, text: Option<string>)
    requires |script| > 0 && script[0].outcome.Failed?
    requires attempts == [text] + innerAttempts && |innerAttempts| < |script|
    requires forall k :: 0 <= k < |innerAttempts| - 1 ==> script[1..][k].outcome.Failed?
    ensures forall k :: 0 <= k < |attempts| - 1 ==> script[k].outcome.Failed?
  {
    forall k | 1 <= k < |attempts| - 1 ensures script[k].outcome.Failed? {
      assert script[k] == script[1..][k - 1];
    }
  }

  /** The texts of a retried call, moved one position later in its caller's trace. */
  lemma ShiftedChoices(script: seq<Attempt>, attempts: seq<Option<string>>, given: seq<Option<string>>,
                       innerAttempts: seq<Option<string>>, innerGiven: seq<Option<string>>, supplied: Option<string>)
    requires |script| > 0
    requires attempts == [Choose(supplied, script[0].generated, script[0].library)] + innerAttempts
    requires given == [supplied] + innerGiven
    requires |innerGiven| == |innerAttempts| < |script|
    requires forall k :: 0 <= k < |innerAttempts| ==>
               innerAttempts[k] == Choose(innerGiven[k], script[1..][k].generated, script[1..][k].library)
    ensures forall k :: 0 <= k < |attempts| ==> attempts[k] == Choose(given[k], script[k].generated, script[k].library)
  {
    forall k | 1 <= k < |attempts| ensures attempts[k] == Choose(given[k], script[k].generated, script[k].library) {
      assert attempts[k] == innerAttempts[k - 1] && given[k] == innerGiven[k - 1];
      assert script[k] == script[1..][k - 1];
    }
  }

  /** The retry arguments of a retried call, moved one position later in its caller's trace. */
  lemma ShiftedGiven(script: seq<Attempt>, given: seq<Option<string>>, innerGiven: seq<Option<string>>, supplied: Option<string>)
    requires |script| > 0
    requires given == [supplied] + innerGiven
    requires 0 < |innerGiven| < |script|
    requires IsDuplicate(script[0].outcome) <==> innerGiven[0] == None
    requires forall k :: 1 <= k < |innerGiven| ==> (IsDuplicate(script[1..][k - 1].outcome) <==> innerGiven[k] == None)
    ensures forall k :: 1 <= k < |given| ==> (IsDuplicate(script[k - 1].outcome) <==> given[k] == None)
  {
    forall k | 1 <= k < |given| ensures IsDuplicate(script[k - 1].outcome) <==> given[k] == None {
      assert given[k] == innerGiven[k - 1];
      if k >= 2 {
        assert script[k - 1] == script[1..][k - 2];
      }
    }
  }

  /** Every attempt is drawn from the documents the call reads. */
  predicate ScriptDrawn(store: Store, script: seq<Attempt>) {
    forall k :: 0 <= k < |script| ==> Drawn(store, script[k])
  }

  /**
   With every attempt drawn from the documents, each attempt publishes what
   `SelectContent` picks for its call's argument and its draws; in particular every
   retry after a duplicate publishes fresh content.
   */
  lemma PostSelectsContent(store: Store, supplied: Option<string>, depth: nat, script: seq<Attempt>)
    requires depth <= MaxDepth
    requires |script| >= Budget(depth, supplied)
    requires ScriptDrawn(store, script)
    ensures var r := Post(store, supplied, depth, script);
            forall k :: 0 <= k < |r.attempts| ==>
              && DrawFits(store.config, script[k].draw.topicPick, script[k].draw.templatePick)
              && PickFits(store.content, store.posted, script[k].draw.tweetPick)
              && r.attempts[k] == SelectContent(store, r.given[k], script[k].draw)
  {
    PostTrace(store, supplied, depth, script);
    var r := Post(store, supplied, depth, script);
    forall k | 0 <= k < |r.attempts|
      ensures && DrawFits(store.config, script[k].draw.topicPick, script[k].draw.templatePick)
              && PickFits(store.content, store.posted, script[k].draw.tweetPick)
              && r.attempts[k] == SelectContent(store, r.given[k], script[k].draw)
    {
      assert Drawn(store, script[k]);
    }
  }

  /** A published call ends with the one successful attempt, whose text, id and time are recorded. */
  lemma {:induction false} PublishedIsLastAttempt(store: Store, supplied: Option<string>, depth: nat, script: seq<Attempt>)
    requires depth <= MaxDepth
    requires |script| >= Budget(depth, supplied)
    ensures var r := Post(store, supplied, depth, script);
            r.result.Published? ==>
              && script[|r.attempts| - 1].outcome == Posted(r.result.rec.id)
              && r.result.rec.text == r.attempts[|r.attempts| - 1]
              && r.result.rec.timestamp == script[|r.attempts| - 1].now
              && r.store.posted == TrackPostedTweet(store.posted, r.result.rec)
    decreases MaxDepth - depth, LongFlag(supplied)
  {
    var text := Choose(supplied, script[0].generated, script[0].library);
    var o := script[0].outcome;
    if o.Failed? && Recover(o.code, o.detail, text, depth).Retry? {
      var action := Recover(o.code, o.detail, text, depth);
      RetryStep(store, supplied, depth, script);
      PublishedIsLastAttempt(store, action.supplied, action.depth, script[1..]);
      var r := Post(store, supplied, depth, script);
      var inner := Post(store, action.supplied, action.depth, script[1..]);
      assert |r.attempts| - 1 == |inner.attempts|;
      assert r.attempts[|r.attempts| - 1] == inner.attempts[|inner.attempts| - 1];
      assert script[|r.attempts| - 1] == script[1..][|inner.attempts| - 1];
    }
  }

  /** A success records the post, resets the depth and ends the call after one attempt. */
  lemma SuccessResets(store: Store, supplied: Option<string>, depth: nat, script: seq<Attempt>)
    requires depth <= MaxDepth
    requires |script| >= Budget(depth, supplied)
    requires script[0].outcome.Posted?
    ensures var r := Post(store, supplied, depth, script);
            var text := Choose(supplied, script[0].generated, script[0].library);
            && r.result == Published(PostRecord(text, script[0].outcome.id, script[0].now))
            && r.depth == 0
            && r.attempts == [text]
            && r.store == store.(posted := TrackPostedTweet(store.posted, r.result.rec))
  {
  }

  /** Auth, rate-limit and unrecognised errors are thrown at once and leave the depth as it was. */
  lemma TerminalErrorsKeepDepth(store: Store, supplied: Option<string>, depth: nat, script: seq<Attempt>)
    requires depth <= MaxDepth
    requires |script| >= Budget(depth, supplied)
    requires script[0].outcome.Failed?
    requires Classify(script[0].outcome.code, script[0].outcome.detail) in {Auth, RateLimit, Other}
    ensures var o := script[0].outcome;
            var r := Post(store, supplied, depth, script);
            && |r.attempts| == 1
            && r.depth == depth
            && r.store == store
            && r.result == Thrown(
                 match Classify(o.code, o.detail)
                 case Auth => AuthFailed
                 case RateLimit => RateLimited
                 case _ => Rethrown(o.code, o.detail))
  {
  }

  /**
   A length error on a text over the limit retries once with that text cut to 280
   units at the same depth; a length error on the shortened text is rethrown.
   */
  lemma LengthRetriesOnce(store: Store, text: string, depth: nat, script: seq<Attempt>)
    requires depth <= MaxDepth
    requires |script| >= Budget(depth, Some(text))
    requires |text| > PlatformLimit
    requires script[0].outcome.Failed? && Classify(script[0].outcome.code, script[0].outcome.detail) == TooLong
    requires script[1].outcome.Failed? && Classify(script[1].outcome.code, script[1].outcome.detail) == TooLong
    ensures var r := Post(store, Some(text), depth, script);
            && r.attempts == [Some(text), Some(Shorten(text))]
            && r.result == Thrown(Rethrown(script[1].outcome.code, script[1].outcome.detail))
            && r.depth == depth
            && r.store == store
  {
    var rest := script[1..];
    assert rest[0] == script[1];
    var inner := Post(store, Some(Shorten(text)), depth, rest);
    assert inner.attempts == [Some(Shorten(text))];
  }

  /**
   Whatever the text's source (supplied, generated or a library entry), a length
   error on a chosen text over the limit leads to one more attempt, at the same
   depth, with that text cut to 280 units.
   */
  lemma LongChosenTextRetries(store: Store, supplied: Option<string>, depth: nat, script: seq<Attempt>)
    requires depth <= MaxDepth
    requires |script| >= Budget(depth, supplied)
    requires script[0].outcome.Failed? && Classify(script[0].outcome.code, script[0].outcome.detail) == TooLong
    requires var text := Choose(supplied, script[0].generated, script[0].library);
             text.Some? && |text.value| > PlatformLimit
    ensures var text := Choose(supplied, script[0].generated, script[0].library);
            var r := Post(store, supplied, depth, script);
            && |r.attempts| >= 2
            && r.given[1] == Some(Shorten(text.value))
            && r.attempts[1] == Some(Shorten(text.value))
  {
    var text := Choose(supplied, script[0].generated, script[0].library);
    var rest := script[1..];
    var inner := Post(store, Some(Shorten(text.value)), depth, rest);
    assert inner.given[0] == Some(Shorten(text.value));
  }

  /** A length error on a text within the limit is rethrown without a retry. */
  lemma ShortTextLengthErrorRethrown(store: Store, supplied: Option<string>, depth: nat, script: seq<Attempt>)
    requires depth <= MaxDepth
    requires |script| >= Budget(depth, supplied)
    requires script[0].outcome.Failed? && Classify(script[0].outcome.code, script[0].outcome.detail) == TooLong
    requires var text := Choose(supplied, script[0].generated, script[0].library);
             text.None? || |text.value| <= PlatformLimit
    ensures var r := Post(store, supplied, depth, script);
            && |r.attempts| == 1
            && r.result == Thrown(Rethrown(script[0].outcome.code, script[0].outcome.detail))
            && r.depth == depth
  {
  }

  /** An empty supplied text is falsy: the call picks content exactly as if none were given. */
  lemma EmptyTextIsFresh(store: Store, draw: Draw)
    requires DrawFits(store.config, draw.topicPick, draw.templatePick)
    requires PickFits(store.content, store.posted, draw.tweetPick)
    ensures SelectContent(store, Some(""), draw) == SelectContent(store, None, draw)
  {
  }

  /** With generation disabled the call publishes a library entry. */
  lemma DisabledGenerationUsesLibrary(store: Store, draw: Draw)
    requires store.content.Some? && store.posted.Some? && |store.content.value.tweets| > 0
    requires store.config.Some? && !store.config.value.enabled
    requires PickFits(store.content, store.posted, draw.tweetPick)
    ensures var text := SelectContent(store, None, draw);
            text.Some? && text.value in store.content.value.tweets
  {
  }

  /** A call never grows the history past its cap. */
  lemma PostKeepsHistoryCapped(store: Store, supplied: Option<string>, depth: nat, script: seq<Attempt>)
    requires depth <= MaxDepth
    requires |script| >= Budget(depth, supplied)
    requires store.posted.Some? && |store.posted.value| <= HistoryCap
    ensures var r := Post(store, supplied, depth, script);
            r.store.posted.Some? && |r.store.posted.value| <= HistoryCap
  {
    PublishedIsLastAttempt(store, supplied, depth, script);
  }

  /**
   Because only success and the cap reset the shared depth, two duplicates followed
   by a rate-limit error leave it at 2: the next call gets a single duplicate retry
   instead of three.
   */
  lemma DepthLeaksAcrossCalls(store: Store, script: seq<Attempt>, next: seq<Attempt>)
    requires |script| >= Budget(0, None)
    requires IsDuplicate(script[0].outcome) && IsDuplicate(script[1].outcome)
    requires script[2].outcome.Failed? && script[2].outcome.code == Some(429)
    requires |next| >= Budget(2, None)
    requires forall k :: 0 <= k < |next| ==> IsDuplicate(next[k].outcome)
    ensures var first := Post(store, None, 0, script);
            && first.result == Thrown(RateLimited)
            && first.depth == 2
            && |first.attempts| == 3
            && first.store == store
            && var second := Post(first.store, None, first.depth, next);
               && second.result == Skipped
               && |second.attempts| == 2
  {
    var s1 := script[1..];
    var s2 := s1[1..];
    assert s1[0] == script[1] && s2[0] == script[2];
    var third := Post(store, None, 2, s2);
    assert third.result == Thrown(RateLimited) && |third.attempts| == 1 && third.depth == 2;
    var second := Post(store, None, 1, s1);
    assert |second.attempts| == 2;
    DuplicateRunSkips(store, None, 2, next);
  }

  /** A detail shorter than a word cannot include it. */
  lemma ShorterNeverIncluded(s: string, pat: string)
    requires |s| < |pat|
    ensures !Includes(s, pat)
  {
  }

  /**
   The code as written and the intended handler agree on every failure except a
   length error, and on a length error they always differ.
   */
  lemma LengthBranchScoping(code: Option<int>, detail: Option<string>, text: Option<string>, depth: nat)
    requires depth <= MaxDepth
    ensures RecoverAsWritten(code, detail, text, depth) == Recover(code, detail, text, depth) <==>
            Classify(code, detail) != TooLong
  {
  }

  /** A 300-unit text rejected with detail `length`: retried as intended, thrown as written. */
  lemma LengthBranchWitness(depth: nat)
    requires depth <= MaxDepth
    ensures var text := seq(300, _ => 'x');
            && Recover(None, Some("length"), Some(text), depth) == Retry(Some(Shorten(text)), depth)
            && RecoverAsWritten(None, Some("length"), Some(text), depth) == Finish(Thrown(ReferenceError("text")), depth)
  {
    ShorterNeverIncluded("length", "duplicate");
    assert StartsWith("length", "length");
  }
}
