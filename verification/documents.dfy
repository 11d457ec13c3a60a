/**
 The bot's three persisted JSON documents held as values: the content library
 (`content.json`), the post history (`posted_tweets.json`) and the generation
 settings (`ai-config.json`), with the bookkeeping operations on them.
 A document that cannot be read is `None`: every operation here catches that
 failure, logs it and leaves the document as it was.
 */
module Documents {
  import opened Wrappers
  import opened JsText

  /** The history keeps at most this many records (`slice(-100)`). */
  const HistoryCap: nat := 100

  /** One successful post. `text` is None when `undefined` was posted (empty library). */
  datatype PostRecord = PostRecord(text: Option<string>, id: string, timestamp: string)

  /** A scheduled posting time; only reported by the statistics. */
  datatype Schedule = Schedule(time: string, timezone: string)

  datatype ContentDoc = ContentDoc(tweets: seq<string>, schedules: seq<Schedule>)

  /** The generation settings. `topics` is None when the key is absent. */
  datatype Config = Config(
    enabled: bool,
    service: string,
    prompt: string,
    maxLength: int,
    temperature: real,
    includeHashtags: bool,
    hashtagCount: int,
    topics: Option<seq<string>>,
    style: string)

  /** The keys a `configureAI` call supplies; absent keys are None. */
  datatype ConfigPatch = ConfigPatch(
    enabled: Option<bool>,
    service: Option<string>,
    prompt: Option<string>,
    maxLength: Option<int>,
    temperature: Option<real>,
    includeHashtags: Option<bool>,
    hashtagCount: Option<int>,
    topics: Option<Option<seq<string>>>,
    style: Option<string>)

  const NoChanges := ConfigPatch(None, None, None, None, None, None, None, None, None)

  /** The three documents as they are on disk; None means reading it throws. */
  datatype Store = Store(
    content: Option<ContentDoc>,
    posted: Option<seq<PostRecord>>,
    config: Option<Config>)

  function Min(a: int, b: int): int {
    if a < b then a else b
  }

  /**
   `trackPostedTweet`: append the record, then keep the newest `HistoryCap` records.
   The history stays within the cap, keeps its order and ends with the new record.
   */
  function TrackPostedTweet(posted: Option<seq<PostRecord>>, rec: PostRecord): (r: Option<seq<PostRecord>>)
    ensures posted.None? <==> r.None?
    ensures posted.Some? ==>
              && |r.value| == Min(|posted.value| + 1, HistoryCap)
              && r.value[|r.value| - 1] == rec
              && r.value == (posted.value + [rec])[|posted.value| + 1 - |r.value|..]
  {
    if posted.None? then None
    else
      var appended := posted.value + [rec];
      if |appended| > HistoryCap then Some(LastN(appended, HistoryCap)) else Some(appended)
  }

  /** Below the cap nothing is dropped; at the cap exactly the oldest record is evicted. */
  lemma TrackEvictsOldest(history: seq<PostRecord>, rec: PostRecord)
    ensures |history| < HistoryCap ==> TrackPostedTweet(Some(history), rec) == Some(history + [rec])
    ensures |history| == HistoryCap ==> TrackPostedTweet(Some(history), rec) == Some(history[1..] + [rec])
  {
    if |history| == HistoryCap {
      var r := TrackPostedTweet(Some(history), rec).value;
      assert r == (history + [rec])[1..];
      assert (history + [rec])[1..] == history[1..] + [rec];
    }
  }

  /** `addTweet`: a plain append, duplicates included; the schedules are untouched. */
  function AddTweet(content: Option<ContentDoc>, text: string): (r: Option<ContentDoc>)
    ensures content.None? <==> r.None?
    ensures content.Some? ==>
              && |r.value.tweets| == |content.value.tweets| + 1
              && r.value.tweets[..|content.value.tweets|] == content.value.tweets
              && r.value.tweets[|content.value.tweets|] == text
              && r.value.schedules == content.value.schedules
              && multiset(r.value.tweets)[text] == multiset(content.value.tweets)[text] + 1
  {
    if content.None? then None
    else Some(content.value.(tweets := content.value.tweets + [text]))
  }

  /** The shallow merge `{ ...config, ...patch }`: a supplied key wins, the rest is kept. */
  function Merge(c: Config, p: ConfigPatch): (r: Config)
    ensures p.enabled.Some? ==> r.enabled == p.enabled.value
    ensures p.enabled.None? ==> r.enabled == c.enabled
    ensures p.service.Some? ==> r.service == p.service.value
    ensures p.service.None? ==> r.service == c.service
    ensures p.prompt.Some? ==> r.prompt == p.prompt.value
    ensures p.prompt.None? ==> r.prompt == c.prompt
    ensures p.maxLength.Some? ==> r.maxLength == p.maxLength.value
    ensures p.maxLength.None? ==> r.maxLength == c.maxLength
    ensures p.temperature.Some? ==> r.temperature == p.temperature.value
    ensures p.temperature.None? ==> r.temperature == c.temperature
    ensures p.includeHashtags.Some? ==> r.includeHashtags == p.includeHashtags.value
    ensures p.includeHashtags.None? ==> r.includeHashtags == c.includeHashtags
    ensures p.hashtagCount.Some? ==> r.hashtagCount == p.hashtagCount.value
    ensures p.hashtagCount.None? ==> r.hashtagCount == c.hashtagCount
    ensures p.topics.Some? ==> r.topics == p.topics.value
    ensures p.topics.None? ==> r.topics == c.topics
    ensures p.style.Some? ==> r.style == p.style.value
    ensures p.style.None? ==> r.style == c.style
  {
    Config(
      p.enabled.GetOr(c.enabled),
      p.service.GetOr(c.service),
      p.prompt.GetOr(c.prompt),
      p.maxLength.GetOr(c.maxLength),
      p.temperature.GetOr(c.temperature),
      p.includeHashtags.GetOr(c.includeHashtags),
      p.hashtagCount.GetOr(c.hashtagCount),
      p.topics.GetOr(c.topics),
      p.style.GetOr(c.style))
  }

  /** `configureAI`: merge the supplied settings into a readable configuration. */
  function ConfigureAI(config: Option<Config>, settings: ConfigPatch): (r: Option<Config>)
    ensures config.None? <==> r.None?
    ensures config.Some? && settings.enabled.Some? ==> r.value.enabled == settings.enabled.value
    ensures config.Some? && settings.enabled.None? ==> r.value.enabled == config.value.enabled
    ensures config.Some? && settings.service.Some? ==> r.value.service == settings.service.value
    ensures config.Some? && settings.service.None? ==> r.value.service == config.value.service
    ensures config.Some? && settings.prompt.Some? ==> r.value.prompt == settings.prompt.value
    ensures config.Some? && settings.prompt.None? ==> r.value.prompt == config.value.prompt
    ensures config.Some? && settings.maxLength.Some? ==> r.value.maxLength == settings.maxLength.value
    ensures config.Some? && settings.maxLength.None? ==> r.value.maxLength == config.value.maxLength
    ensures config.Some? && settings.temperature.Some? ==> r.value.temperature == settings.temperature.value
    ensures config.Some? && settings.temperature.None? ==> r.value.temperature == config.value.temperature
    ensures config.Some? && settings.includeHashtags.Some? ==> r.value.includeHashtags == settings.includeHashtags.value
    ensures config.Some? && settings.includeHashtags.None? ==> r.value.includeHashtags == config.value.includeHashtags
    ensures config.Some? && settings.hashtagCount.Some? ==> r.value.hashtagCount == settings.hashtagCount.value
    ensures config.Some? && settings.hashtagCount.None? ==> r.value.hashtagCount == config.value.hashtagCount
    ensures config.Some? && settings.topics.Some? ==> r.value.topics == settings.topics.value
    ensures config.Some? && settings.topics.None? ==> r.value.topics == config.value.topics
    ensures config.Some? && settings.style.Some? ==> r.value.style == settings.style.value
    ensures config.Some? && settings.style.None? ==> r.value.style == config.value.style
  {
    if config.None? then None else Some(Merge(config.value, settings))
  }

  /** Later settings override earlier ones key by key. */
  function Combine(first: ConfigPatch, second: ConfigPatch): ConfigPatch {
    ConfigPatch(
      if second.enabled.Some? then second.enabled else first.enabled,
      if second.service.Some? then second.service else first.service,
      if second.prompt.Some? then second.prompt else first.prompt,
      if second.maxLength.Some? then second.maxLength else first.maxLength,
      if second.temperature.Some? then second.temperature else first.temperature,
      if second.includeHashtags.Some? then second.includeHashtags else first.includeHashtags,
      if second.hashtagCount.Some? then second.hashtagCount else first.hashtagCount,
      if second.topics.Some? then second.topics else first.topics,
      if second.style.Some? then second.style else first.style)
  }

  /**
   Merging is a monoid action: no settings change nothing, applying the same settings
   twice equals applying them once, and two updates equal one combined update.
   */
  lemma ConfigureAIComposes(config: Option<Config>, p: ConfigPatch, q: ConfigPatch)
    ensures ConfigureAI(config, NoChanges) == config
    ensures ConfigureAI(ConfigureAI(config, p), p) == ConfigureAI(config, p)
    ensures ConfigureAI(ConfigureAI(config, p), q) == ConfigureAI(config, Combine(p, q))
  {
  }

  /** What `getStats` reports. */
  datatype Stats = Stats(
    totalTweets: nat,
    postedTweets: nat,
    lastPosted: Option<PostRecord>,
    scheduledTimes: seq<Schedule>,
    aiEnabled: bool)

  /**
   `getStats`: None when the library or the history cannot be read; an unreadable
   configuration reports generation as disabled.
   */
  function GetStats(s: Store): (r: Option<Stats>)
    ensures r.Some? <==> s.content.Some? && s.posted.Some?
    ensures r.Some? ==>
              && r.value.totalTweets == |s.content.value.tweets|
              && r.value.postedTweets == |s.posted.value|
              && (r.value.lastPosted.Some? <==> |s.posted.value| > 0)
              && (r.value.lastPosted.Some? ==> r.value.lastPosted.value == s.posted.value[|s.posted.value| - 1])
              && r.value.scheduledTimes == s.content.value.schedules
              && (r.value.aiEnabled <==> s.config.Some? && s.config.value.enabled)
  {
    if s.content.None? || s.posted.None? then None
    else
      var h := s.posted.value;
      Some(Stats(
        |s.content.value.tweets|,
        |h|,
        if |h| > 0 then Some(h[|h| - 1]) else None,
        s.content.value.schedules,
        s.config.Some? && s.config.value.enabled))
  }

  /** After a post is recorded the statistics report it as the last post, and the count stays capped. */
  lemma StatsAfterTrack(s: Store, rec: PostRecord)
    requires s.content.Some? && s.posted.Some?
    ensures var r := GetStats(s.(posted := TrackPostedTweet(s.posted, rec))).value;
            && r.lastPosted == Some(rec)
            && r.postedTweets == Min(|s.posted.value| + 1, HistoryCap)
            && r.totalTweets == |s.content.value.tweets|
  {
  }

  /** After `addTweet` the library count grows by one and the history is untouched. */
  lemma StatsAfterAdd(s: Store, text: string)
    requires s.content.Some? && s.posted.Some?
    ensures var before := GetStats(s).value;
            var after := GetStats(s.(content := AddTweet(s.content, text))).value;
            && after.totalTweets == before.totalTweets + 1
            && after.postedTweets == before.postedTweets
            && after.lastPosted == before.lastPosted
  {
  }

  /** `ai-enable` and `ai-disable` decide what the statistics report. */
  lemma StatsAfterToggle(s: Store, on: bool)
    requires s.content.Some? && s.posted.Some? && s.config.Some?
    ensures GetStats(s.(config := ConfigureAI(s.config, NoChanges.(enabled := Some(on))))).value.aiEnabled == on
  {
  }
}
