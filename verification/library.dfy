/**
 `getRandomTweet`: pick a library entry that was not among the last fifty posts,
 or any library entry when every one was posted recently. A document that cannot
 be read yields the fixed apology text instead.
 */
module Library {
  import opened Wrappers
  import opened JsText
  import opened Documents

  /** How many of the newest history records count as recent (`slice(-50)`). */
  const RecentWindow: nat := 50

  /** What `getRandomTweet` returns when reading a document throws. */
  const Apology: string := "Something went wrong, but I'm still here! \U{1F916}"

  /** `posted.slice(-50).map(p => p.text)`: the texts of the newest records, oldest first. */
  function RecentTexts(posted: seq<PostRecord>): (r: seq<Option<string>>)
    ensures |r| == Min(|posted|, RecentWindow)
    ensures forall k :: 0 <= k < |r| ==> r[k] == posted[|posted| - |r| + k].text
  {
    var last := LastN(posted, RecentWindow);
    var r := Texts(last);
    assert forall k :: 0 <= k < |r| ==> r[k] == last[k].text;
    r
  }

  /** `records.map(p => p.text)`. */
  function Texts(records: seq<PostRecord>): (r: seq<Option<string>>)
    ensures |r| == |records|
    ensures forall k :: 0 <= k < |r| ==> r[k] == records[k].text
  {
    if |records| == 0 then [] else [records[0].text] + Texts(records[1..])
  }

  /**
   `tweets.filter(tweet => !recentPosts.includes(tweet))`: every entry whose text was
   not posted recently, each as often as the library holds it, in library order.
   */
  function Available(tweets: seq<string>, recent: seq<Option<string>>): (r: seq<string>)
    ensures forall t :: t in r <==> t in tweets && Some(t) !in recent
    ensures forall t :: multiset(r)[t] == if Some(t) in recent then 0 else multiset(tweets)[t]
    decreases |tweets|
  {
    if |tweets| == 0 then []
    else
      var rest := Available(tweets[1..], recent);
      assert tweets == [tweets[0]] + tweets[1..];
      if Some(tweets[0]) in recent then rest else [tweets[0]] + rest
  }

  /** The entries drawn from: the available ones, or the whole library when none is left. */
  function Pool(tweets: seq<string>, recent: seq<Option<string>>): (r: seq<string>)
    ensures |r| > 0 <==> |tweets| > 0
    ensures forall t :: t in r ==> t in tweets
    ensures (exists t :: t in tweets && Some(t) !in recent) ==> forall t :: t in r ==> Some(t) !in recent
    ensures (forall t :: t in tweets ==> Some(t) in recent) ==> r == tweets
  {
    var available := Available(tweets, recent);
    if |available| > 0 then available else tweets
  }

  /** The random index `Math.floor(Math.random() * n)` lies below the pool size. */
  predicate PickFits(content: Option<ContentDoc>, posted: Option<seq<PostRecord>>, pick: nat) {
    content.Some? && posted.Some? ==>
      var pool := Pool(content.value.tweets, RecentTexts(posted.value));
      |pool| == 0 || pick < |pool|
  }

  /**
   `getRandomTweet`. An unreadable document gives the apology; an empty library gives
   `undefined` (None); otherwise the result is a library entry.
   */
  function RandomTweet(content: Option<ContentDoc>, posted: Option<seq<PostRecord>>, pick: nat): (r: Option<string>)
    requires PickFits(content, posted, pick)
    ensures content.None? || posted.None? ==> r == Some(Apology)
    ensures content.Some? && posted.Some? ==>
              && (r.None? <==> |content.value.tweets| == 0)
              && (r.Some? ==> r.value in content.value.tweets)
  {
    if content.None? || posted.None? then Some(Apology)
    else
      var tweets := content.value.tweets;
      var pool := Pool(tweets, RecentTexts(posted.value));
      if |pool| == 0 then None
      else
        assert pool[pick] in tweets;
        Some(pool[pick])
  }

  /** When some entry was not posted recently, the choice is such an entry. */
  lemma RandomTweetAvoidsRecent(c: ContentDoc, posted: seq<PostRecord>, pick: nat, unposted: string)
    requires PickFits(Some(c), Some(posted), pick)
    requires unposted in c.tweets && Some(unposted) !in RecentTexts(posted)
    ensures var r := RandomTweet(Some(c), Some(posted), pick);
            r.Some? && r.value in c.tweets && Some(r.value) !in RecentTexts(posted)
  {
    var available := Available(c.tweets, RecentTexts(posted));
    assert unposted in available;
    assert available[pick] in available;
  }

  /** When every entry was posted recently, the choice is still a library entry. */
  lemma RandomTweetFallsBack(c: ContentDoc, posted: seq<PostRecord>, pick: nat)
    requires PickFits(Some(c), Some(posted), pick)
    requires |c.tweets| > 0
    requires forall t :: t in c.tweets ==> Some(t) in RecentTexts(posted)
    ensures pick < |c.tweets| && RandomTweet(Some(c), Some(posted), pick) == Some(c.tweets[pick])
  {
    var available := Available(c.tweets, RecentTexts(posted));
    // No index of `available` exists: its entry would be a library entry that is not recent.
    assert forall k :: 0 <= k < |available| ==> available[k] !in available;
  }

  /**
   The apology comes only from a failed read, unless the library itself holds that
   exact text.
   */
  lemma ApologyOnlyOnFailure(content: Option<ContentDoc>, posted: Option<seq<PostRecord>>, pick: nat)
    requires PickFits(content, posted, pick)
    requires RandomTweet(content, posted, pick) == Some(Apology)
    ensures content.None? || posted.None? || Apology in content.value.tweets
  {
  }

  /** Every available entry is chosen by some random index. */
  lemma EveryAvailableEntryReachable(c: ContentDoc, posted: seq<PostRecord>, t: string)
    requires t in c.tweets && Some(t) !in RecentTexts(posted)
    ensures exists pick: nat :: PickFits(Some(c), Some(posted), pick) && RandomTweet(Some(c), Some(posted), pick) == Some(t)
  {
    var available := Available(c.tweets, RecentTexts(posted));
    assert t in available;
    var k :| 0 <= k < |available| && available[k] == t;
    assert PickFits(Some(c), Some(posted), k) && RandomTweet(Some(c), Some(posted), k) == Some(t);
  }

  /** Library `[A, B]` after posting `A`: the only choice is `B`. */
  lemma RecentEntrySkipped(pick: nat)
    requires PickFits(Some(ContentDoc(["A", "B"], [])), Some([PostRecord(Some("A"), "1", "t")]), pick)
    ensures RandomTweet(Some(ContentDoc(["A", "B"], [])), Some([PostRecord(Some("A"), "1", "t")]), pick) == Some("B")
  {
    var recent := RecentTexts([PostRecord(Some("A"), "1", "t")]);
    assert recent == [Some("A")];
    assert Some("B") != Some("A");
    assert Available(["A", "B"], recent) == ["B"] by {
      assert ["A", "B"][1..] == ["B"];
      assert ["B"][1..] == [];
    }
  }
}
