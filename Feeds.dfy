/**
 * The two feed adapters that can return posts: an RSS-Bridge Atom feed and
 * the RSS feeds of two Nitter instances.  The network and the XML parser are
 * outside the model: `feed(url)` gives the entries an instance served, or
 * `None` when the request failed, the status was not 200, the body lacked the
 * `<entry>`/`<item>` marker or did not parse.  What remains is the
 * normalisation of those entries into posts.
 */
module Feeds {
  import opened Wrappers
  import opened Text

  /** A post as an adapter produces it. */
  datatype Post = Post(author: string, text: string, url: string, timestamp: string)

  /**
   * One parsed feed entry (an Atom `entry` or an RSS `item`).  `content`
   * is the text of the `content`/`description` child and `title` that of the
   * `title` child, `None` when the child is missing or has no text; `link`
   * and `published` are the URL and date strings, already defaulted to "".
   */
  datatype Entry = Entry(content: Option<string>, title: Option<string>, link: string, published: string)

  /** What an instance served: its parsed entries, or `None` on any failure. */
  type Feed = string -> Option<seq<Entry>>

  const MaxEntries: nat := 10
  /** A text is kept only when it is strictly longer than this. */
  const MinTextLength: nat := 20
  const MaxTextLength: nat := 1000

  /** The shape every adapter post has: the account's handle and a text of 21 to 1000 characters. */
  predicate WellFormed(p: Post, account: string) {
    p.author == "@" + account && MinTextLength < |p.text| <= MaxTextLength
  }

  /** A Python string is truthy when it is present and non-empty. */
  predicate Truthy(s: Option<string>) {
    s.Some? && s.value != ""
  }

  /**
   * The text of an entry: its content with markup removed and whitespace
   * stripped when the content has any text at all, otherwise the title as it
   * is, otherwise nothing.
   */
  function EntryText(e: Entry): string {
    if Truthy(e.content) then Strip(StripTags(e.content.value), PyWhitespace)
    else if Truthy(e.title) then e.title.value
    else ""
  }

  /** The post made from one entry, if its text is long enough. */
  function NormaliseEntry(e: Entry, account: string): Option<Post> {
    var text := EntryText(e);
    if |text| > MinTextLength then Some(Post("@" + account, Take(text, MaxTextLength), e.link, e.published))
    else None
  }

  /** The posts made from `entries`, in entry order; entries with too little text are skipped. */
  function Normalise(entries: seq<Entry>, account: string): (r: seq<Post>)
    ensures |r| <= |entries|
    ensures forall k :: 0 <= k < |r| ==> WellFormed(r[k], account)
  {
    if entries == [] then []
    else
      var rest := Normalise(entries[1..], account);
      match NormaliseEntry(entries[0], account)
      case Some(p) => [p] + rest
      case None => rest
  }

  /** The entries an adapter looks at: the first ten. */
  function Examined(entries: seq<Entry>): (r: seq<Entry>)
    ensures |r| == Min(MaxEntries, |entries|)
    ensures r == entries[..|r|]
  {
    entries[..Min(MaxEntries, |entries|)]
  }

  /** The posts an adapter makes from one served feed. */
  function FeedPosts(entries: seq<Entry>, account: string): (r: seq<Post>)
    ensures |r| <= MaxEntries
    ensures forall k :: 0 <= k < |r| ==> WellFormed(r[k], account)
  {
    Normalise(Examined(entries), account)
  }

  /** Every post that comes out of `Normalise` was made from one of the entries. */
  lemma {:induction false} NormaliseSound(entries: seq<Entry>, account: string, p: Post)
    requires p in Normalise(entries, account)
    ensures exists i :: 0 <= i < |entries| && NormaliseEntry(entries[i], account) == Some(p)
    decreases |entries|
  {
    if NormaliseEntry(entries[0], account) != Some(p) {
      NormaliseSound(entries[1..], account, p);
      var i :| 0 <= i < |entries[1..]| && NormaliseEntry(entries[1..][i], account) == Some(p);
      assert entries[i + 1] == entries[1..][i];
    }
  }

  /** Every entry with enough text yields its post in the output of `Normalise`. */
  lemma {:induction false} NormaliseComplete(entries: seq<Entry>, account: string, i: nat)
    requires i < |entries| && NormaliseEntry(entries[i], account).Some?
    ensures NormaliseEntry(entries[i], account).value in Normalise(entries, account)
    decreases |entries|
  {
    if i > 0 {
      assert entries[1..][i - 1] == entries[i];
      NormaliseComplete(entries[1..], account, i - 1);
    }
  }

  /**
   * Content wins over the title whenever the content has any text: the title
   * is then never looked at, even when the stripped content turns out too
   * short and the entry is dropped.
   */
  lemma ContentShadowsTitle(e: Entry, account: string, otherTitle: Option<string>)
    requires Truthy(e.content)
    ensures NormaliseEntry(e, account) == NormaliseEntry(e.(title := otherTitle), account)
    ensures |Strip(StripTags(e.content.value), PyWhitespace)| <= MinTextLength ==> NormaliseEntry(e, account) == None
  {
  }

  /** The title is used only when the content is missing or has no text. */
  lemma TitleFallback(e: Entry, account: string)
    requires !Truthy(e.content)
    ensures NormaliseEntry(e, account) ==
      if Truthy(e.title) && |e.title.value| > MinTextLength
      then Some(Post("@" + account, Take(e.title.value, MaxTextLength), e.link, e.published))
      else None
  {
  }

  /** A post taken from an entry's content carries no markup: the tag pattern no longer matches anywhere in it. */
  lemma ContentTextHasNoTags(e: Entry, account: string)
    requires Truthy(e.content) && NormaliseEntry(e, account).Some?
    ensures NoTags(NormaliseEntry(e, account).value.text)
  {
    var stripped := StripTags(e.content.value);
    StripTagsLeavesNoTags(e.content.value);
    var text := Strip(stripped, PyWhitespace);
    StripKeepsNoTags(stripped, PyWhitespace);
    TakeKeepsNoTags(text, MaxTextLength);
    assert NormaliseEntry(e, account).value.text == Take(text, MaxTextLength);
  }

  // ---------------------------------------------------------------------------
  // Instances and the per-adapter fetch loop

  const RssBridgeDisplay: string := "https://rss-bridge.org/bridge01/?action=display&bridge=TwitterBridge&context=By+username&u="
  const AtomFormat: string := "&format=Atom"

  /** The single RSS-Bridge URL tried for an account. */
  function RssBridgeUrls(account: string): seq<string> {
    [RssBridgeDisplay + account + AtomFormat]
  }

  const NitterPoast: string := "https://nitter.poast.org"
  const NitterPrivacyDev: string := "https://nitter.privacydev.net"

  /** The Nitter RSS URLs tried for an account, in instance order. */
  function NitterUrls(account: string): seq<string> {
    [NitterPoast + "/" + account + "/rss", NitterPrivacyDev + "/" + account + "/rss"]
  }

  /** The posts from the first URL whose feed yields any, or none. */
  function FirstFeed(urls: seq<string>, account: string, feed: Feed): (r: seq<Post>)
    ensures |r| <= MaxEntries
    ensures forall k :: 0 <= k < |r| ==> WellFormed(r[k], account)
  {
    if urls == [] then []
    else
      var here := match feed(urls[0]) case Some(es) => FeedPosts(es, account) case None => [];
      if here != [] then here else FirstFeed(urls[1..], account, feed)
  }

  /** `FirstFeed` picks the feed of the first URL that yields posts, and all earlier URLs yielded none. */
  lemma {:induction false} FirstFeedIsFirst(urls: seq<string>, account: string, feed: Feed)
    ensures FirstFeed(urls, account, feed) == [] <==>
      forall k :: 0 <= k < |urls| ==> feed(urls[k]).None? || FeedPosts(feed(urls[k]).value, account) == []
    ensures FirstFeed(urls, account, feed) != [] ==>
      exists k :: 0 <= k < |urls| && feed(urls[k]).Some? && FirstFeed(urls, account, feed) == FeedPosts(feed(urls[k]).value, account) &&
        (forall j :: 0 <= j < k ==> feed(urls[j]).None? || FeedPosts(feed(urls[j]).value, account) == [])
    decreases |urls|
  {
    if urls != [] {
      FirstFeedIsFirst(urls[1..], account, feed);
      assert forall k :: 1 <= k < |urls| ==> urls[k] == urls[1..][k - 1];
      if FirstFeed(urls[1..], account, feed) != [] && (feed(urls[0]).None? || FeedPosts(feed(urls[0]).value, account) == []) {
        var k :| 0 <= k < |urls[1..]| && feed(urls[1..][k]).Some? && FirstFeed(urls[1..], account, feed) == FeedPosts(feed(urls[1..][k]).value, account) &&
          (forall j :: 0 <= j < k ==> feed(urls[1..][j]).None? || FeedPosts(feed(urls[1..][j]).value, account) == []);
        assert urls[k + 1] == urls[1..][k];
        forall j | 0 <= j < k + 1
          ensures feed(urls[j]).None? || FeedPosts(feed(urls[j]).value, account) == []
        {
          if j > 0 {
            assert urls[j] == urls[1..][j - 1];
          }
        }
      }
    }
  }

  /** The normalisation loop of one adapter: look at the first ten entries and keep the long enough ones. */
  method NormaliseFeed(entries: seq<Entry>, account: string) returns (tweets: seq<Post>)
    ensures tweets == FeedPosts(entries, account)
  {
    var examined := Examined(entries);
    tweets := [];
    var i := 0;
    while i < |examined|
      invariant 0 <= i <= |examined|
      invariant tweets + Normalise(examined[i..], account) == Normalise(examined, account)
    {
      assert examined[i..][1..] == examined[i + 1..];
      var post := NormaliseEntry(examined[i], account);
      ghost var rest := Normalise(examined[i + 1..], account);
      assert Normalise(examined[i..], account) == if post.Some? then [post.value] + rest else rest;
      if post.Some? {
        assert tweets + ([post.value] + rest) == (tweets + [post.value]) + rest;
        tweets := tweets + [post.value];
      }
      i := i + 1;
    }
  }

  /** Try each instance URL in turn and return the first non-empty batch of posts. */
  method FetchFromInstances(urls: seq<string>, account: string, feed: Feed) returns (tweets: seq<Post>)
    ensures tweets == FirstFeed(urls, account, feed)
  {
    var i := 0;
    while i < |urls|
      invariant 0 <= i <= |urls|
      invariant FirstFeed(urls, account, feed) == FirstFeed(urls[i..], account, feed)
    {
      assert urls[i..][1..] == urls[i + 1..];
      var response := feed(urls[i]);
      if response.Some? {
        tweets := NormaliseFeed(response.value, account);
        if tweets != [] {
          return;
        }
      }
      i := i + 1;
    }
    tweets := [];
  }

  /** The RSS-Bridge adapter. */
  method FetchViaRssBridge(account: string, feed: Feed) returns (tweets: seq<Post>)
    ensures tweets == FirstFeed(RssBridgeUrls(account), account, feed)
    ensures |tweets| <= MaxEntries && forall k :: 0 <= k < |tweets| ==> WellFormed(tweets[k], account)
  {
    tweets := FetchFromInstances(RssBridgeUrls(account), account, feed);
  }

  /** The Nitter adapter: the poast.org instance first, then privacydev.net. */
  method FetchViaNitter(account: string, feed: Feed) returns (tweets: seq<Post>)
    ensures tweets == FirstFeed(NitterUrls(account), account, feed)
    ensures |tweets| <= MaxEntries && forall k :: 0 <= k < |tweets| ==> WellFormed(tweets[k], account)
  {
    tweets := FetchFromInstances(NitterUrls(account), account, feed);
  }
}
