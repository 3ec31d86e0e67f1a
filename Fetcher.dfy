/**
 * The fallback fetcher: for each target account, in the fixed account
 * order, try the adapters in priority order and keep the posts of the first
 * one that returns any.
 */
module Fetcher {
  import opened Feeds

  /** The three adapters, in the order they are tried. */
  datatype Adapter = RssBridge | Nitter | Twstalker

  const AdapterOrder: seq<Adapter> := [RssBridge, Nitter, Twstalker]

  /** The accounts scanned, in scan order. */
  const TargetAccounts: seq<string> :=
    ["Pumpfun", "Raydium", "MeteoraAG", "MarioNawfal", "RohOnChain", "xDaily", "JupiterExchange"]

  /** One adapter invocation, as it shows in the trace of a fetch. */
  datatype Call = Call(adapter: Adapter, account: string)

  /**
   * What an adapter returns for an account.  The twstalker adapter slices
   * the iterator returned by `finditer`, which raises a `TypeError` that its
   * own handler catches, so it returns no posts whatever the page holds.
   */
  function AdapterResult(a: Adapter, account: string, feed: Feed): (r: seq<Post>)
    ensures |r| <= MaxEntries
    ensures forall k :: 0 <= k < |r| ==> WellFormed(r[k], account)
  {
    match a
    case RssBridge => FirstFeed(RssBridgeUrls(account), account, feed)
    case Nitter => FirstFeed(NitterUrls(account), account, feed)
    case Twstalker => []
  }

  /**
   * The fallback itself does not look inside the adapters: it sees them as
   * one function from an adapter and an account to that adapter's posts.
   */
  type Run = (Adapter, string) -> seq<Post>

  /** The adapters as this monitor has them, for one state of the feeds. */
  function Adapters(feed: Feed): Run {
    (a: Adapter, account: string) => AdapterResult(a, account, feed)
  }

  /** The posts of the first adapter in `adapters` that returns any, or none. */
  function FirstSuccess(adapters: seq<Adapter>, account: string, run: Run): seq<Post> {
    if adapters == [] then []
    else if run(adapters[0], account) != [] then run(adapters[0], account)
    else FirstSuccess(adapters[1..], account, run)
  }

  /** The adapters actually invoked: all of them up to and including the first that returns posts. */
  function Tried(adapters: seq<Adapter>, account: string, run: Run): seq<Adapter> {
    if adapters == [] then []
    else if run(adapters[0], account) != [] then [adapters[0]]
    else [adapters[0]] + Tried(adapters[1..], account, run)
  }

  function CallsFor(adapters: seq<Adapter>, account: string): seq<Call> {
    if adapters == [] then [] else [Call(adapters[0], account)] + CallsFor(adapters[1..], account)
  }

  /** All posts of a scan: each account's first successful result, concatenated in account order. */
  function Gather(accounts: seq<string>, run: Run): seq<Post> {
    if accounts == [] then []
    else FirstSuccess(AdapterOrder, accounts[0], run) + Gather(accounts[1..], run)
  }

  /** Every adapter invocation of a scan, in the order they happen. */
  function CallTrace(accounts: seq<string>, run: Run): seq<Call> {
    if accounts == [] then []
    else CallsFor(Tried(AdapterOrder, accounts[0], run), accounts[0]) + CallTrace(accounts[1..], run)
  }

  /**
   * The fallback rule: when the first `k` adapters return nothing and
   * adapter `k` returns posts, the account gets exactly adapter `k`'s posts
   * and no adapter after `k` is invoked.
   */
  lemma {:induction false} FallbackPicksFirstNonEmpty(adapters: seq<Adapter>, account: string, run: Run, k: nat)
    requires k < |adapters|
    requires forall i :: 0 <= i < k ==> run(adapters[i], account) == []
    requires run(adapters[k], account) != []
    ensures FirstSuccess(adapters, account, run) == run(adapters[k], account)
    ensures Tried(adapters, account, run) == adapters[..k + 1]
    decreases k
  {
    if k > 0 {
      assert run(adapters[0], account) == [];
      assert forall i :: 0 <= i < k - 1 ==> adapters[1..][i] == adapters[i + 1];
      assert adapters[1..][k - 1] == adapters[k];
      FallbackPicksFirstNonEmpty(adapters[1..], account, run, k - 1);
      assert adapters[..k + 1] == [adapters[0]] + adapters[1..][..k];
    }
  }

  /** An account for which every adapter comes back empty contributes nothing, after all adapters were tried. */
  lemma {:induction false} FallbackAllEmpty(adapters: seq<Adapter>, account: string, run: Run)
    requires forall i :: 0 <= i < |adapters| ==> run(adapters[i], account) == []
    ensures FirstSuccess(adapters, account, run) == []
    ensures Tried(adapters, account, run) == adapters
    decreases |adapters|
  {
    if adapters != [] {
      assert run(adapters[0], account) == [];
      assert forall i :: 0 <= i < |adapters| - 1 ==> adapters[1..][i] == adapters[i + 1];
      FallbackAllEmpty(adapters[1..], account, run);
      assert adapters == [adapters[0]] + adapters[1..];
    }
  }

  /**
   * With the adapters as written, an account's posts come from RSS-Bridge
   * when it yields any and otherwise from Nitter: twstalker never contributes.
   */
  lemma AccountPosts(account: string, feed: Feed)
    ensures FirstSuccess(AdapterOrder, account, Adapters(feed)) ==
      if AdapterResult(RssBridge, account, feed) != [] then AdapterResult(RssBridge, account, feed)
      else AdapterResult(Nitter, account, feed)
  {
    var run := Adapters(feed);
    assert run(RssBridge, account) == AdapterResult(RssBridge, account, feed);
    assert run(Nitter, account) == AdapterResult(Nitter, account, feed);
    assert run(Twstalker, account) == [];
    assert AdapterOrder[1..] == [Nitter, Twstalker];
    assert AdapterOrder[1..][1..] == [Twstalker];
    assert FirstSuccess([Twstalker], account, run) == [];
  }

  /** Every adapter returns at most ten posts, each of the account's shape. */
  ghost predicate AdaptersBounded(run: Run) {
    forall a, account :: |run(a, account)| <= MaxEntries &&
      forall k :: 0 <= k < |run(a, account)| ==> WellFormed(run(a, account)[k], account)
  }

  lemma AdaptersAreBounded(feed: Feed)
    ensures AdaptersBounded(Adapters(feed))
  {
    forall a, account ensures |Adapters(feed)(a, account)| <= MaxEntries &&
      forall k :: 0 <= k < |Adapters(feed)(a, account)| ==> WellFormed(Adapters(feed)(a, account)[k], account)
    {
      assert Adapters(feed)(a, account) == AdapterResult(a, account, feed);
    }
  }

  /** One account contributes at most one adapter's worth of posts, all of that account's shape. */
  lemma {:induction false} FirstSuccessShape(adapters: seq<Adapter>, account: string, run: Run)
    requires AdaptersBounded(run)
    ensures |FirstSuccess(adapters, account, run)| <= MaxEntries
    ensures forall k :: 0 <= k < |FirstSuccess(adapters, account, run)| ==> WellFormed(FirstSuccess(adapters, account, run)[k], account)
    decreases |adapters|
  {
    if adapters != [] && run(adapters[0], account) == [] {
      FirstSuccessShape(adapters[1..], account, run);
    }
  }

  /** The concatenation follows account order: gathering two account lists one after the other gives the two results one after the other. */
  lemma {:induction false} GatherAppend(a: seq<string>, b: seq<string>, run: Run)
    ensures Gather(a + b, run) == Gather(a, run) + Gather(b, run)
    ensures CallTrace(a + b, run) == CallTrace(a, run) + CallTrace(b, run)
    decreases |a|
  {
    if a != [] {
      assert (a + b)[0] == a[0];
      assert (a + b)[1..] == a[1..] + b;
      GatherAppend(a[1..], b, run);
    } else {
      assert a + b == b;
    }
  }

  /** A scan yields at most ten posts per account, each carrying the handle of one of the accounts. */
  lemma {:induction false} GatherShape(accounts: seq<string>, run: Run)
    requires AdaptersBounded(run)
    ensures |Gather(accounts, run)| <= MaxEntries * |accounts|
    ensures forall p :: p in Gather(accounts, run) ==> exists a :: a in accounts && WellFormed(p, a)
    decreases |accounts|
  {
    if accounts != [] {
      var here := FirstSuccess(AdapterOrder, accounts[0], run);
      FirstSuccessShape(AdapterOrder, accounts[0], run);
      GatherShape(accounts[1..], run);
      forall p | p in Gather(accounts, run) ensures exists a :: a in accounts && WellFormed(p, a) {
        if p in here {
          var k :| 0 <= k < |here| && here[k] == p;
          assert WellFormed(here[k], accounts[0]);
        } else {
          assert p in Gather(accounts[1..], run);
          var a :| a in accounts[1..] && WellFormed(p, a);
          assert a in accounts;
        }
      }
    }
  }

  /** One adapter of the list. */
  method RunAdapter(a: Adapter, account: string, feed: Feed) returns (tweets: seq<Post>)
    ensures tweets == AdapterResult(a, account, feed)
  {
    match a
    case RssBridge => tweets := FetchViaRssBridge(account, feed);
    case Nitter => tweets := FetchViaNitter(account, feed);
    case Twstalker => tweets := [];
  }

  /** The inner loop for one account: adapters in priority order, stopping at the first non-empty result. */
  method FetchAccount(account: string, feed: Feed) returns (tweets: seq<Post>, tried: seq<Adapter>)
    ensures tweets == FirstSuccess(AdapterOrder, account, Adapters(feed))
    ensures tried == Tried(AdapterOrder, account, Adapters(feed))
  {
    var run := Adapters(feed);
    tweets, tried := [], [];
    var j := 0;
    while j < |AdapterOrder|
      invariant 0 <= j <= |AdapterOrder|
      invariant tweets == [] && tried == AdapterOrder[..j]
      invariant forall k :: 0 <= k < j ==> run(AdapterOrder[k], account) == []
    {
      tweets := RunAdapter(AdapterOrder[j], account, feed);
      tried := tried + [AdapterOrder[j]];
      if tweets != [] {
        FallbackPicksFirstNonEmpty(AdapterOrder, account, run, j);
        return;
      }
      j := j + 1;
    }
    FallbackAllEmpty(AdapterOrder, account, run);
  }

  /**
   * The fetch loop of a scan over a list of accounts: accounts in order,
   * each through the adapter fallback.  `calls` records each adapter
   * invocation in the order it happens.
   */
  method FetchAccounts(accounts: seq<string>, feed: Feed) returns (allTweets: seq<Post>, calls: seq<Call>)
    ensures allTweets == Gather(accounts, Adapters(feed))
    ensures calls == CallTrace(accounts, Adapters(feed))
  {
    var run := Adapters(feed);
    allTweets, calls := [], [];
    var i := 0;
    while i < |accounts|
      invariant 0 <= i <= |accounts|
      invariant allTweets == Gather(accounts[..i], run)
      invariant calls == CallTrace(accounts[..i], run)
    {
      var tweets, tried := FetchAccount(accounts[i], feed);
      assert accounts[..i + 1] == accounts[..i] + [accounts[i]];
      GatherAppend(accounts[..i], [accounts[i]], run);
      assert [accounts[i]][1..] == [];
      allTweets := allTweets + tweets;
      calls := calls + CallsFor(tried, accounts[i]);
      i := i + 1;
    }
    assert accounts[..i] == accounts;
  }

  /** The fetch of a scan: the target accounts, in their fixed order. */
  method FetchAllTweets(feed: Feed) returns (allTweets: seq<Post>, calls: seq<Call>)
    ensures allTweets == Gather(TargetAccounts, Adapters(feed))
    ensures calls == CallTrace(TargetAccounts, Adapters(feed))
  {
    allTweets, calls := FetchAccounts(TargetAccounts, feed);
  }
}
