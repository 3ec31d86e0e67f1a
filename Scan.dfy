/**
 * One scan cycle: load the state, fetch every account, run the dedup pass,
 * cut the fingerprint list, then either stop quietly, or analyse the new
 * posts (or, when forced, the whole batch) and post the analysis if it
 * passes the guard, and save.
 */
module Scan {
  import opened Wrappers
  import opened Text
  import opened Feeds
  import opened Fetcher
  import opened DedupStore
  import opened Summarizer

  /**
   * Everything a scan reads from outside: what the feed instances serve,
   * the digest, the credentials and the completion endpoint.
   */
  datatype Environment = Environment(feed: Feed, md5: Digest, creds: Credentials, complete: Completion)

  /**
   * What a scan did: the document it saved (`None` when it saved nothing),
   * the posts it sent for analysis (`None` when there was no analysis), and
   * the analysis it posted to Telegram (`None` when it posted nothing).
   */
  datatype Outcome = Outcome(saved: Option<StateDoc>, analysed: Option<seq<Post>>, notice: Option<string>)

  /** The decisions of a scan, given the loaded state and the fetched batch; `now` is the scan's timestamp. */
  function ScanStep(loaded: StateDoc, forcePost: bool, now: string, fetched: seq<Post>, env: Environment): Outcome {
    if fetched == [] then Outcome(None, None, None)
    else
      var d := Dedup(loaded.seenHashes, fetched, env.md5);
      var saved := StateDoc(Trim(d.seen), Some(now));
      if d.kept == [] && !forcePost then Outcome(Some(saved), None, None)
      else
        var batch := if d.kept != [] then d.kept else fetched;
        var analysis := Analysis(batch, env.creds, env.complete);
        Outcome(Some(saved), Some(batch), if ShouldNotify(analysis) then Some(analysis) else None)
  }

  /** The posts a scan fetches: every target account through the adapter fallback. */
  function Fetched(env: Environment): seq<Post> {
    Gather(TargetAccounts, Adapters(env.feed))
  }

  /** A scan that fetched nothing stops at once: no dedup, no analysis, no save. */
  lemma EmptyFetchSavesNothing(loaded: StateDoc, forcePost: bool, now: string, env: Environment)
    ensures ScanStep(loaded, forcePost, now, [], env) == Outcome(None, None, None)
  {
  }

  /**
   * Without new posts and without force the scan only records the time: the
   * fingerprint list is saved as it was (cut to 500) and nothing is analysed.
   */
  lemma QuietScanOnlyStamps(loaded: StateDoc, now: string, fetched: seq<Post>, env: Environment)
    requires fetched != [] && FreshPosts(loaded.seenHashes, fetched, env.md5) == []
    ensures ScanStep(loaded, false, now, fetched, env) == Outcome(Some(StateDoc(Trim(loaded.seenHashes), Some(now))), None, None)
  {
    DedupIsFresh(loaded.seenHashes, fetched, env.md5);
    DedupAppendsKept(loaded.seenHashes, fetched, env.md5);
    assert Fingerprints([], env.md5) == [];
    assert loaded.seenHashes + [] == loaded.seenHashes;
  }

  /** What is analysed: the new posts when there are any, and the whole batch on a forced scan without new posts. */
  lemma AnalysedBatch(loaded: StateDoc, forcePost: bool, now: string, fetched: seq<Post>, env: Environment)
    requires fetched != []
    ensures FreshPosts(loaded.seenHashes, fetched, env.md5) != [] ==>
      ScanStep(loaded, forcePost, now, fetched, env).analysed == Some(FreshPosts(loaded.seenHashes, fetched, env.md5))
    ensures FreshPosts(loaded.seenHashes, fetched, env.md5) == [] && forcePost ==>
      ScanStep(loaded, forcePost, now, fetched, env).analysed == Some(fetched)
  {
    DedupIsFresh(loaded.seenHashes, fetched, env.md5);
  }

  /**
   * A notice goes out exactly when there was an analysis that passes the
   * guard, and it is that analysis.
   */
  lemma NoticeIsGuardedAnalysis(loaded: StateDoc, forcePost: bool, now: string, fetched: seq<Post>, env: Environment)
    ensures ScanStep(loaded, forcePost, now, fetched, env).notice.Some? <==>
      (ScanStep(loaded, forcePost, now, fetched, env).analysed.Some? &&
       ShouldNotify(Analysis(ScanStep(loaded, forcePost, now, fetched, env).analysed.value, env.creds, env.complete)))
    ensures ScanStep(loaded, forcePost, now, fetched, env).notice.Some? ==>
      ScanStep(loaded, forcePost, now, fetched, env).notice.value ==
        Analysis(ScanStep(loaded, forcePost, now, fetched, env).analysed.value, env.creds, env.complete)
  {
  }

  /**
   * Every scan that fetched something saves, with the time of the scan and
   * at most 500 fingerprints: the newest ones of the old list followed by
   * those of the new posts.
   */
  lemma SavedStateIsBounded(loaded: StateDoc, forcePost: bool, now: string, fetched: seq<Post>, env: Environment)
    requires fetched != []
    ensures ScanStep(loaded, forcePost, now, fetched, env).saved.Some?
    ensures ScanStep(loaded, forcePost, now, fetched, env).saved.value ==
      StateDoc(Trim(loaded.seenHashes + Fingerprints(FreshPosts(loaded.seenHashes, fetched, env.md5), env.md5)), Some(now))
    ensures |ScanStep(loaded, forcePost, now, fetched, env).saved.value.seenHashes| <= MaxSeen
  {
    DedupIsFresh(loaded.seenHashes, fetched, env.md5);
    DedupAppendsKept(loaded.seenHashes, fetched, env.md5);
  }

  /**
   * Scanning the same batch again from the state a scan saved finds nothing
   * new and so neither analyses nor posts, as long as the list did not need
   * cutting.
   */
  lemma RepeatedScanIsQuiet(loaded: StateDoc, forcePost: bool, now: string, later: string, fetched: seq<Post>, env: Environment)
    requires fetched != []
    requires |Dedup(loaded.seenHashes, fetched, env.md5).seen| <= MaxSeen
    ensures ScanStep(ScanStep(loaded, forcePost, now, fetched, env).saved.value, false, later, fetched, env) ==
      Outcome(Some(StateDoc(Dedup(loaded.seenHashes, fetched, env.md5).seen, Some(later))), None, None)
  {
    var d := Dedup(loaded.seenHashes, fetched, env.md5);
    TrimShortIsIdentity(d.seen);
    DedupIdempotent(loaded.seenHashes, fetched, env.md5);
  }

  /**
   * The state file and the Telegram group as one scan sees them: `stored`
   * is the saved document (`None` when there is no file, or it does not
   * parse), `notices` every message sent to the group so far.
   */
  class Monitor {
    var stored: Option<StateDoc>
    var notices: seq<string>

    constructor (file: Option<StateDoc>)
      ensures stored == file && notices == []
    {
      stored := file;
      notices := [];
    }

    /** One scan cycle. */
    method RunScan(forcePost: bool, now: string, env: Environment) returns (outcome: Outcome)
      modifies this
      ensures outcome == ScanStep(LoadState(old(stored)), forcePost, now, Fetched(env), env)
      ensures stored == if outcome.saved.Some? then outcome.saved else old(stored)
      ensures notices == old(notices) + if outcome.notice.Some? then [outcome.notice.value] else []
    {
      var tweets, _ := FetchAllTweets(env.feed);
      outcome := ProcessBatch(tweets, forcePost, now, env);
    }

    /** Everything a scan does once the posts are fetched. */
    method ProcessBatch(tweets: seq<Post>, forcePost: bool, now: string, env: Environment) returns (outcome: Outcome)
      modifies this
      ensures outcome == ScanStep(LoadState(old(stored)), forcePost, now, tweets, env)
      ensures stored == if outcome.saved.Some? then outcome.saved else old(stored)
      ensures notices == old(notices) + if outcome.notice.Some? then [outcome.notice.value] else []
    {
      if tweets == [] {
        return Outcome(None, None, None);
      }
      var state := new DedupState(LoadState(stored));
      var newTweets := state.FilterNew(tweets, env.md5);
      state.EvictOverflow();
      if newTweets == [] && !forcePost {
        state.MarkScanned(now);
        stored := Some(state.Doc());
        return Outcome(stored, None, None);
      }
      var batch := if newTweets != [] then newTweets else tweets;
      var analysis := AnalyzeWithCerebras(batch, env.creds, env.complete);
      var notice := None;
      if ShouldNotify(analysis) {
        notices := notices + [analysis];
        notice := Some(analysis);
      }
      state.MarkScanned(now);
      stored := Some(state.Doc());
      outcome := Outcome(stored, Some(batch), notice);
    }
  }
}
