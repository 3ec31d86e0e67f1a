/**
 * The dedup store: the persisted list of fingerprints of posts already
 * seen, the dedup pass of a scan over the fetched batch, and the cut of the
 * list to its newest 500 entries.
 */
module DedupStore {
  import opened Wrappers
  import opened Text
  import opened Feeds

  /** The digest applied to the first 100 characters of a text (MD5 in hex); left uninterpreted. */
  type Digest = string -> string

  /** Only this many leading characters of a post's text count for its fingerprint. */
  const FingerprintPrefix: nat := 100
  /** The fingerprint list keeps at most this many entries. */
  const MaxSeen: nat := 500

  /** The persisted state document: the fingerprints seen so far, oldest first, and the time of the last scan. */
  datatype StateDoc = StateDoc(seenHashes: seq<string>, lastScan: Option<string>)

  const FreshState: StateDoc := StateDoc([], None)

  /** Loading the state: the document when one was read and parsed, otherwise a fresh state. */
  function LoadState(file: Option<StateDoc>): (d: StateDoc)
    ensures file.None? ==> d == FreshState
    ensures file.Some? ==> d == file.value
  {
    file.GetOr(FreshState)
  }

  function Fingerprint(p: Post, md5: Digest): string {
    md5(Take(p.text, FingerprintPrefix))
  }

  /** Texts that agree on their first 100 characters get the same fingerprint. */
  lemma SamePrefixSameFingerprint(p: Post, q: Post, md5: Digest)
    requires Take(p.text, FingerprintPrefix) == Take(q.text, FingerprintPrefix)
    ensures Fingerprint(p, md5) == Fingerprint(q, md5)
  {
  }

  /** The fingerprints of a list of posts, in order. */
  function Fingerprints(posts: seq<Post>, md5: Digest): seq<string> {
    if posts == [] then [] else [Fingerprint(posts[0], md5)] + Fingerprints(posts[1..], md5)
  }

  lemma {:induction false} FingerprintsAt(posts: seq<Post>, md5: Digest)
    ensures |Fingerprints(posts, md5)| == |posts|
    ensures forall i :: 0 <= i < |posts| ==> Fingerprints(posts, md5)[i] == Fingerprint(posts[i], md5)
    decreases |posts|
  {
    if posts != [] {
      FingerprintsAt(posts[1..], md5);
    }
  }

  lemma {:induction false} FingerprintsAppend(a: seq<Post>, b: seq<Post>, md5: Digest)
    ensures Fingerprints(a + b, md5) == Fingerprints(a, md5) + Fingerprints(b, md5)
    decreases |a|
  {
    if a == [] {
      assert a + b == b;
    } else {
      assert (a + b)[0] == a[0];
      assert (a + b)[1..] == a[1..] + b;
      FingerprintsAppend(a[1..], b, md5);
    }
  }

  // ---------------------------------------------------------------------------
  // The dedup pass

  /** The posts a dedup pass keeps and the fingerprint list it leaves. */
  datatype DedupResult = DedupResult(kept: seq<Post>, seen: seq<string>)

  /**
   * The dedup pass, post by post in batch order: a post is kept when its
   * fingerprint is not yet in the list, and its fingerprint is then appended,
   * so a later post of the same batch with that fingerprint counts as seen.
   * The list afterwards is the old one followed by the kept posts' fingerprints.
   */
  function Dedup(seen: seq<string>, posts: seq<Post>, md5: Digest): (r: DedupResult)
    ensures |r.kept| <= |posts|
    decreases |posts|
  {
    if posts == [] then DedupResult([], seen)
    else
      var f := Fingerprint(posts[0], md5);
      if f in seen then Dedup(seen, posts[1..], md5)
      else
        var r := Dedup(seen + [f], posts[1..], md5);
        DedupResult([posts[0]] + r.kept, r.seen)
  }

  /** After the pass the list is the old list followed by the kept posts' fingerprints, in the order the posts were kept. */
  lemma {:induction false} DedupAppendsKept(seen: seq<string>, posts: seq<Post>, md5: Digest)
    ensures Dedup(seen, posts, md5).seen == seen + Fingerprints(Dedup(seen, posts, md5).kept, md5)
    decreases |posts|
  {
    if posts != [] {
      var f := Fingerprint(posts[0], md5);
      if f in seen {
        DedupAppendsKept(seen, posts[1..], md5);
      } else {
        var r := Dedup(seen + [f], posts[1..], md5);
        DedupAppendsKept(seen + [f], posts[1..], md5);
        assert ([posts[0]] + r.kept)[0] == posts[0];
        assert ([posts[0]] + r.kept)[1..] == r.kept;
      }
    }
  }

  /**
   * The stateless description of which posts are new: the one at index `i`
   * is new when its fingerprint is neither in the prior list nor that of an
   * earlier post of the batch.
   */
  predicate FirstFresh(seen: seq<string>, posts: seq<Post>, md5: Digest, i: nat)
    requires i < |posts|
  {
    Fingerprint(posts[i], md5) !in seen &&
    forall j :: 0 <= j < i ==> Fingerprint(posts[j], md5) != Fingerprint(posts[i], md5)
  }

  /** The posts at indices `i` and after that are first fresh, in batch order. */
  function FreshFrom(seen: seq<string>, posts: seq<Post>, md5: Digest, i: nat): seq<Post>
    requires i <= |posts|
    decreases |posts| - i
  {
    if i == |posts| then []
    else (if FirstFresh(seen, posts, md5, i) then [posts[i]] else []) + FreshFrom(seen, posts, md5, i + 1)
  }

  /** The new posts of a batch by the stateless description. */
  function FreshPosts(seen: seq<string>, posts: seq<Post>, md5: Digest): seq<Post> {
    FreshFrom(seen, posts, md5, 0)
  }

  /**
   * The general form of `DedupIsFresh`: running the pass on `posts[i..]`
   * from any list holding exactly the old fingerprints and those of
   * `posts[..i]` keeps the first-fresh posts from index `i` on.
   */
  lemma {:induction false} DedupFrom(seen: seq<string>, posts: seq<Post>, md5: Digest, i: nat, acc: seq<string>)
    requires i <= |posts|
    requires forall f :: f in acc <==> f in seen || exists j :: 0 <= j < i && Fingerprint(posts[j], md5) == f
    ensures Dedup(acc, posts[i..], md5).kept == FreshFrom(seen, posts, md5, i)
    decreases |posts| - i
  {
    if i < |posts| {
      var f := Fingerprint(posts[i], md5);
      assert posts[i..][0] == posts[i];
      assert posts[i..][1..] == posts[i + 1..];
      assert FirstFresh(seen, posts, md5, i) <==> f !in acc;
      var next := if f in acc then acc else acc + [f];
      forall g ensures g in next <==> g in seen || exists j :: 0 <= j < i + 1 && Fingerprint(posts[j], md5) == g {
        if g == f {
          assert Fingerprint(posts[i], md5) == g;
        }
      }
      DedupFrom(seen, posts, md5, i + 1, next);
    }
  }

  /** The dedup pass keeps exactly the first-fresh posts, in batch order. */
  lemma DedupIsFresh(seen: seq<string>, posts: seq<Post>, md5: Digest)
    ensures Dedup(seen, posts, md5).kept == FreshPosts(seen, posts, md5)
  {
    assert posts[0..] == posts;
    DedupFrom(seen, posts, md5, 0, seen);
  }

  /** A post whose first 100 characters repeat those of an earlier post of the batch is never new. */
  lemma SamePrefixKeptOnce(seen: seq<string>, posts: seq<Post>, md5: Digest, i: nat, j: nat)
    requires i < j < |posts|
    requires Take(posts[i].text, FingerprintPrefix) == Take(posts[j].text, FingerprintPrefix)
    ensures !FirstFresh(seen, posts, md5, j)
  {
    assert Fingerprint(posts[i], md5) == Fingerprint(posts[j], md5);
  }

  /** Nothing already in the prior list is new. */
  lemma {:induction false} FreshAreUnseen(seen: seq<string>, posts: seq<Post>, md5: Digest, i: nat)
    requires i <= |posts|
    ensures forall p :: p in FreshFrom(seen, posts, md5, i) ==> Fingerprint(p, md5) !in seen
    decreases |posts| - i
  {
    if i < |posts| {
      FreshAreUnseen(seen, posts, md5, i + 1);
    }
  }

  /** After the pass every post of the batch has its fingerprint in the list, and so does every old entry. */
  lemma {:induction false} DedupRemembersBatch(seen: seq<string>, posts: seq<Post>, md5: Digest)
    ensures forall f :: f in seen ==> f in Dedup(seen, posts, md5).seen
    ensures forall i :: 0 <= i < |posts| ==> Fingerprint(posts[i], md5) in Dedup(seen, posts, md5).seen
    decreases |posts|
  {
    if posts != [] {
      var f := Fingerprint(posts[0], md5);
      var next := if f in seen then seen else seen + [f];
      DedupRemembersBatch(next, posts[1..], md5);
      assert Dedup(seen, posts, md5).seen == Dedup(next, posts[1..], md5).seen;
      forall i | 0 <= i < |posts| ensures Fingerprint(posts[i], md5) in Dedup(seen, posts, md5).seen {
        if i > 0 { assert posts[i] == posts[1..][i - 1]; }
      }
    }
  }

  /** A pass over a batch whose fingerprints are all in the list keeps nothing and changes nothing. */
  lemma {:induction false} DedupAllSeen(seen: seq<string>, posts: seq<Post>, md5: Digest)
    requires forall i :: 0 <= i < |posts| ==> Fingerprint(posts[i], md5) in seen
    ensures Dedup(seen, posts, md5) == DedupResult([], seen)
    decreases |posts|
  {
    if posts != [] {
      assert forall i :: 0 <= i < |posts[1..]| ==> posts[1..][i] == posts[i + 1];
      DedupAllSeen(seen, posts[1..], md5);
    }
  }

  /** Idempotence: running the pass again on the same batch with the list it produced keeps nothing and leaves the list as it is. */
  lemma DedupIdempotent(seen: seq<string>, posts: seq<Post>, md5: Digest)
    ensures Dedup(Dedup(seen, posts, md5).seen, posts, md5) == DedupResult([], Dedup(seen, posts, md5).seen)
  {
    DedupRemembersBatch(seen, posts, md5);
    DedupAllSeen(Dedup(seen, posts, md5).seen, posts, md5);
  }

  /** One step of the pass: the first post of a batch is kept exactly when its fingerprint is not in the list. */
  lemma DedupCons(seen: seq<string>, p: Post, rest: seq<Post>, md5: Digest)
    ensures Fingerprint(p, md5) in seen ==> Dedup(seen, [p] + rest, md5) == Dedup(seen, rest, md5)
    ensures Fingerprint(p, md5) !in seen ==>
      Dedup(seen, [p] + rest, md5) ==
        DedupResult([p] + Dedup(seen + [Fingerprint(p, md5)], rest, md5).kept, Dedup(seen + [Fingerprint(p, md5)], rest, md5).seen)
  {
    assert ([p] + rest)[0] == p;
    assert ([p] + rest)[1..] == rest;
  }

  /** A pass over two batches one after the other is the pass over the first, then the pass over the second from the list it left. */
  lemma {:induction false} DedupAppend(seen: seq<string>, a: seq<Post>, b: seq<Post>, md5: Digest)
    ensures Dedup(seen, a + b, md5).kept == Dedup(seen, a, md5).kept + Dedup(Dedup(seen, a, md5).seen, b, md5).kept
    ensures Dedup(seen, a + b, md5).seen == Dedup(Dedup(seen, a, md5).seen, b, md5).seen
    decreases |a|
  {
    if a == [] {
      assert a + b == b;
    } else {
      var f := Fingerprint(a[0], md5);
      var tail := a[1..];
      assert a == [a[0]] + tail;
      assert a + b == [a[0]] + (tail + b);
      DedupCons(seen, a[0], tail + b, md5);
      DedupCons(seen, a[0], tail, md5);
      var next := if f in seen then seen else seen + [f];
      DedupAppend(next, tail, b, md5);
      if f !in seen {
        var ra := Dedup(next, tail, md5);
        var rb := Dedup(ra.seen, b, md5);
        assert [a[0]] + (ra.kept + rb.kept) == ([a[0]] + ra.kept) + rb.kept;
      }
    }
  }

  /**
   * The repeated-scan scenario: after a batch has been through the pass,
   * the same batch with one more post whose fingerprint is new yields just
   * that post and grows the list by its fingerprint.
   */
  lemma SecondScanFindsOnlyNewPost(seen: seq<string>, batch: seq<Post>, p: Post, md5: Digest)
    requires Fingerprint(p, md5) !in Dedup(seen, batch, md5).seen
    ensures Dedup(Dedup(seen, batch, md5).seen, batch + [p], md5) ==
      DedupResult([p], Dedup(seen, batch, md5).seen + [Fingerprint(p, md5)])
  {
    var s1 := Dedup(seen, batch, md5).seen;
    DedupIdempotent(seen, batch, md5);
    DedupAppend(s1, batch, [p], md5);
    assert [p][1..] == [];
  }

  /** When every post from index `i` on is first fresh, all of them are kept. */
  lemma {:induction false} AllFreshKept(seen: seq<string>, posts: seq<Post>, md5: Digest, i: nat)
    requires i <= |posts|
    requires forall k :: i <= k < |posts| ==> FirstFresh(seen, posts, md5, k)
    ensures FreshFrom(seen, posts, md5, i) == posts[i..]
    decreases |posts| - i
  {
    if i < |posts| {
      AllFreshKept(seen, posts, md5, i + 1);
      assert posts[i..] == [posts[i]] + posts[i + 1..];
    }
  }

  /** A batch of posts with pairwise different fingerprints, none of them seen before, is kept whole. */
  lemma DistinctBatchKeptWhole(seen: seq<string>, posts: seq<Post>, md5: Digest)
    requires forall i, j :: 0 <= i < j < |posts| ==> Fingerprint(posts[i], md5) != Fingerprint(posts[j], md5)
    requires forall i :: 0 <= i < |posts| ==> Fingerprint(posts[i], md5) !in seen
    ensures Dedup(seen, posts, md5) == DedupResult(posts, seen + Fingerprints(posts, md5))
  {
    AllFreshKept(seen, posts, md5, 0);
    assert posts[0..] == posts;
    DedupIsFresh(seen, posts, md5);
    DedupAppendsKept(seen, posts, md5);
  }

  // ---------------------------------------------------------------------------
  // The bounded list

  /** Python's `seen[-500:]`: the newest 500 entries, or all of them when there are fewer. */
  function Trim(h: seq<string>): (r: seq<string>)
    ensures |r| == Min(MaxSeen, |h|)
    ensures forall i :: 0 <= i < |r| ==> r[i] == h[|h| - |r| + i]
  {
    if |h| <= MaxSeen then h else h[|h| - MaxSeen..]
  }

  /** The list is cut from the old end: entries appended last are the ones that stay. */
  lemma TrimKeepsNewest(older: seq<string>, newer: seq<string>)
    requires |newer| <= MaxSeen
    ensures Trim(older + newer)[|Trim(older + newer)| - |newer|..] == newer
  {
    var h := older + newer;
    var r := Trim(h);
    forall i | 0 <= i < |newer| ensures r[|r| - |newer| + i] == newer[i] {
      assert r[|r| - |newer| + i] == h[|h| - |newer| + i];
    }
  }

  /** A list that already fits is left as it is. */
  lemma TrimShortIsIdentity(h: seq<string>)
    requires |h| <= MaxSeen
    ensures Trim(h) == h
  {
  }

  // ---------------------------------------------------------------------------
  // The state of one scan, updated in place

  /** The loaded state dictionary of a scan; its fingerprint list is appended to and then cut in place. */
  class DedupState {
    var seenHashes: seq<string>
    var lastScan: Option<string>

    constructor (doc: StateDoc)
      ensures seenHashes == doc.seenHashes && lastScan == doc.lastScan
    {
      seenHashes := doc.seenHashes;
      lastScan := doc.lastScan;
    }

    /** The document that saving this state writes. */
    function Doc(): (d: StateDoc)
      reads this
      ensures d.seenHashes == seenHashes && d.lastScan == lastScan
    {
      StateDoc(seenHashes, lastScan)
    }

    /** The dedup loop: keep the posts whose fingerprint is not in the list, appending each kept fingerprint. */
    method FilterNew(tweets: seq<Post>, md5: Digest) returns (newTweets: seq<Post>)
      modifies this
      ensures newTweets == Dedup(old(seenHashes), tweets, md5).kept
      ensures seenHashes == Dedup(old(seenHashes), tweets, md5).seen
      ensures lastScan == old(lastScan)
    {
      newTweets := [];
      var i := 0;
      while i < |tweets|
        invariant 0 <= i <= |tweets|
        invariant newTweets + Dedup(seenHashes, tweets[i..], md5).kept == Dedup(old(seenHashes), tweets, md5).kept
        invariant Dedup(seenHashes, tweets[i..], md5).seen == Dedup(old(seenHashes), tweets, md5).seen
        invariant lastScan == old(lastScan)
      {
        assert tweets[i..][0] == tweets[i];
        assert tweets[i..][1..] == tweets[i + 1..];
        var h := Fingerprint(tweets[i], md5);
        if h !in seenHashes {
          newTweets := newTweets + [tweets[i]];
          seenHashes := seenHashes + [h];
        }
        i := i + 1;
      }
    }

    /** The list is cut to its newest 500 entries. */
    method EvictOverflow()
      modifies this
      ensures seenHashes == Trim(old(seenHashes))
      ensures |seenHashes| <= MaxSeen
      ensures lastScan == old(lastScan)
    {
      if |seenHashes| > MaxSeen {
        seenHashes := seenHashes[|seenHashes| - MaxSeen..];
      }
    }

    /** The scan time is recorded. */
    method MarkScanned(now: string)
      modifies this
      ensures lastScan == Some(now) && seenHashes == old(seenHashes)
    {
      lastScan := Some(now);
    }
  }
}
