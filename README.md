# x-monitor in Dafny

x-monitor (`monitor.py`) is a small service that scans seven X/Twitter accounts every hour. A scan works like this:

- It fetches each account's recent posts through a chain of fallback adapters: an RSS-Bridge Atom feed, then two Nitter RSS instances, then a twstalker page scrape.
- It drops posts it has already seen. Each post is identified by a fingerprint: the MD5 digest of the first 100 characters of its text. The fingerprints are kept in a JSON state file of at most 500 entries.
- It asks the Cerebras chat-completion endpoint to summarise the new posts.
- It posts the summary to a Telegram group when the summary is worth posting.

This project models the decision logic of that pipeline and proves properties of it. The modules follow the structure of the script:

| module | models |
|---|---|
| `Wrappers` | `Option` (a missing XML element, a missing credential, a JSON `null`) |
| `Text` | the Python string operations used, written out on `seq<char>`: `s[:n]`, `startswith`, substring `in`, `str.strip()` with Python's whitespace set, `strip('"\'')`, `split` on one character, `join`, and `re.sub(r'<[^>]+>', '', s)` |
| `Feeds` | entry normalisation of the RSS-Bridge and Nitter adapters, and their loops over instance URLs |
| `Fetcher` | `fetch_all_tweets`: the adapter fallback per account, concatenated in account order |
| `DedupStore` | fingerprints, the dedup pass of `run_scan`, the cut of the list to 500 entries, `load_state`, and the state dictionary as a class updated in place |
| `Summarizer` | `analyze_with_cerebras` (key lookup, post formatting, sentinel, prompt, reply selection) and the notify guard |
| `Scan` | `run_scan` as a specification function `ScanStep` and as the method `Monitor.RunScan`, proved equal |

The outside world is passed in as parameters:

- `feed(url)`: the parsed entries an instance served, or `None` for any failure. Failures are a request error, a status other than 200, a body without the `<entry>`/`<item>` marker, or a parse error.
- `md5`: the digest, left uninterpreted.
- `Credentials(env, config)`: the `CEREBRAS_API_KEY` environment variable and the Cerebras config file's text, `None` when the file does not exist.
- `complete(key, prompt)`: the completion endpoint's `Reply`.
- `now`: the scan's timestamp.
- `Monitor.stored`: the state file.
- `Monitor.notices`: the messages sent to the group.

Where the code and its description disagree, the model follows the code:

- The twstalker adapter always returns no posts. It slices the iterator returned by `finditer`, which raises a `TypeError`, and the adapter's own handler catches that error.
- A scan that fetches nothing returns before it saves, so `last_scan` is not updated.

## Model

| member | source | states |
|---|---|---|
| Text.Take | monitor.py:93 | `text[:1000]`: the result has length `min(n, |s|)` and is a prefix of `s` |
| Text.IndexOf | monitor.py:231 | the first position of a character that occurs, as `split` and `partition` find it |
| Text.TrimLeftShape | monitor.py:86 | drops exactly the longest prefix made of strip characters; what is left does not start with one |
| Text.TrimRightShape | monitor.py:86 | drops exactly the longest suffix made of strip characters; what is left does not end with one |
| Text.StripKeepsCore | monitor.py:86 | `strip` keeps one contiguous piece of its input, with neither end a strip character; it is empty only when every character is one |
| Text.Split | monitor.py:229 | `split('\n')` gives at least one piece, and no piece contains the separator |
| Text.JoinSplit | monitor.py:229 | joining the pieces of a split with the separator gives back the string |
| Text.SplitJoin | monitor.py:229 | splitting a join of separator-free pieces gives back the pieces |
| Text.JoinContainsParts | monitor.py:239-242 | each piece occurs in the joined string |
| Text.JoinLengthAtLeast | monitor.py:239-242 | `n` pieces of at least `m` characters join to at least `n*m + (n-1)*|sep|` characters |
| Text.StripTagsShape | monitor.py:86 | tag removal never lengthens the text, keeps only characters of the input, and keeps a leading character that is not `<` |
| Text.KeptOpenerStaysInert | monitor.py:86 | a `<` that does not start a match still does not start one after the rest is stripped |
| Text.TagAtShift | monitor.py:86 | whether a position starts a match does not depend on the characters kept before it |
| Text.StripTagsLeavesNoTags | monitor.py:86 | after `re.sub(r'<[^>]+>', '', s)` the pattern matches nowhere in the result |
| Text.StripTagsFixesTagFree | monitor.py:86 | a text without matches is left unchanged |
| Text.StripTagsIdempotent | monitor.py:86 | tag removal applied twice is tag removal applied once |
| Text.InfixKeepsNoTags | monitor.py:86 | a slice of a tag-free text is tag-free |
| Text.StripKeepsNoTags | monitor.py:86 | `strip()` after tag removal cannot create a match |
| Text.TakeKeepsNoTags | monitor.py:93 | the cut to 1000 characters cannot create a match |
| Feeds.Normalise | monitor.py:77-96 | the posts made from the entries number at most the entries, and each has author `@account` and a text of 21 to 1000 characters |
| Feeds.Examined | monitor.py:77 | `[:10]`: `min(10, n)` entries, and they are a prefix of the input |
| Feeds.FeedPosts | monitor.py:77-96 | one served feed gives at most 10 posts, each of the account's shape |
| Feeds.NormaliseSound | monitor.py:77-96 | every post produced comes from one of the entries |
| Feeds.NormaliseComplete | monitor.py:129-148 | every entry with enough text gives its post |
| Feeds.ContentShadowsTitle | monitor.py:84-88 | when the content has text the title is ignored, even when the stripped content is too short and the entry is dropped |
| Feeds.TitleFallback | monitor.py:136-142 | without content text, the post is the title's text when that is longer than 20 characters, and otherwise there is no post |
| Feeds.ContentTextHasNoTags | monitor.py:84-93 | a text taken from content contains no tag-pattern match, even after stripping and the cut to 1000 characters |
| Feeds.FirstFeed | monitor.py:64-106 | the posts of the first instance that yields any, at most 10, each of the account's shape |
| Feeds.FirstFeedIsFirst | monitor.py:118-158 | the result is empty exactly when every instance failed or yielded nothing; otherwise it is the posts of an instance before which every instance failed or yielded nothing, so poast.org is preferred to privacydev.net |
| Feeds.NormaliseFeed | monitor.py:129-148 | the entry loop with its appends computes `FeedPosts` |
| Feeds.FetchFromInstances | monitor.py:118-158 | the instance loop with its early return computes `FirstFeed` |
| Feeds.FetchViaRssBridge | monitor.py:55-106 | the RSS-Bridge adapter: its one URL; at most 10 posts, each of the account's shape |
| Feeds.FetchViaNitter | monitor.py:109-158 | the Nitter adapter: poast.org, then privacydev.net; at most 10 posts, each of the account's shape |
| Fetcher.AdapterResult | monitor.py:161-197 | every adapter gives at most 10 posts of the account's shape; twstalker gives none |
| Fetcher.FallbackPicksFirstNonEmpty | monitor.py:208-211 | when the first `k` adapters return nothing and adapter `k` returns posts, the account gets adapter `k`'s posts and only adapters `0..k` are invoked |
| Fetcher.FallbackAllEmpty | monitor.py:208-216 | when every adapter returns nothing, the account contributes nothing after all three were tried |
| Fetcher.AccountPosts | monitor.py:204-214 | with the adapters as written, an account's posts are RSS-Bridge's when there are any, else Nitter's |
| Fetcher.AdaptersAreBounded | monitor.py:55-197 | every adapter's output is bounded by 10 and of the account's shape |
| Fetcher.FirstSuccessShape | monitor.py:208-214 | an account contributes at most 10 posts, all of its own shape |
| Fetcher.GatherAppend | monitor.py:204-220 | the fetched posts and the adapter calls follow account order: fetching two account lists one after the other concatenates their results |
| Fetcher.GatherShape | monitor.py:200-220 | a fetch yields at most 10 posts per account, each carrying the handle of one of the accounts |
| Fetcher.RunAdapter | monitor.py:208-209 | invoking one adapter gives `AdapterResult` |
| Fetcher.FetchAccount | monitor.py:205-211 | the inner loop with `break` gives the first non-empty adapter result and invokes exactly the adapters `Tried` names |
| Fetcher.FetchAccounts | monitor.py:202-220 | the outer loop extends the result account by account: `Gather`, with the calls in order `CallTrace` |
| Fetcher.FetchAllTweets | monitor.py:200-220 | `fetch_all_tweets` over `TARGET_ACCOUNTS` |
| DedupStore.LoadState | monitor.py:39-46 | a fresh state `{[], None}` when there is no readable document, else the document |
| DedupStore.SamePrefixSameFingerprint | monitor.py:346 | texts that agree on their first 100 characters have equal fingerprints |
| DedupStore.FingerprintsAt | monitor.py:346 | the fingerprint list of a batch has one entry per post, in order |
| DedupStore.FingerprintsAppend | monitor.py:344-349 | fingerprints of two batches in a row are the two lists in a row |
| DedupStore.Dedup | monitor.py:344-349 | the pass keeps no more posts than the batch has |
| DedupStore.DedupAppendsKept | monitor.py:347-349 | after the pass the list is the old list followed by the kept posts' fingerprints, in the order they were kept |
| DedupStore.DedupCons | monitor.py:345-349 | one step of the loop: the first post is kept, and its fingerprint appended, exactly when the fingerprint is not yet in the list |
| DedupStore.DedupFrom | monitor.py:344-349 | from any list with exactly the old fingerprints and those of `posts[..i]`, the pass over `posts[i..]` keeps the first-fresh posts |
| DedupStore.DedupIsFresh | monitor.py:344-349 | the pass keeps exactly the posts, in input order, whose fingerprint is neither in the old list nor that of an earlier post of the batch |
| DedupStore.SamePrefixKeptOnce | monitor.py:346-347 | of two posts with the same first 100 characters, the later one is never new |
| DedupStore.FreshAreUnseen | monitor.py:347 | no post whose fingerprint was already in the list is new |
| DedupStore.DedupRemembersBatch | monitor.py:344-349 | after the pass every old entry and every batch post's fingerprint is in the list |
| DedupStore.DedupAllSeen | monitor.py:345-349 | a batch whose fingerprints are all in the list yields nothing and leaves the list unchanged |
| DedupStore.DedupIdempotent | monitor.py:345-349 | running the pass again on the same batch from the list it produced keeps nothing and leaves that list unchanged |
| DedupStore.DedupAppend | monitor.py:344-349 | the pass over `a + b` is the pass over `a`, then the pass over `b` from the list `a` left |
| DedupStore.SecondScanFindsOnlyNewPost | monitor.py:344-349 | after a batch, the same batch plus one post with a new fingerprint yields only that post and appends only its fingerprint |
| DedupStore.AllFreshKept | monitor.py:344-349 | when every post from some index on is first fresh, all of them are kept |
| DedupStore.DistinctBatchKeptWhole | monitor.py:344-349 | unseen posts with pairwise distinct fingerprints are all kept, and all their fingerprints are appended |
| DedupStore.Trim | monitor.py:351 | `[-500:]`: `min(500, n)` entries, the last ones in their order |
| DedupStore.TrimKeepsNewest | monitor.py:351 | at most 500 entries appended last all survive the cut, at its end |
| DedupStore.TrimShortIsIdentity | monitor.py:351 | a list of at most 500 entries is not cut |
| DedupStore.DedupState.constructor | monitor.py:335 | the state holds the loaded document's fingerprints and scan time |
| DedupStore.DedupState.Doc | monitor.py:369-370 | the document saved is the current fingerprint list and scan time |
| DedupStore.DedupState.FilterNew | monitor.py:344-349 | the loop with its in-place appends returns `Dedup`'s kept posts and leaves its list in the state; `last_scan` is untouched |
| DedupStore.DedupState.EvictOverflow | monitor.py:351 | the list becomes `Trim` of itself and holds at most 500 entries |
| DedupStore.DedupState.MarkScanned | monitor.py:356 | `last_scan` is set, the list unchanged |
| Summarizer.KeyValueAfterPrefix | monitor.py:231-232 | on a key line the value after the first `=` is the rest of the line after the prefix, with quotes stripped |
| Summarizer.ConfigKeyIsFirstMatch | monitor.py:229-233 | no key when no line starts with the prefix; otherwise the value of the first line that does |
| Summarizer.FindApiKey | monitor.py:229-233 | the loop with `break` computes `ConfigKey` |
| Summarizer.ApiKeySources | monitor.py:225-233 | a non-empty environment variable wins; otherwise the value of a config line with the key prefix that no earlier line has, that is, the first one; with neither, no usable key |
| Summarizer.LookupApiKey | monitor.py:225-233 | the lookup computes `ApiKey` |
| Summarizer.PostLines | monitor.py:240-241 | one `author: text` line per post, in order |
| Summarizer.FormatShowsFirstPosts | monitor.py:239-242 | each of the first 20 posts appears in the formatted text as its `author: text` line |
| Summarizer.FormatIgnoresLaterPosts | monitor.py:242 | posts after the 20th do not change the formatted text |
| Summarizer.FourPostsSuffice | monitor.py:239-246 | four posts of adapter shape always reach 100 characters, so they never yield the sentinel |
| Summarizer.PromptRoundTrip | monitor.py:248-263 | the formatted posts sit right after the fixed head and can be read back from the prompt |
| Summarizer.SelectReplyPrefersContent | monitor.py:281-291 | the reply text is the content when truthy, the reasoning when only that is, and `""` exactly on failure or when neither is |
| Summarizer.AnalyzeWithCerebras | monitor.py:223-291 | the method computes `Analysis`: `""` without a key, the sentinel below 100 characters, else the selected reply |
| Summarizer.SentinelNeverPosted | monitor.py:364 | neither `""` nor the sentinel, nor anything containing "No major highlights", passes the guard |
| Summarizer.NoticeComesFromReply | monitor.py:234-246 | an analysis that passes the guard had a key and at least 100 characters of posts, and is the model's reply |
| Scan.EmptyFetchSavesNothing | monitor.py:337-341 | an empty fetch ends the scan with no save, no analysis and no notice |
| Scan.QuietScanOnlyStamps | monitor.py:354-358 | with no new posts and no force, the fingerprint list is saved as it was (cut to 500) with the new `last_scan`, and nothing is analysed |
| Scan.AnalysedBatch | monitor.py:361 | the new posts are analysed when there are any; a forced scan without new posts analyses the whole batch |
| Scan.NoticeIsGuardedAnalysis | monitor.py:364-367 | a notice is sent exactly when an analysis passes the guard, and it is that analysis |
| Scan.SavedStateIsBounded | monitor.py:351-370 | every scan that fetched something saves at most 500 fingerprints, the last of old list plus new fingerprints, and the scan time |
| Scan.RepeatedScanIsQuiet | monitor.py:344-358 | rescanning the same batch from the saved state, when no cut was needed, finds nothing, analyses nothing and only stamps the time |
| Scan.Monitor.constructor | monitor.py:39-46 | the monitor starts from the given state file and no notices |
| Scan.Monitor.ProcessBatch | monitor.py:339-370 | once posts are fetched, the scan computes `ScanStep` on the loaded state and saves and notifies as it says |
| Scan.Monitor.RunScan | monitor.py:331-370 | one scan computes `ScanStep` on the loaded state and the fetched posts, saves exactly when `ScanStep` saves, and appends to the notices exactly the notice it sends |

## Left out

- HTTP requests, time-outs and status codes: every failure of an instance is the single `None` of `feed`.
- XML parsing and the `<entry>`/`<item>` marker test: these are inside `feed` too. The model starts from parsed entries whose link and date are strings. In the source a missing element gives `""`, but an Atom `link` without `href` and a `published`, `pubDate` or `link` element without text give `None` (monitor.py:94-95, 146-147). `feed` maps those `None`s to `""`. Nothing downstream reads a post's `url` or `timestamp`, so the difference does not matter to any decision the model makes.
- MD5 is an uninterpreted function `md5` of the 100-character prefix. Nothing is taken for granted about it beyond being a function: two different prefixes may share a fingerprint.
- `datetime.utcnow()` is the `now` parameter.
- Reading and writing the state file and the config file: `Monitor.stored` and `Credentials.config` stand for them. JSON encoding, and a state file that parses to something other than the expected dictionary, are not modelled. A document without `seen_hashes` behaves as one with an empty list, and that is how `StateDoc` represents it.
- `send_to_telegram`: the network call, the bot token lookup, the chat id and the message header with its emoji and timestamp (monitor.py:294-328). A sent message is recorded in `Monitor.notices`, whether or not Telegram accepted it.
- Logging, the two-second `time.sleep` between accounts, argparse and the endless `main` loop with its exception handler (monitor.py:373-391). A scan is one call of `Monitor.RunScan`.
- The twstalker scraper's parsing: as written it raises before producing anything, so the adapter is the always-empty `Twstalker`.
- The `t.get('author', '?')` and `t.get('text', '')` defaults: every post carries both fields, so the defaults are never used.
- Exceptions within a feed's entry loop after a post was appended: the operations of that loop cannot raise on parsed entries, so each instance either yields all its posts or is skipped as a whole.
- Python's `str.strip()` is modelled with the set of characters for which `str.isspace()` holds. Unicode normalisation and non-BMP whitespace play no part.
