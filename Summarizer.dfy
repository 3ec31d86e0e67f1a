/**
 * The analysis step: finding the Cerebras API key, formatting the posts into
 * the prompt, the sentinel for too little text, picking the text out of the
 * completion reply, and the guard that decides whether an analysis is worth
 * a Telegram message.  The environment variable, the config file and the
 * completion endpoint are parameters.
 */
module Summarizer {
  import opened Wrappers
  import opened Text
  import opened Feeds

  // ---------------------------------------------------------------------------
  // The API key

  const KeyPrefix: string := "CEREBRAS_API_KEY="

  /** The value of a `KEY=value` line: everything after the first `=`, quote characters stripped from both ends. */
  function KeyValue(line: string): string
    requires '=' in line
  {
    Strip(line[IndexOf(line, '=') + 1..], Quotes)
  }

  /** On a line with the key prefix the first `=` is the one ending the prefix, so the value is the rest of the line, unquoted. */
  lemma KeyValueAfterPrefix(line: string)
    requires StartsWith(line, KeyPrefix)
    ensures '=' in line
    ensures KeyValue(line) == Strip(line[|KeyPrefix|..], Quotes)
  {
    assert line[..|KeyPrefix|] == KeyPrefix;
    assert line[|KeyPrefix| - 1] == '=';
    forall j | 0 <= j < |KeyPrefix| - 1 ensures line[j] != '=' {
      assert line[j] == KeyPrefix[j];
    }
    assert IndexOf(line, '=') == |KeyPrefix| - 1;
  }

  /** The value of the first config line that starts with the key prefix, if there is one. */
  function ConfigKey(lines: seq<string>): Option<string> {
    if lines == [] then None
    else if StartsWith(lines[0], KeyPrefix) then
      assert lines[0][|KeyPrefix| - 1] == KeyPrefix[|KeyPrefix| - 1];
      Some(KeyValue(lines[0]))
    else ConfigKey(lines[1..])
  }

  /**
   * `ConfigKey` finds nothing exactly when no line has the prefix, and
   * otherwise gives the value of the first line that has it.
   */
  lemma {:induction false} ConfigKeyIsFirstMatch(lines: seq<string>)
    ensures ConfigKey(lines).None? <==> forall i :: 0 <= i < |lines| ==> !StartsWith(lines[i], KeyPrefix)
    ensures ConfigKey(lines).Some? ==>
      (exists i :: 0 <= i < |lines| && StartsWith(lines[i], KeyPrefix) &&
         ConfigKey(lines).value == Strip(lines[i][|KeyPrefix|..], Quotes) &&
         (forall j :: 0 <= j < i ==> !StartsWith(lines[j], KeyPrefix)))
    decreases |lines|
  {
    if lines != [] {
      if StartsWith(lines[0], KeyPrefix) {
        KeyValueAfterPrefix(lines[0]);
      } else {
        ConfigKeyIsFirstMatch(lines[1..]);
        assert forall i :: 1 <= i < |lines| ==> lines[i] == lines[1..][i - 1];
        if ConfigKey(lines[1..]).Some? {
          var i :| 0 <= i < |lines[1..]| && StartsWith(lines[1..][i], KeyPrefix) &&
            ConfigKey(lines[1..]).value == Strip(lines[1..][i][|KeyPrefix|..], Quotes) &&
            (forall j :: 0 <= j < i ==> !StartsWith(lines[1..][j], KeyPrefix));
          assert lines[i + 1] == lines[1..][i];
        }
      }
    }
  }

  /** The key lookup loop over the config file's lines, stopping at the first line with the prefix. */
  method FindApiKey(lines: seq<string>) returns (key: Option<string>)
    ensures key == ConfigKey(lines)
  {
    key := None;
    var i := 0;
    while i < |lines|
      invariant 0 <= i <= |lines|
      invariant ConfigKey(lines) == ConfigKey(lines[i..])
    {
      assert lines[i..][0] == lines[i];
      assert lines[i..][1..] == lines[i + 1..];
      if StartsWith(lines[i], KeyPrefix) {
        KeyValueAfterPrefix(lines[i]);
        key := Some(KeyValue(lines[i]));
        return;
      }
      i := i + 1;
    }
  }

  /**
   * The key the analysis uses: the environment variable when it is set and
   * non-empty; otherwise, when the config file exists and has a key line,
   * that line's value; otherwise whatever the environment held.  `config` is
   * the config file's text, `None` when the file does not exist.
   */
  function ApiKey(env: Option<string>, config: Option<string>): Option<string> {
    if Truthy(env) then env
    else if config.Some? && ConfigKey(Split(config.value, '\n')).Some? then ConfigKey(Split(config.value, '\n'))
    else env
  }

  /** Where the key comes from: a set environment variable wins; otherwise the first key line of the config file; with neither, there is no usable key. */
  lemma ApiKeySources(env: Option<string>, config: Option<string>)
    ensures Truthy(env) ==> ApiKey(env, config) == env
    ensures !Truthy(env) && config.Some? && ConfigKey(Split(config.value, '\n')).Some? ==>
      (exists i :: 0 <= i < |Split(config.value, '\n')| && StartsWith(Split(config.value, '\n')[i], KeyPrefix) &&
         ApiKey(env, config) == Some(Strip(Split(config.value, '\n')[i][|KeyPrefix|..], Quotes)) &&
         (forall j :: 0 <= j < i ==> !StartsWith(Split(config.value, '\n')[j], KeyPrefix)))
    ensures !Truthy(env) && (config.None? || forall i :: 0 <= i < |Split(config.value, '\n')| ==> !StartsWith(Split(config.value, '\n')[i], KeyPrefix)) ==>
      !Truthy(ApiKey(env, config))
  {
    if config.Some? {
      ConfigKeyIsFirstMatch(Split(config.value, '\n'));
    }
  }

  /**
   * The key lookup with the config file read line by line.  It is a method
   * because the config lookup is the loop `FindApiKey`; `ApiKey` is the
   * function the proofs use for the same lookup.
   */
  method LookupApiKey(env: Option<string>, config: Option<string>) returns (key: Option<string>)
    ensures key == ApiKey(env, config)
  {
    key := env;
    if !Truthy(key) && config.Some? {
      var found := FindApiKey(Split(config.value, '\n'));
      if found.Some? {
        key := found;
      }
    }
  }

  // ---------------------------------------------------------------------------
  // The prompt

  const MaxPromptPosts: nat := 20
  /** Formatted text shorter than this is not sent for analysis. */
  const MinPromptLength: nat := 100
  const PostSeparator: string := "\n\n"
  /** The answer given instead of an analysis when there is too little text. */
  const Sentinel: string := "No major highlights this hour."

  function PostLine(p: Post): string {
    p.author + ": " + p.text
  }

  function PostLines(posts: seq<Post>): (r: seq<string>)
    ensures |r| == |posts|
    ensures forall k :: 0 <= k < |posts| ==> r[k] == PostLine(posts[k])
  {
    if posts == [] then [] else [PostLine(posts[0])] + PostLines(posts[1..])
  }

  /** The posts as the prompt shows them: the first 20, one `author: text` line each, separated by blank lines. */
  function FormatPosts(posts: seq<Post>): string {
    Join(PostLines(posts[..Min(MaxPromptPosts, |posts|)]), PostSeparator)
  }

  /** Each of the first 20 posts appears in the formatted text as its `author: text` line. */
  lemma FormatShowsFirstPosts(posts: seq<Post>, k: nat)
    requires k < Min(MaxPromptPosts, |posts|)
    ensures IsInfix(PostLine(posts[k]), FormatPosts(posts))
  {
    var lines := PostLines(posts[..Min(MaxPromptPosts, |posts|)]);
    assert lines[k] == PostLine(posts[k]);
    JoinContainsParts(lines, PostSeparator, k);
  }

  /** Posts after the 20th do not matter. */
  lemma FormatIgnoresLaterPosts(posts: seq<Post>, more: seq<Post>)
    requires |posts| >= MaxPromptPosts
    ensures FormatPosts(posts + more) == FormatPosts(posts)
  {
    assert (posts + more)[..MaxPromptPosts] == posts[..MaxPromptPosts];
  }

  /**
   * Four posts of the shape an adapter produces (a handle of at least one
   * character, a text of more than 20) already give at least 100 characters,
   * so they never fall back to the sentinel.
   */
  lemma FourPostsSuffice(posts: seq<Post>)
    requires |posts| >= 4
    requires forall k :: 0 <= k < |posts| ==> |posts[k].author| >= 1 && |posts[k].text| > MinTextLength
    ensures |FormatPosts(posts)| >= MinPromptLength
  {
    var shown := posts[..Min(MaxPromptPosts, |posts|)];
    var lines := PostLines(shown);
    forall k | 0 <= k < |lines| ensures |lines[k]| >= 24 {
      assert lines[k] == PostLine(shown[k]) && shown[k] == posts[k];
    }
    JoinLengthAtLeast(lines, PostSeparator, 24);
    assert |lines| >= 4;
  }

  const PromptHead: string :=
    "Analyze these recent crypto/Solana tweets and extract the most important highlights.\n\n" +
    "Focus on:\n" +
    "1. New token launches or announcements\n" +
    "2. Technical updates to protocols (Raydium, Meteora, Pump.fun)\n" +
    "3. Market-moving news\n" +
    "4. Notable alpha or trading insights\n" +
    "5. Partnerships or integrations\n\n" +
    "Tweets:\n"

  const PromptTail: string :=
    "\n\nProvide a concise summary (max 5 bullet points) of the most important/actionable information. \n" +
    "Use emojis for visual appeal. Format for Telegram (markdown).\n" +
    "If nothing significant, say \"" + Sentinel + "\"\n"

  /** The prompt sent to the model, with the formatted posts in the middle. */
  function Prompt(postText: string): string {
    PromptHead + postText + PromptTail
  }

  /** The formatted posts can be read back out of the prompt: it is the piece between the fixed head and tail. */
  function PromptPosts(prompt: string): string
    requires |prompt| >= |PromptHead| + |PromptTail|
  {
    prompt[|PromptHead|..|prompt| - |PromptTail|]
  }

  lemma PromptRoundTrip(postText: string)
    ensures |Prompt(postText)| >= |PromptHead| + |PromptTail|
    ensures PromptPosts(Prompt(postText)) == postText
    ensures OccursAt(postText, Prompt(postText), |PromptHead|)
  {
    var p := Prompt(postText);
    assert p[|PromptHead|..|PromptHead| + |postText|] == postText;
  }

  // ---------------------------------------------------------------------------
  // The reply

  /**
   * What the completion endpoint gave back: a failure (a status other than
   * 200, an error raised during the request, or a reply without the message
   * field), or the message's `content` and `reasoning` fields, `None` when
   * absent or null.
   */
  datatype Reply = Failed | Message(content: Option<string>, reasoning: Option<string>)

  /** The completion endpoint, as a function of the API key and the prompt. */
  type Completion = (string, string) -> Reply

  /** `content or reasoning or ""`, and `""` when the call failed. */
  function SelectReply(r: Reply): string {
    if r.Failed? then ""
    else if Truthy(r.content) then r.content.value
    else if Truthy(r.reasoning) then r.reasoning.value
    else ""
  }

  /**
   * The reply text is the content whenever that has text, the reasoning when
   * only that has, and empty exactly when the call failed or neither has text.
   */
  lemma SelectReplyPrefersContent(r: Reply)
    ensures r.Message? && Truthy(r.content) ==> SelectReply(r) == r.content.value
    ensures r.Message? && !Truthy(r.content) && Truthy(r.reasoning) ==> SelectReply(r) == r.reasoning.value
    ensures SelectReply(r) == "" <==> r.Failed? || (!Truthy(r.content) && !Truthy(r.reasoning))
  {
  }

  /** The credentials an analysis can draw on: the `CEREBRAS_API_KEY` variable and the config file's text. */
  datatype Credentials = Credentials(env: Option<string>, config: Option<string>)

  /** The result of analysing a batch of posts. */
  function Analysis(posts: seq<Post>, creds: Credentials, complete: Completion): string {
    var key := ApiKey(creds.env, creds.config);
    if !Truthy(key) then ""
    else
      var postText := FormatPosts(posts);
      if |postText| < MinPromptLength then Sentinel
      else SelectReply(complete(key.value, Prompt(postText)))
  }

  /**
   * The analysis as the scan runs it, with the key found by the line loop
   * of `LookupApiKey`; `Analysis` is the function the proofs use for it.
   */
  method AnalyzeWithCerebras(posts: seq<Post>, creds: Credentials, complete: Completion) returns (analysis: string)
    ensures analysis == Analysis(posts, creds, complete)
  {
    var key := LookupApiKey(creds.env, creds.config);
    if !Truthy(key) {
      return "";
    }
    var postText := FormatPosts(posts);
    if |postText| < MinPromptLength {
      return Sentinel;
    }
    var reply := complete(key.value, Prompt(postText));
    analysis := SelectReply(reply);
  }

  // ---------------------------------------------------------------------------
  // The notify guard

  const SentinelMarker: string := "No major highlights"
  /** An analysis must be longer than this to be posted. */
  const MinNoticeLength: nat := 50

  predicate ShouldNotify(analysis: string) {
    analysis != "" && !IsInfix(SentinelMarker, analysis) && |analysis| > MinNoticeLength
  }

  /** Neither an empty analysis nor the sentinel is ever posted, and nor is anything that mentions the sentinel phrase. */
  lemma SentinelNeverPosted(analysis: string)
    ensures !ShouldNotify("")
    ensures !ShouldNotify(Sentinel)
    ensures IsInfix(SentinelMarker, analysis) ==> !ShouldNotify(analysis)
  {
    assert Sentinel[0..|SentinelMarker|] == SentinelMarker;
    assert OccursAt(SentinelMarker, Sentinel, 0);
  }

  /**
   * What gets posted was produced by the model: a batch is only announced
   * when a key was found, there was enough text to ask, and the reply had
   * more than 50 characters without the sentinel phrase.
   */
  lemma NoticeComesFromReply(posts: seq<Post>, creds: Credentials, complete: Completion)
    requires ShouldNotify(Analysis(posts, creds, complete))
    ensures Truthy(ApiKey(creds.env, creds.config))
    ensures |FormatPosts(posts)| >= MinPromptLength
    ensures Analysis(posts, creds, complete) ==
      SelectReply(complete(ApiKey(creds.env, creds.config).value, Prompt(FormatPosts(posts))))
  {
    SentinelNeverPosted(Analysis(posts, creds, complete));
  }
}
