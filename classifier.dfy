/**
 * The user-agent classifier of both SDK revisions: the regular expression
 * /bot|crawl|spider|chatgpt|gptbot|perplexity/i tested against the
 * user-agent string. A match anywhere, in any ASCII letter case, marks the
 * visitor as an automated agent.
 */
module Classifier {

  /** The alternatives of the classifier's regular expression, in its order. */
  const BotTokens: seq<string> := ["bot", "crawl", "spider", "chatgpt", "gptbot", "perplexity"]

  /** ASCII lower-casing of one character (the `i` flag, restricted to ASCII). */
  function LowerChar(c: char): char
  {
    if 'A' <= c <= 'Z' then (c as int - 'A' as int + 'a' as int) as char else c
  }

  function Lower(s: string): (r: string)
    ensures |r| == |s|
    ensures forall i :: 0 <= i < |s| ==> r[i] == LowerChar(s[i])
  {
    seq(|s|, i requires 0 <= i < |s| => LowerChar(s[i]))
  }

  /** Two strings that differ only in the case of their letters. */
  ghost predicate SameIgnoringCase(a: string, b: string)
  {
    |a| == |b| && forall i :: 0 <= i < |a| ==> LowerChar(a[i]) == LowerChar(b[i])
  }

  /** `t` occurs in `s` starting at position `i`. */
  ghost predicate OccursAt(s: string, t: string, i: nat)
  {
    i + |t| <= |s| && s[i..i + |t|] == t
  }

  ghost predicate Occurs(s: string, t: string)
  {
    exists i: nat :: OccursAt(s, t, i)
  }

  /** Left-to-right search for `t` in `s` from position `from` on. */
  function SearchFrom(s: string, t: string, from: nat): (found: bool)
    requires from <= |s|
    ensures found <==> exists i: nat :: from <= i && OccursAt(s, t, i)
    decreases |s| - from
  {
    if from + |t| > |s| then false
    else if s[from..from + |t|] == t then assert OccursAt(s, t, from); true
    else SearchFrom(s, t, from + 1)
  }

  /** Does any of `tokens` occur in `s`? */
  function MatchesAny(s: string, tokens: seq<string>): (found: bool)
    ensures found <==> exists k :: 0 <= k < |tokens| && Occurs(s, tokens[k])
  {
    if tokens == [] then false
    else SearchFrom(s, tokens[0], 0) || MatchesAny(s, tokens[1..])
  }

  /** The classifier: true exactly when some bot token occurs in the
    * lower-cased user agent. */
  function IsBotUA(ua: string): (bot: bool)
    ensures bot <==> exists k, i: nat :: 0 <= k < |BotTokens| && OccursAt(Lower(ua), BotTokens[k], i)
  {
    MatchesAny(Lower(ua), BotTokens)
  }

  /** The `gptbot` alternative never decides anything: every string that
    * contains it also contains `bot`. */
  lemma GptbotSubsumedByBot(s: string)
    requires Occurs(s, "gptbot")
    ensures Occurs(s, "bot")
  {
    var i: nat :| OccursAt(s, "gptbot", i);
    assert s[i + 3..i + 6] == s[i..i + 6][3..6];
    assert OccursAt(s, "bot", i + 3);
  }

  /** The classifier ignores letter case: re-casing a user agent never
    * changes the verdict. */
  lemma ClassifierIgnoresCase(a: string, b: string)
    requires SameIgnoringCase(a, b)
    ensures IsBotUA(a) == IsBotUA(b)
  {
    assert Lower(a) == Lower(b);
  }

  /** The AI-crawler user agent of the published scenario is classified as a bot. */
  lemma GptBotUserAgentIsBot()
    ensures IsBotUA("Mozilla/5.0 (compatible; GPTBot/1.0)")
  {
    var ua := "Mozilla/5.0 (compatible; GPTBot/1.0)";
    var low := Lower(ua);
    assert low[28] == 'b' && low[29] == 'o' && low[30] == 't';
    assert low[28..31] == BotTokens[0];
    assert OccursAt(low, BotTokens[0], 28);
  }
}
