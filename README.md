# Paywall-Lite visitor gate, modelled in Dafny

Paywall-Lite is an embeddable script that meters free article views per site.
It tells crawlers apart from people and decides whether to reveal the page, show
a bot notice, or put up a paywall with an optional email regwall. This project
models the gate's core in two revisions of the SDK:

- `sdk.js` (v0.1, the blur edition). The content is blurred when the page is
  ready. The quota check is a real request that allows when it throws or gets
  a non-2xx status; a 2xx reply that is not JSON makes the page load stop with
  the content blurred (see Findings). Cancelling the regwall leaves the content
  blurred. Registration unlocks only when the request does not throw.
- `sdk_fade.js` (v0.3, the bottom-half fade edition). The content is
  untouched until the decision, and a denial adds one fade element. The quota
  check is a stub that always allows. Cancelling the regwall unlocks the page.
  Registration always unlocks, and with no backend configured nothing is sent.

Modules, one per component:

- `Classifier` (classifier.dfy): the user-agent test
  `/bot|crawl|spider|chatgpt|gptbot|perplexity/i`. It is a recursive substring
  search over the ASCII-lower-cased agent. It is proved equal to "some token
  occurs somewhere".
- `Meter` (meter.dfy): local storage as a map from keys to stored values, the
  key `pw_meter_<site>`, and loadMeter/saveMeter. Both revisions share these
  functions. `MeterStore` is the storage object that the pages update in place.
- `Gateway` (gateway.dfy): the requests a page sends (quota check, hit,
  register) as values. It also maps how the quota check ended to a verdict.
- `Access` (access.dfy): `Decide`, the once-per-page-load decision that both
  revisions' initPaywall make, and the values a page renders.
- `BlurEdition` (blur_edition.dfy) and `FadeEdition` (fade_edition.dfy): one
  class per revision. Its fields are the page state: phase, content, prompt on
  screen, blur or fade count, the requests sent, and the meter store. Its methods
  are initPaywall and the click handlers. Each page class has a `Valid()`
  invariant that initPaywall and every click handler keep. Small scenario
  methods replay concrete page loads against each class: a visitor within the
  default quota whose quota check is unreachable or answers with a 2xx reply
  that is not JSON, a visitor at the quota, an AI crawler, a regwall that is
  cancelled or submitted.

The user agent, the page path, the way the quota check ended and whether the
register request threw are parameters of the methods. Requests are recorded
in the page's `sent` log instead of being sent.

## Model

| member | source | states |
|---|---|---|
| Classifier.IsBotUA | sdk.js:11 | true exactly when one of bot, crawl, spider, chatgpt, gptbot, perplexity occurs somewhere in the user agent, ignoring ASCII letter case |
| Classifier.SearchFrom | sdk.js:11 | the regex scan for one alternative: true exactly when the token occurs at or after the start position |
| Classifier.MatchesAny | sdk.js:11 | the alternation: true exactly when some alternative occurs |
| Classifier.GptbotSubsumedByBot | sdk.js:11 | every string containing `gptbot` also contains `bot`, so that alternative never changes the verdict |
| Classifier.ClassifierIgnoresCase | sdk_fade.js:11-13 | two user agents that differ only in letter case get the same verdict |
| Classifier.GptBotUserAgentIsBot | sdk.js:11 | the AI-crawler agent `Mozilla/5.0 (compatible; GPTBot/1.0)` is classified as a bot |
| Meter.KeyInjective | sdk.js:10 | distinct sites have distinct storage keys, so they never share a meter |
| Meter.LoadMeter | sdk.js:46-52 | the stored integer, or 0 when the key is absent or the stored text does not parse |
| Meter.SaveMeter | sdk.js:53-55 | after saving v, loading gives v back; every other key and every other site's meter is unchanged |
| Meter.MeterStore.Save | sdk_fade.js:47-49 | the storage becomes SaveMeter of the old storage, and this site's meter reads v |
| Gateway.ServerCheck | sdk.js:24-35 | fail-open: the check denies exactly on a 2xx reply whose `allowed` is falsy; a thrown request, a non-2xx status and an unreadable body all allow |
| Gateway.ServerCheckAsWritten | sdk.js:24-35 | as written, the check rejects exactly on a 2xx reply with an unparsable body, and otherwise agrees with ServerCheck |
| Gateway.MalformedBodyEscapesFailOpen | sdk.js:31-33 | on a 2xx reply with an unparsable body the code as written rejects where the fail-open check allows |
| Access.Decide | sdk.js:153-176 | bot iff BotGranted; the quota check is consulted iff human and count < quota; Granted iff consulted and allowed; Denied iff human and (count >= quota or denied); a grant adds exactly 1 and never passes the quota, any other outcome leaves the count |
| Access.BackendOnlyTightens | sdk.js:162-173 | the backend can only narrow the local allowance: no answer grants past the quota, and any granted visitor would also be granted by an allowing answer |
| BlurEdition.BlurPage.InitPaywall | sdk.js:145-177 | the pass aborts exactly for a human within quota whose check gets a 2xx non-JSON reply, leaving the content blurred, no prompt, the meter untouched and only the check sent; otherwise the outcome is Decide on the classifier, the loaded meter and the fail-open verdict; only a grant saves count + 1 and logs a check and a hit; a bot gets the notice, no blur and no meter access; a denial keeps the blur and shows the paywall; without quota left no request is sent |
| BlurEdition.BlurPage.OpenRegwall | sdk.js:136-141 | reachable only when the regwall is offered; the paywall is replaced by the regwall and nothing else changes |
| BlurEdition.BlurPage.Submit | sdk.js:91-104 | an empty email changes nothing; another email logs the register request; only if it did not throw is the meter reset to 0, the regwall removed and the blur lifted, and otherwise the state stays as it was |
| BlurEdition.BlurPage.Cancel | sdk.js:106-109 | the regwall is removed and the content stays blurred; the meter and the log are untouched |
| FadeEdition.FadePage.RemoveFadeOverlay | sdk_fade.js:191-197 | removes the fade element if there is one |
| FadeEdition.FadePage.CreateFadeOverlay | sdk_fade.js:157-189 | removes any fade first and then adds one, so a page that had at most one fade has exactly one |
| FadeEdition.FadePage.InitPaywall | sdk_fade.js:202-228 | the outcome is Decide with an always-allowing check, so for a human it is Granted exactly when count < quota; a grant saves count + 1 with no fade; a denial leaves the meter, creates exactly one fade and shows the paywall; a bot never touches the meter; no request is sent |
| FadeEdition.FadePage.OpenRegwall | sdk_fade.js:146-151 | reachable only when the regwall is offered; the paywall is replaced by the regwall and the fade stays |
| FadeEdition.FadePage.Submit | sdk_fade.js:89-112 | an empty email changes nothing; any other email resets the meter to 0 and removes the regwall and the fade, whether or not registration throws; a register request is logged only when a backend is configured |
| FadeEdition.FadePage.Cancel | sdk_fade.js:114-118 | removes the regwall and the fade, unlocking the content, and does not touch the meter |

Behaviour of the code that the model keeps as written:

- In sdk.js the register request is awaited without a guard (sdk.js:95-103),
  so a thrown request ends the handler before the meter reset and the unlock.
  `BlurPage.Submit` models this; sdk_fade.js catches the failure and unlocks.
- Both revisions await the register request before unlocking. The model is
  sequential, so only how the call ended matters.
- In sdk.js a 2xx quota reply that is not JSON escapes the fail-open `catch`;
  `BlurPage.InitPaywall` then ends in the `Aborted` phase. See Findings.

## Left out

- Locating the content element (`findContent`), the `if (!target)` early return, HTML templates, CSS, z-indexes and `position: relative`. These are presentation only.
- The HTTP transport and JSON bodies. The quota check's ending, the register failure and the page path are method inputs. Hits and registrations are logged in `sent`, not sent, and their replies are ignored, as in the source.
- The 600 ms dissolve timer of `removeFadeOverlay`. Removal is immediate, so the brief moment when an old fade and a new one are both attached is not modelled.
- Cross-tab races on local storage. Each page load runs alone against one storage map.
- Parsing the script tag's `data-*` attributes, including `parseInt` returning NaN. The configuration is a value with a natural-number quota. Each revision's defaults are given as `Defaults`.
- Full `JSON.parse` semantics of the stored meter. A stored value is either an integer or unparsable. Floats, strings, booleans and `null` are not modelled.
- Storage that throws. A throwing `getItem` makes loadMeter return 0, the same as an absent key. A throwing `setItem` is not modelled: `Save` always succeeds.
- Non-ASCII letters. Case is folded for ASCII letters only. The tokens are ASCII, and the regex `i` flag without `u` never maps a non-ASCII character onto an ASCII one, so nothing is lost for these tokens.
- `alert("Email required")` and `console.warn`. An empty email is modelled as no state change.
- A second click on the blur regwall's submit button while the first register request is pending. This is concurrent interleaving of two handlers.
- Floating-point counts. JavaScript numbers are doubles, so `count++` (sdk.js:167, sdk_fade.js:218) stops changing the count once it reaches 2^53; the model's `count + 1` is exact. A grant needs count < quota, so this only matters with a quota above 2^53.
- A 2xx quota reply whose body is JSON `null`, which makes `server.allowed` throw in initPaywall. Only unparsable bodies are modelled as `Malformed`.
- The handlers' `requires` clauses say that the button is on screen. The source attaches each handler only to the prompt it belongs to. `InitPaywall` requires the loading phase because DOMContentLoaded fires once per document.

## Findings

| source | as written | input that shows it | evidently intended | confidence | as-written member | corrected member |
|---|---|---|---|---|---|---|
| sdk.js:31 | `return r.ok ? r.json() : { allowed: true }` returns the promise of `r.json()` from inside `try` without awaiting it, so its rejection is not caught and `serverCheck` rejects; `initPaywall` then stops at sdk.js:164 with the content blurred, no paywall and the meter untouched (`BlurEdition.BlurPage.InitPaywall` ends in `Aborted`, and `ScenarioMalformedReply` replays it) | a 2xx reply to `/meter/check` whose body is not JSON | the `catch` marked fail-open covers it and the check allows, as it does for a thrown request or a non-2xx status | high, not executed | Gateway.ServerCheckAsWritten | Gateway.ServerCheck |

`BlurPage.InitPaywall` keeps the code as written: it settles the check with
`ServerCheckAsWritten`, and on every reply that resolves it decides with the
corrected `ServerCheck`, which agrees there.
