# Scrapy-TCC core in Dafny

A Dafny model of the pure logic inside Scrapy-TCC, a generator of web
scrapers. The user gives a URL and a free-text extraction prompt, a language
model writes a Python scraper for them, and the scraper is cached on disk
under a key derived from the request. The model covers three parts:

- **The static/dynamic page heuristic** (`WebPage._is_dynamic` and
  `__detect_js_framework`), in module `Classifier`. A fetched page is scored
  by five independent rules:
  - short HTML (+1);
  - few content elements (+1);
  - a script that mentions an AJAX literal (+2);
  - a framework marker in the lower-cased HTML (+2);
  - a `<div id="root">` or `<div id="app">` mount point (+1).

  A page scoring 3 or more is dynamic. A scored dynamic page is replaced by
  the browser-rendered page, and that page is not classified again. Absent
  or empty HTML counts as dynamic and is not scored. Each rule is a
  predicate (`Fires`), the fired rules form a set, and the score is a
  function of that set (`ScoreOf`). The regexes are literal substring
  searches (`Text.Contains`). The HTML parser's output is an input: the
  count of content elements and the serialised `script` elements.
- **The content-addressed cache and its session loop**
  (`Scrapy.__generate_hash` and `Scrapy.scrapy`), in modules `Cache` and
  `Agent`. The key is a digest of `url + prompt` with no separator. The
  artifact lives at `<folder>/<key>.py`. On a hit the stored artifact is run
  and nothing is generated. On a miss the session generates and runs the
  artifact, then does so again for as long as the user's reply upper-cases
  to `"Y"`. The digest, the generator and the user's replies are
  parameters: `hash: string -> string`, `generate: nat -> string` (the
  artifact the `i`-th call writes) and `replies: seq<string>`. The disk is a
  `map<string, string>` from path to file text.
- **The single-file draft** (`main.py`), in module `Draft`. It uses the
  same key, but spells the path `./scrapers/<key>.py` in one string. Its `generate_code` truncates the artifact file, writes a
  two-line `#` provenance header, then writes the streamed chunks in order.
  `script` runs the same hit/miss session in `./scrapers`. The stream of
  the `i`-th call is the parameter `streams(i): seq<string>`.

`Wrappers` holds `Option`. `Text` holds the string helpers: substring
search, the ASCII part of `str.lower`/`str.upper`, Python's whitespace
class, first-newline splitting and character counting.

The code has no validation step and no retry budget. A cache hit is trusted
as it is, and the artifact file is written in place rather than atomically.
`RerunAfterInterruptedStream` shows one consequence of the in-place
write: a stream that breaks off leaves a partial artifact, and the next
request treats it as a cache hit.

## Model

| member | source | states |
|---|---|---|
| Text.Contains | app/web_page/web_page.py:50 | a literal search succeeds exactly when the pattern occurs at some index of the text |
| Text.Lower | app/web_page/web_page.py:102 | lower-casing keeps the length, turns each capital into its small letter and keeps every other character, so no capital is left |
| Text.Upper | app/agents/scrapy.py:35 | upper-casing keeps the length, turns each small letter into its capital and keeps every other character, so no small letter is left |
| Classifier.Weight | app/web_page/web_page.py:72-114 | the AJAX and framework rules add 2 points, the length, content-count and SPA rules add 1 |
| Classifier.IsAjaxScript | app/web_page/web_page.py:91 | a script matches the AJAX regex exactly when one of its six literals occurs somewhere in it |
| Classifier.DetectFramework | app/web_page/web_page.py:41-50 | detection holds exactly when one of the six framework patterns occurs somewhere in the text |
| Classifier.SpaMountExactly | app/web_page/web_page.py:111 | the SPA regex matches at some position exactly when the text holds `<div`, a whitespace run and `id="root"` or `id="app"` |
| Classifier.HasSpaMount | app/web_page/web_page.py:111 | the SPA rule's search succeeds exactly when the text holds `<div`, one or more whitespace characters and then `id="root"` or `id="app"` |
| Classifier.Fires | app/web_page/web_page.py:72-111 | the five rule conditions: raw HTML shorter than 5000 characters, fewer than 10 content elements, some AJAX script, a framework pattern in the lower-cased HTML, a mount point in the lower-cased HTML |
| Classifier.AjaxScriptCount | app/web_page/web_page.py:89-94 | the count of AJAX scripts is at most the number of scripts; it is zero exactly when no script matches and full exactly when all do |
| Classifier.FiredRules | app/web_page/web_page.py:70-117 | a rule is in the fired set exactly when its condition holds on the page |
| Classifier.ScoreOf | app/web_page/web_page.py:70-114 | the score never exceeds 7 and is zero exactly when no rule fired |
| Classifier.Classify | app/web_page/web_page.py:65-117 | the page goes unscored exactly when its HTML is absent or empty; a scored page's fired set holds exactly the rules whose conditions hold on that page, and it scores the sum of the fired rules' weights, at most 7 |
| Classifier.Load | app/web_page/web_page.py:122-125 | the page is dynamic exactly when its HTML is absent or empty or its score reaches 3; the kept page is either the fetched or the rendered one |
| Classifier.AbsentHtmlIsDynamic | app/web_page/web_page.py:65-68 | absent or empty HTML is dynamic, unscored, and the fetched page is kept without a refetch |
| Classifier.ScoreAddsWeights | app/web_page/web_page.py:70-114 | adding a rule that had not fired raises the score by exactly its weight |
| Classifier.ScoreMonotone | app/web_page/web_page.py:72-114 | more fired rules never lower the score and never turn dynamic into static |
| Classifier.PageMonotone | app/web_page/web_page.py:72-122 | if every rule firing on one page also fires on another, the other scores at least as high and is dynamic whenever the first is |
| Classifier.DynamicCombinations | app/web_page/web_page.py:72-122 | the threshold is reached exactly by two heavy rules, by a heavy rule plus a light one, or by all three light rules |
| Classifier.SizeRulesAloneAreStatic | app/web_page/web_page.py:72-87 | with only the length and content-count rules firing the score is 2 and the page is static |
| Classifier.AjaxBonusIsFlat | app/web_page/web_page.py:89-97 | the AJAX rule fires exactly when some script matches, and it adds 2 however many scripts match |
| Classifier.CapitalLiteralNeverInLowered | app/web_page/web_page.py:102-103 | a pattern with a capital letter never occurs in lower-cased text |
| Classifier.FrameworkDetectionOnLoweredHtml | app/web_page/web_page.py:41-50 | on lower-cased HTML the Next.js and Nuxt patterns never match; detection holds exactly when `__react`, `__vue__`, `data-reactroot` or `ng-version` occurs |
| Classifier.SpaMountDetected | app/web_page/web_page.py:111 | `<div` with one or more whitespace characters and then `id="root"` or `id="app"` at an index is a match of the SPA regex at that index |
| Classifier.SpaMountNeedsWhitespace | app/web_page/web_page.py:111 | `<div` followed directly by a non-whitespace character is not a mount point at that position |
| Classifier.RefetchedPageIsNotReclassified | app/web_page/web_page.py:122-125 | the verdict does not depend on the rendered page; the rendered page is kept exactly on a scored dynamic verdict |
| Cache.Key | app/agents/scrapy.py:11-13 | the key is the digest of the plain concatenation `url + prompt`, with no separator |
| Cache.ArtifactPath | app/agents/scrapy.py:23 | the artifact sits directly in the folder, ends in `.py`, and the key can be read back from between the separator and the suffix |
| Cache.ArtifactPathInjective | app/agents/scrapy.py:23 | within one folder two keys give the same artifact path exactly when they are equal |
| Cache.PathDependsOnConcatenation | app/agents/scrapy.py:11-13 | requests whose `url + prompt` concatenations are equal share one artifact path |
| Cache.SeparatorlessKeysCollide | app/agents/scrapy.py:11-13 | `("ab", "c")` and `("a", "bc")` map to the same artifact |
| Cache.SharedArtifactIffSameConcatenation | app/agents/scrapy.py:11-23 | for a collision-free digest, two requests share an artifact exactly when their concatenations are equal |
| Cache.IsYes | app/agents/scrapy.py:35 | a reply continues the loop exactly when it is `y` or `Y`; nothing is trimmed |
| Cache.LeadingYes | app/agents/scrapy.py:29-35 | the count of continuing replies is a prefix length: all replies before it continue and the reply at it (if any) stops the loop |
| Cache.RunSession | app/agents/scrapy.py:21-35 | a hit runs the stored artifact once, generates nothing and leaves the store alone; a miss makes 1 + (leading "Y" replies) generation calls, runs each freshly generated artifact once in order, and leaves only the last artifact at the path; it ends by a decline exactly when a non-"Y" reply was read |
| Agent.Scrapy | app/agents/scrapy.py:21-35 | the key is computed once, so every regeneration writes the same path and no other entry of the store changes; a hit runs the stored artifact and generates nothing; a miss generates 1 + (leading "Y" replies) artifacts, runs each in order, keeps the last, and ends by a decline exactly when a non-"Y" reply was read and by end of input exactly when every reply was "Y" |
| Draft.Header | main.py:67-69 | the provenance header: `# Site URL: <url>`, a newline, `# Prompt: <prompt>`, a newline |
| Draft.ArtifactContent | main.py:66-75 | a completed stream leaves the header followed by the chunk texts in stream order |
| Draft.Concat | main.py:70-75 | the chunk texts written in stream order lose and add nothing: the joined text is as long as the chunks together |
| Draft.ConcatAppend | main.py:70-75 | streaming one more chunk appends its text to the joined stream |
| Draft.GenerateCode | main.py:66-75 | after the write the artifact is the header followed by the chunks in stream order, whatever the path held before; no other entry changes |
| Draft.ParseArtifact | main.py:67-69 | a successfully read artifact is exactly a header with newline-free fields followed by the code |
| Draft.ParseArtifactRoundTrip | main.py:66-75 | with newline-free URL and prompt, reading the header back gives the request and the joined chunks |
| Draft.HeaderNewlines | main.py:67-69 | the header holds two newlines plus those inside the URL and the prompt |
| Draft.HeaderLines | main.py:67-69 | with a newline-free URL the header splits into the URL line and the prompt line, each starting with `#` |
| Draft.ScriptPath | main.py:94 | the draft's artifact path, written as the single string `./scrapers/<key>.py` |
| Draft.Script | main.py:89-106 | the script session uses `./scrapers/<key>.py`; a hit runs the stored file without generating; a miss generates 1 + (leading "Y" replies) artifacts, each built from its own stream, keeps the last one, and ends by a decline exactly when a non-"Y" reply was read and by end of input exactly when every reply was "Y" |
| Draft.SameArtifactAsAgent | main.py:94 | for every key the draft's one-string path equals the agent's path built by joining its default folder `./scrapers` (app/agents/scrapy.py:7 and :23) with `<key>.py` |
| Draft.RerunAfterInterruptedStream | main.py:66-75 | after a stream breaks off, the header and the chunks received so far are on disk, and the next script run for that request is a hit that runs them and generates nothing |

## Left out

- Fetching (`fetch_html`, `fetch_dynamic_page`): network and browser I/O. The classifier takes the fetched and the rendered page as inputs. On a non-ok response `fetch_html` returns a bare `None`, so the tuple unpacking in `__init__` fails. That defect lies in the I/O layer and is not modelled.
- HTML parsing: BeautifulSoup is an opaque library. The number of content elements and the serialised `script` elements are inputs.
- The `explanation` flag of `_is_dynamic`: it only gates console output, so the model has no such parameter, and the verdict cannot depend on it.
- General regex semantics: only the literal alternatives and the `<div\s+id=...` pattern are modelled. `\s` is the set of characters for which `str.isspace` holds.
- Text.Lower: only ASCII letters are lower-cased. Non-ASCII case mappings (including ones that change a string's length) are not modelled. Under Python's full mapping two things the verdicts rely on still hold. First, no ASCII capital survives `str.lower`. Second, a non-ASCII character that lower-cases into ASCII letters cannot complete a match. The two such characters are U+212A (to `k`) and U+0130 (to `i` followed by U+0307). No pattern contains `k`. Every `i` in `<div`, `id=` and `ng-version` is followed by an ASCII character, which U+0307 does not match.
- Text.Upper: only ASCII letters are upper-cased. Under Python's full mapping too, only `y` and `Y` upper-case to `"Y"`.
- SHA-256: the digest is a function parameter, not an implementation. Distinct-key results assume a collision-free digest (`Cache.Injective`).
- The language-model client and streaming (app/language_models/gemini.py and the network half of `generate_code`): the generator output and the chunk stream are parameters. Prompt formatting is not modelled. A chunk whose text is `None` is not modelled.
- `generate_and_validate`: the agent calls it, but the language-model interface and the Gemini class only define `generate_code`. The model treats it as an opaque call that writes the `i`-th artifact at the path. No validation or retry budget exists in the code, so none is modelled.
- Loading and running artifacts (`importlib`): the result of running generated code is opaque. The model records which artifact text was run. An exception from generated code, which would end the session, is not modelled.
- Draft.Script: every stream is assumed to complete. What an interrupted stream leaves on disk is modelled by `RerunAfterInterruptedStream`.
- `input()` at end of input raises `EOFError`. The model ends the session with `InputExhausted` at that point, after the generation and run that preceded the read.
- Paths are plain strings. `pathlib` normalisation (`./scrapers` versus `scrapers`) is not modelled, and neither are file-system errors such as a missing folder.
- Console glue: `print`, the `timeit` decorator (wall-clock floats), and the entry points in app/main.py. app/language_models/llm.py is an abstract interface with no logic.
