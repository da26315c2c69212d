/** The static/dynamic page heuristic of `WebPage` (app/web_page/web_page.py).

    A fetched page is scored by five independent rules; a total of at least
    three points labels it dynamic, and a dynamic label on a scored page makes
    the constructor replace the page by the browser-rendered one. A page whose
    HTML is absent or empty is labelled dynamic without being scored. */
module Classifier {
  import opened Wrappers
  import opened Text

  /** What the heuristic reads of a fetched page: the raw HTML (absent when the
      fetch failed), how many content elements (`p`, `h1`, `h2`, `h3`, `li`,
      `table`, `article`, `section`) the HTML parser found, and every `script`
      element as the parser serialises it. */
  datatype Page = Page(html: Option<string>, contentTags: nat, scripts: seq<string>)

  datatype Rule = ShortHtml | FewContentTags | AjaxScript | FrameworkMarker | SpaMount

  const AllRules: set<Rule> := {ShortHtml, FewContentTags, AjaxScript, FrameworkMarker, SpaMount}

  /** Points a rule adds when it fires: the two rules that look at script
      evidence weigh 2, the other three weigh 1. */
  function Weight(r: Rule): (w: nat)
    ensures w == 1 || w == 2
    ensures w == 2 <==> r.AjaxScript? || r.FrameworkMarker?
  {
    match r
    case ShortHtml => 1
    case FewContentTags => 1
    case AjaxScript => 2
    case FrameworkMarker => 2
    case SpaMount => 1
  }

  const ShortHtmlLimit: nat := 5000
  const FewTagsLimit: nat := 10
  const DynamicThreshold: nat := 3

  /** The alternatives of the AJAX regex, searched case-sensitively. */
  const AjaxLiterals: seq<string> := ["fetch", "XMLHttpRequest", "axios", ".then(", "/api/", ".json"]

  /** The framework regexes, searched in the lower-cased HTML. */
  const FrameworkPatterns: seq<string> :=
    ["window.__NEXT_DATA__", "__react", "__vue__", "data-reactroot", "ng-version", "window.__NUXT__"]

  /** The two attributes of a single-page-app mount point. */
  const MountIds: seq<string> := ["id=\"root\"", "id=\"app\""]

  predicate ContainsAny(s: string, pats: seq<string>) {
    exists k :: 0 <= k < |pats| && Contains(s, pats[k])
  }

  /** The AJAX regex finds a match in `script`: one of the literals occurs
      somewhere in it. */
  function IsAjaxScript(script: string): (b: bool)
    ensures b <==> exists k, i :: 0 <= k < |AjaxLiterals| && OccursAt(script, AjaxLiterals[k], i)
  {
    ContainsAny(script, AjaxLiterals)
  }

  /** The number of scripts that mention an AJAX literal (`scripts_with_ajax`). */
  function AjaxScriptCount(scripts: seq<string>): (n: nat)
    ensures n <= |scripts|
    ensures n == 0 <==> forall i :: 0 <= i < |scripts| ==> !IsAjaxScript(scripts[i])
    ensures n == |scripts| <==> forall i :: 0 <= i < |scripts| ==> IsAjaxScript(scripts[i])
  {
    if |scripts| == 0 then 0
    else
      var rest := AjaxScriptCount(scripts[1..]);
      assert forall i :: 1 <= i < |scripts| ==> scripts[i] == scripts[1..][i - 1];
      (if IsAjaxScript(scripts[0]) then 1 else 0) + rest
  }

  /** `__detect_js_framework`: one of the framework patterns occurs
      somewhere in `html`. */
  function DetectFramework(html: string): (b: bool)
    ensures b <==> exists k, i :: 0 <= k < |FrameworkPatterns| && OccursAt(html, FrameworkPatterns[k], i)
  {
    ContainsAny(html, FrameworkPatterns)
  }

  /** `\s+` followed by a mount attribute, anchored at the start of `t`. */
  predicate SpacesThenMountId(t: string)
    decreases |t|
  {
    && |t| > 0
    && IsWhitespace(t[0])
    && (StartsWith(t[1..], MountIds[0]) || StartsWith(t[1..], MountIds[1]) || SpacesThenMountId(t[1..]))
  }

  /** The SPA regex matches at index `i` of `html`. */
  predicate SpaMountAt(html: string, i: nat) {
    i + 4 <= |html| && html[i..i + 4] == "<div" && SpacesThenMountId(html[i + 4..])
  }

  /** An occurrence the SPA regex matches at index `i`: `<div`, one or more
      whitespace characters `spaces`, then the mount attribute `id`. */
  predicate IsMountMatch(html: string, i: nat, spaces: string, id: string) {
    && |spaces| > 0 && (forall k :: 0 <= k < |spaces| ==> IsWhitespace(spaces[k]))
    && (id == MountIds[0] || id == MountIds[1])
    && OccursAt(html, "<div" + spaces + id, i)
  }

  /** A match of `\s+id=...` at the start of `t` splits into its whitespace
      run and the mount attribute. */
  lemma {:induction false} SpacesThenMountIdSplit(t: string) returns (spaces: string, id: string)
    requires SpacesThenMountId(t)
    ensures |spaces| > 0 && forall k :: 0 <= k < |spaces| ==> IsWhitespace(spaces[k])
    ensures id == MountIds[0] || id == MountIds[1]
    ensures StartsWith(t, spaces + id)
    decreases |t|
  {
    if StartsWith(t[1..], MountIds[0]) {
      spaces, id := t[..1], MountIds[0];
      assert t[..|spaces + id|] == t[..1] + t[1..][..|id|];
    } else if StartsWith(t[1..], MountIds[1]) {
      spaces, id := t[..1], MountIds[1];
      assert t[..|spaces + id|] == t[..1] + t[1..][..|id|];
    } else {
      var more, mount := SpacesThenMountIdSplit(t[1..]);
      spaces, id := t[..1] + more, mount;
      assert t[..|spaces + id|] == t[..1] + t[1..][..|more + mount|];
    }
  }

  /** `<div`, at least one whitespace character and `id="root"` or
      `id="app"` at index `i` are a match of the SPA regex there. */
  lemma SpaMountDetected(html: string, i: nat, spaces: string, id: string)
    requires IsMountMatch(html, i, spaces, id)
    ensures SpaMountAt(html, i)
  {
    var m := "<div" + spaces + id;
    var rest := html[i + |m|..];
    assert html[i..] == m + rest;
    assert html[i..i + 4] == "<div";
    assert html[i + 4..] == spaces + id + rest;
    SpacesThenMountIdHolds(spaces, id, rest);
  }

  /** The regex matches at some position exactly when the text holds such
      an occurrence. */
  lemma SpaMountExactly(html: string)
    ensures (exists i: nat :: i <= |html| && SpaMountAt(html, i))
            <==> exists i: nat, spaces, id :: IsMountMatch(html, i, spaces, id)
  {
    if i: nat :| i <= |html| && SpaMountAt(html, i) {
      var spaces, id := SpacesThenMountIdSplit(html[i + 4..]);
      var m := "<div" + spaces + id;
      assert html[i..i + |m|] == html[i..i + 4] + html[i + 4..][..|spaces + id|];
      assert IsMountMatch(html, i, spaces, id);
    }
    if i: nat, spaces, id :| IsMountMatch(html, i, spaces, id) {
      SpaMountDetected(html, i, spaces, id);
    }
  }

  /** `re.search(r'<div\s+id="root"|<div\s+id="app"', ...)`: a match exists
      exactly when the text holds `<div`, a whitespace run and a mount
      attribute. */
  function HasSpaMount(html: string): (b: bool)
    ensures b <==> exists i: nat, spaces, id :: IsMountMatch(html, i, spaces, id)
  {
    SpaMountExactly(html);
    exists i: nat :: i <= |html| && SpaMountAt(html, i)
  }

  /** Whether rule `r` fires on a page whose HTML is `html`. The length rule
      reads the HTML as fetched; the framework and SPA rules read it
      lower-cased. */
  predicate Fires(r: Rule, html: string, contentTags: nat, scripts: seq<string>) {
    match r
    case ShortHtml => |html| < ShortHtmlLimit
    case FewContentTags => contentTags < FewTagsLimit
    case AjaxScript => AjaxScriptCount(scripts) > 0
    case FrameworkMarker => DetectFramework(Lower(html))
    case SpaMount => HasSpaMount(Lower(html))
  }

  function FiredRules(html: string, contentTags: nat, scripts: seq<string>): (fired: set<Rule>)
    ensures forall r :: r in fired <==> Fires(r, html, contentTags, scripts)
  {
    set r | r in AllRules && Fires(r, html, contentTags, scripts)
  }

  function Points(r: Rule, fired: set<Rule>): nat {
    if r in fired then Weight(r) else 0
  }

  /** The heuristic score: each rule that fired adds its weight once. */
  function ScoreOf(fired: set<Rule>): (score: nat)
    ensures score <= 7
    ensures score == 0 <==> fired == {}
  {
    assert forall r :: r in fired ==> r.ShortHtml? || r.FewContentTags? || r.AjaxScript? || r.FrameworkMarker? || r.SpaMount?;
    Points(ShortHtml, fired) + Points(FewContentTags, fired) + Points(AjaxScript, fired)
      + Points(FrameworkMarker, fired) + Points(SpaMount, fired)
  }

  /** The classifier's verdict: `Unscored` when there was no HTML to score,
      otherwise the rules that fired and the resulting score. */
  datatype Verdict = Unscored | Scored(fired: set<Rule>, score: nat) {

    /** The boolean `_is_dynamic` returns. */
    predicate IsDynamic() {
      Unscored? || score >= DynamicThreshold
    }

    /** Whether `_is_dynamic` re-fetches the page through the browser. */
    predicate Refetches() {
      Scored? && score >= DynamicThreshold
    }
  }

  /** `_is_dynamic`, without the console explanation. */
  function Classify(page: Page): (v: Verdict)
    ensures v.Unscored? <==> page.html == None || page.html == Some("")
    ensures v.Scored? ==> v.score <= 7 && v.fired <= AllRules
    ensures v.Scored? ==> forall r :: r in v.fired <==> Fires(r, page.html.value, page.contentTags, page.scripts)
    ensures v.Scored? ==> v.score == ScoreOf(v.fired)
  {
    match page.html
    case None => Unscored
    case Some(html) =>
      if html == "" then Unscored
      else
        var fired := FiredRules(html, page.contentTags, page.scripts);
        Scored(fired, ScoreOf(fired))
  }

  /** The state `WebPage.__init__` leaves: the page it keeps and the flag
      `is_dynamic`. */
  datatype WebPage = WebPage(page: Page, isDynamic: bool)

  /** `WebPage.__init__` given what the plain fetch and the browser fetch
      return: the plain page is classified once; on a scored dynamic verdict
      the browser page replaces it and is not classified again. */
  function Load(fetched: Page, rendered: Page): (w: WebPage)
    ensures w.isDynamic <==> fetched.html == None || fetched.html == Some("")
                              || ScoreOf(FiredRules(fetched.html.value, fetched.contentTags, fetched.scripts)) >= DynamicThreshold
    ensures w.page == fetched || w.page == rendered
  {
    var v := Classify(fetched);
    WebPage(if v.Refetches() then rendered else fetched, v.IsDynamic())
  }

  // ---------------------------------------------------------------------------
  // Properties of the heuristic

  /** Absent or empty HTML is dynamic at once: nothing is scored and the
      browser is not asked for the page. */
  lemma AbsentHtmlIsDynamic(fetched: Page, rendered: Page)
    requires fetched.html == None || fetched.html == Some("")
    ensures Classify(fetched) == Unscored
    ensures Load(fetched, rendered).isDynamic
    ensures Load(fetched, rendered).page == fetched
  {
  }

  /** The score is the sum of the weights of the rules that fired. */
  lemma ScoreAddsWeights(fired: set<Rule>, r: Rule)
    requires r !in fired
    ensures ScoreOf(fired + {r}) == ScoreOf(fired) + Weight(r)
  {
  }

  /** Making one more rule fire never lowers the score. */
  lemma ScoreMonotone(fired: set<Rule>, more: set<Rule>)
    requires fired <= more
    ensures ScoreOf(fired) <= ScoreOf(more)
    ensures ScoreOf(fired) >= DynamicThreshold ==> ScoreOf(more) >= DynamicThreshold
  {
  }

  /** Monotonicity at page level: if every rule that fires on `p` also fires
      on `q`, then `q` scores at least as high and a dynamic `p` makes a
      dynamic `q`. */
  lemma PageMonotone(p: Page, q: Page)
    requires p.html.Some? && p.html.value != "" && q.html.Some? && q.html.value != ""
    requires forall r :: Fires(r, p.html.value, p.contentTags, p.scripts) ==> Fires(r, q.html.value, q.contentTags, q.scripts)
    ensures Classify(p).score <= Classify(q).score
    ensures Classify(p).IsDynamic() ==> Classify(q).IsDynamic()
  {
  }

  /** Exactly which combinations of rules reach the threshold: two heavy
      rules, a heavy rule with any light one, or all three light rules. */
  lemma DynamicCombinations(fired: set<Rule>)
    ensures ScoreOf(fired) >= DynamicThreshold <==>
      || (AjaxScript in fired && FrameworkMarker in fired)
      || ((AjaxScript in fired || FrameworkMarker in fired)
          && (ShortHtml in fired || FewContentTags in fired || SpaMount in fired))
      || (ShortHtml in fired && FewContentTags in fired && SpaMount in fired)
  {
  }

  /** A small page with few content elements and nothing else is static:
      the two size rules alone score 2. */
  lemma SizeRulesAloneAreStatic(page: Page)
    requires page.html.Some? && page.html.value != ""
    requires Fires(ShortHtml, page.html.value, page.contentTags, page.scripts)
    requires Fires(FewContentTags, page.html.value, page.contentTags, page.scripts)
    requires !Fires(AjaxScript, page.html.value, page.contentTags, page.scripts)
    requires !Fires(FrameworkMarker, page.html.value, page.contentTags, page.scripts)
    requires !Fires(SpaMount, page.html.value, page.contentTags, page.scripts)
    ensures Classify(page) == Scored({ShortHtml, FewContentTags}, 2)
    ensures !Classify(page).IsDynamic()
  {
  }

  /** The AJAX rule: it fires exactly when some script mentions a literal,
      and it adds 2 however many scripts do. */
  lemma AjaxBonusIsFlat(html: string, contentTags: nat, scripts: seq<string>)
    ensures Fires(AjaxScript, html, contentTags, scripts) <==> exists i :: 0 <= i < |scripts| && IsAjaxScript(scripts[i])
    ensures Points(AjaxScript, FiredRules(html, contentTags, scripts))
            == (if exists i :: 0 <= i < |scripts| && IsAjaxScript(scripts[i]) then 2 else 0)
  {
  }

  /** A literal with a capital letter never occurs in lower-cased text. */
  lemma CapitalLiteralNeverInLowered(text: string, p: string, j: nat)
    requires j < |p| && IsUpperAscii(p[j])
    ensures !Contains(Lower(text), p)
  {
  }

  /** Because framework detection runs on lower-cased HTML, the Next.js and
      Nuxt patterns (which carry capitals) never match, and detection reduces
      to the four all-lower-case markers. */
  lemma FrameworkDetectionOnLoweredHtml(html: string)
    ensures !Contains(Lower(html), FrameworkPatterns[0])
    ensures !Contains(Lower(html), FrameworkPatterns[5])
    ensures DetectFramework(Lower(html)) <==>
      || Contains(Lower(html), "__react")
      || Contains(Lower(html), "__vue__")
      || Contains(Lower(html), "data-reactroot")
      || Contains(Lower(html), "ng-version")
  {
    CapitalLiteralNeverInLowered(html, FrameworkPatterns[0], 9);
    CapitalLiteralNeverInLowered(html, FrameworkPatterns[5], 9);
    var lowered := Lower(html);
    if DetectFramework(lowered) {
      var k :| 0 <= k < |FrameworkPatterns| && Contains(lowered, FrameworkPatterns[k]);
      assert 1 <= k <= 4;
    }
    if Contains(lowered, "__react") { assert Contains(lowered, FrameworkPatterns[1]); }
    if Contains(lowered, "__vue__") { assert Contains(lowered, FrameworkPatterns[2]); }
    if Contains(lowered, "data-reactroot") { assert Contains(lowered, FrameworkPatterns[3]); }
    if Contains(lowered, "ng-version") { assert Contains(lowered, FrameworkPatterns[4]); }
  }

  /** Whitespace characters followed by a mount attribute match `\s+id=...`. */
  lemma {:induction false} SpacesThenMountIdHolds(spaces: string, id: string, rest: string)
    requires |spaces| > 0 && forall i :: 0 <= i < |spaces| ==> IsWhitespace(spaces[i])
    requires id == MountIds[0] || id == MountIds[1]
    ensures SpacesThenMountId(spaces + id + rest)
    decreases |spaces|
  {
    var t := spaces + id + rest;
    assert t[0] == spaces[0];
    if |spaces| == 1 {
      assert t[1..] == id + rest;
      assert StartsWith(t[1..], id);
    } else {
      assert t[1..] == spaces[1..] + id + rest;
      SpacesThenMountIdHolds(spaces[1..], id, rest);
    }
  }

  /** Without whitespace between `<div` and the attribute the SPA regex does
      not match at that position (`\s+` needs at least one character). */
  lemma SpaMountNeedsWhitespace(lowered: string, i: nat)
    requires i + 4 < |lowered| && lowered[i..i + 4] == "<div" && !IsWhitespace(lowered[i + 4])
    ensures !SpaMountAt(lowered, i)
  {
  }

  /** The verdict is the pre-refetch one: what the browser returns is never
      classified, and it replaces the page exactly on a scored dynamic
      verdict. */
  lemma RefetchedPageIsNotReclassified(fetched: Page, rendered1: Page, rendered2: Page)
    ensures Load(fetched, rendered1).isDynamic == Load(fetched, rendered2).isDynamic
    ensures Classify(fetched).Refetches() ==> Load(fetched, rendered1).page == rendered1
    ensures !Classify(fetched).Refetches() ==> Load(fetched, rendered1).page == fetched
    ensures Classify(fetched).Refetches() <==> Classify(fetched).Scored? && Load(fetched, rendered1).isDynamic
  {
  }
}
