/**
 * Storefront discovery heuristics: the platform classifier, the host
 * canonicaliser and the context-gated token-candidate scan.
 */
module Discovery {
  import opened Wrappers
  import opened Text
  import opened Seqs
  import opened DiscoveryPatterns

  // ------------------------------------------------------------------
  // _is_shopify

  /** Some header name, lower-cased, starts with one of HDR_PREFIXES. */
  predicate HeaderHit(headerNames: seq<string>)
  {
    exists h | h in headerNames :: exists p | p in HdrPrefixes :: StartsWith(Lower(h), p)
  }

  /** Some HTML_MARKERS pattern (compiled with `re.I`) matches the page. */
  predicate HtmlHit(html: string)
  {
    exists mk | mk in HtmlMarkers :: MarkerMatches(mk, Lower(html))
  }

  /** `_is_shopify`: header signal OR content signal. */
  predicate IsShopify(headerNames: seq<string>, html: string)
  {
    HeaderHit(headerNames) || HtmlHit(html)
  }

  /** Either signal alone classifies the page as a storefront. */
  lemma EitherSignalSuffices(headerNames: seq<string>, html: string, h: string, mk: HtmlMarker)
    ensures h in headerNames && (exists p | p in HdrPrefixes :: StartsWith(Lower(h), p)) ==> IsShopify(headerNames, html)
    ensures mk in HtmlMarkers && MarkerMatches(mk, Lower(html)) ==> IsShopify(headerNames, html)
    ensures !IsShopify(headerNames, html) <==> !HeaderHit(headerNames) && !HtmlHit(html)
  {
  }

  predicate IsAscii(s: string)
  {
    forall k | 0 <= k < |s| :: s[k] as int < 128
  }

  /** Every prefix of HDR_PREFIXES carries U+2011 as its second character, so no header
   *  name made of ASCII characters (which is every HTTP header name) triggers the header
   *  signal; only the HTML markers can classify a real response. */
  lemma AsciiHeadersNeverHit(headerNames: seq<string>)
    requires forall h | h in headerNames :: IsAscii(h)
    ensures !HeaderHit(headerNames)
  {
    forall h, p | h in headerNames && p in HdrPrefixes
      ensures !StartsWith(Lower(h), p)
    {
      assert |p| > 1 && p[1] == '\U{2011}';
      if |p| <= |h| {
        assert Lower(h)[1] == LowerChar(h[1]);
        assert Lower(h)[..|p|][1] != p[1];
      }
    }
  }

  /** A page whose only signal is the `window.Shopify` global is a storefront. */
  lemma ShopifyThemeGlobalIsShopify()
    ensures IsShopify([], "window.Shopify.theme = {}")
  {
    var l := Lower("window.Shopify.theme = {}");
    assert l[..14] == "window.shopify";
    assert OccursAt(l, 0, "window.shopify");
    assert MarkerMatches(ShopifyGlobal, l);
  }

  /** Without headers and markers there is no storefront. */
  lemma PlainPageIsNotShopify()
    ensures !IsShopify([], "<p>hi</p>")
  {
  }

  // ------------------------------------------------------------------
  // _canonical_host

  /** The loop over MYSHOPIFY_PATTERNS with its early return; each pattern is
   *  searched with `re.I`, so on the lower-cased page. */
  function FirstDomainHit(l: string, rules: seq<HostRule>): (r: Option<string>)
    requires forall rule | rule in rules :: !rule.ShopAssignment?
    ensures r.Some? && IsLower(l) ==> IsLower(r.value)
    decreases |rules|
  {
    if rules == [] then None
    else
      var m := Search(rules[0], l, 0);
      if m.Some? then m else FirstDomainHit(l, rules[1..])
  }

  /** `_canonical_host`: the first myshopify pattern that matches, else the `Shopify.shop`
   *  assignment (suffixed when it lacks `.myshopify.com`), else a loose scan, else the
   *  fallback; whichever it is, lower-cased. */
  function CanonicalHost(html: string, fallback: string): (host: string)
    ensures IsLower(host)
  {
    var l := Lower(html);
    var hit := FirstDomainHit(l, MyshopifyPatterns);
    if hit.Some? then hit.value
    else
      var shop := Search(ShopAssignment, html, 0);
      if shop.Some? then
        if Contains(shop.value, ShopSuffix) then Lower(shop.value) else Lower(shop.value + ShopSuffix)
      else
        var loose := Search(LooseDomain, l, 0);
        if loose.Some? then loose.value else Lower(fallback)
  }

  /** None of the three myshopify patterns matches. */
  predicate NoDomainHit(l: string)
  {
    Search(QuotedDomain, l, 0).None? && Search(BareDomain, l, 0).None? && Search(DomainSetting, l, 0).None?
  }

  /** The rule order of `_canonical_host`: the myshopify patterns first (in order),
   *  then `Shopify.shop`, then the loose scan, then the fallback. */
  lemma CanonicalHostPrecedence(html: string, fallback: string)
    ensures var l := Lower(html);
      && (Search(QuotedDomain, l, 0).Some? ==> CanonicalHost(html, fallback) == Search(QuotedDomain, l, 0).value)
      && (Search(QuotedDomain, l, 0).None? && Search(BareDomain, l, 0).Some? ==>
            CanonicalHost(html, fallback) == Search(BareDomain, l, 0).value)
      && (Search(QuotedDomain, l, 0).None? && Search(BareDomain, l, 0).None? && Search(DomainSetting, l, 0).Some? ==>
            CanonicalHost(html, fallback) == Search(DomainSetting, l, 0).value)
      && (NoDomainHit(l) && Search(ShopAssignment, html, 0).Some? ==>
            var shop := Search(ShopAssignment, html, 0).value;
            CanonicalHost(html, fallback) == Lower(if Contains(shop, ShopSuffix) then shop else shop + ShopSuffix))
      && (NoDomainHit(l) && Search(ShopAssignment, html, 0).None? ==>
            CanonicalHost(html, fallback) == Search(LooseDomain, l, 0).GetOr(Lower(fallback)))
  {
  }

  /** When no pattern matches anywhere, the host is the lower-cased fallback. */
  lemma CanonicalHostFallback(html: string, fallback: string)
    requires forall k :: 0 <= k <= |html| ==>
      && MatchAt(QuotedDomain, Lower(html), k).None? && MatchAt(BareDomain, Lower(html), k).None?
      && MatchAt(DomainSetting, Lower(html), k).None? && MatchAt(ShopAssignment, html, k).None?
      && MatchAt(LooseDomain, Lower(html), k).None?
    ensures CanonicalHost(html, fallback) == Lower(fallback)
  {
  }

  /** Unless the page carries a `myshopify_domain` setting (whose value is taken as is),
   *  the canonical host is the lower-cased fallback or names a `.myshopify.com` domain. */
  lemma CanonicalHostNamesShopDomain(html: string, fallback: string)
    requires Search(DomainSetting, Lower(html), 0).None?
    ensures var host := CanonicalHost(html, fallback);
      host == Lower(fallback) || Contains(host, ShopSuffix)
  {
    var l := Lower(html);
    DomainHitNamesShopDomain(l);
    var shop := Search(ShopAssignment, html, 0);
    if shop.Some? {
      ShopHostNamesShopDomain(shop.value);
    }
    var loose := Search(LooseDomain, l, 0);
    if loose.Some? {
      SuffixContained(loose.value);
    }
  }

  /** Without a `myshopify_domain` setting, a myshopify-pattern hit ends in the suffix. */
  lemma DomainHitNamesShopDomain(l: string)
    requires Search(DomainSetting, l, 0).None?
    ensures var hit := FirstDomainHit(l, MyshopifyPatterns);
      hit.Some? ==> Contains(hit.value, ShopSuffix)
  {
    var q := Search(QuotedDomain, l, 0);
    var b := Search(BareDomain, l, 0);
    var ps := MyshopifyPatterns;
    assert ps[1..][1..] == [DomainSetting];
    assert FirstDomainHit(l, [DomainSetting]).None?;
    if q.Some? {
      SuffixContained(q.value);
    } else if b.Some? {
      SuffixContained(b.value);
    }
  }

  /** The `Shopify.shop` branch always yields a host containing the suffix. */
  lemma ShopHostNamesShopDomain(shop: string)
    ensures Contains(if Contains(shop, ShopSuffix) then Lower(shop) else Lower(shop + ShopSuffix), ShopSuffix)
  {
    if Contains(shop, ShopSuffix) {
      LowerKeepsLowerOccurrence(shop, ShopSuffix);
    } else {
      LowerConcat(shop, ShopSuffix);
      LowerOfLower(ShopSuffix);
      assert EndsWith(Lower(shop) + ShopSuffix, ShopSuffix);
      ContainsInSuffix(Lower(shop), ShopSuffix, ShopSuffix);
    }
  }

  lemma SuffixContained(s: string)
    requires EndsWith(s, ShopSuffix)
    ensures Contains(s, ShopSuffix)
  {
    assert OccursAt(s, |s| - |ShopSuffix|, ShopSuffix);
  }

  // ------------------------------------------------------------------
  // _token_candidates

  /** `lower[max(0, m.start() - 100) : m.end() + 100]` (the slice end is clamped). */
  function Window(lower: string, m: Match): (w: string)
    requires m.start <= m.end <= |lower|
  {
    var lo := if m.start >= 100 then m.start - 100 else 0;
    var hi := if m.end + 100 <= |lower| then m.end + 100 else |lower|;
    lower[lo..hi]
  }

  /** `any(ctx in window for ctx in token_contexts)`. */
  predicate HasContext(w: string)
  {
    exists c | c in TokenContexts :: Contains(w, c)
  }

  /** The appends made by the loop over `init_patterns` for one match. */
  function InitEmits(w: string, g: string, ps: seq<InitPattern>): seq<string>
    decreases |ps|
  {
    if |ps| == 0 then []
    else InitEmits(w, g, ps[..|ps| - 1]) + (if InitMatches(ps[|ps| - 1], w) then [g] else [])
  }

  /** Number of the patterns in `ps` that match `w`. */
  function InitHits(w: string, ps: seq<InitPattern>): nat
    decreases |ps|
  {
    if |ps| == 0 then 0
    else InitHits(w, ps[..|ps| - 1]) + (if InitMatches(ps[|ps| - 1], w) then 1 else 0)
  }

  /** The appends made for one match whose window is `w` and group is `g`. */
  function Emit(w: string, g: string): seq<string>
  {
    (if HasContext(w) then [g] else []) + InitEmits(w, g, InitPatterns)
  }

  predicate MatchesFit(ms: seq<Match>, n: nat)
  {
    forall m | m in ms :: m.start <= m.end <= n
  }

  /** The appends made for the matches `ms` of one pattern. */
  function EmitMatches(lower: string, ms: seq<Match>): seq<string>
    requires MatchesFit(ms, |lower|)
    decreases |ms|
  {
    if |ms| == 0 then []
    else
      var m := ms[|ms| - 1];
      EmitMatches(lower, ms[..|ms| - 1]) + Emit(Window(lower, m), m.group)
  }

  /** The appends made by the loop over the patterns `ps`. */
  function EmitPatterns(text: string, ps: seq<TokenPattern>): seq<string>
    requires forall p | p in ps :: p in TokenPatterns
    decreases |ps|
  {
    if |ps| == 0 then []
    else EmitPatterns(text, ps[..|ps| - 1]) + EmitMatches(Lower(text), FindAll(ps[|ps| - 1], text))
  }

  /** The list `_token_candidates(text)` returns. */
  function Candidates(text: string): seq<string>
  {
    EmitPatterns(text, TokenPatterns)
  }

  /** `_token_candidates`: scans every TOKEN_PATTERNS match and appends its group once if
   *  its window holds a context keyword and once more per init pattern matching it. */
  method TokenCandidates(text: string) returns (candidates: seq<string>)
    ensures candidates == Candidates(text)
  {
    var lower := Lower(text);
    candidates := [];
    var p := 0;
    while p < |TokenPatterns|
      invariant 0 <= p <= |TokenPatterns|
      invariant candidates == EmitPatterns(text, TokenPatterns[..p])
    {
      var pattern := TokenPatterns[p];
      var matches := FindAll(pattern, text);
      ghost var done := candidates;
      var k := 0;
      assert EmitMatches(lower, matches[..0]) == [];
      while k < |matches|
        invariant 0 <= k <= |matches|
        invariant candidates == done + EmitMatches(lower, matches[..k])
      {
        var m := matches[k];
        var emitted := EmitForMatch(Window(lower, m), m.group);
        EmitMatchesStep(lower, matches, k);
        ConcatAssoc(done, EmitMatches(lower, matches[..k]), emitted);
        candidates := candidates + emitted;
        k := k + 1;
      }
      assert matches[..k] == matches;
      EmitPatternsStep(text, TokenPatterns, p);
      p := p + 1;
    }
    assert TokenPatterns[..p] == TokenPatterns;
  }

  /** The body of the loop over the matches of one pattern: the appends for the match
   *  whose window is `window` and whose group is `group`. */
  method EmitForMatch(window: string, group: string) returns (emitted: seq<string>)
    ensures emitted == Emit(window, group)
  {
    emitted := if HasContext(window) then [group] else [];
    ghost var contextPart := emitted;
    var q := 0;
    while q < |InitPatterns|
      invariant 0 <= q <= |InitPatterns|
      invariant emitted == contextPart + InitEmits(window, group, InitPatterns[..q])
    {
      ghost var hit: seq<string> := if InitMatches(InitPatterns[q], window) then [group] else [];
      if InitMatches(InitPatterns[q], window) {
        emitted := emitted + [group];
      }
      InitEmitsStep(window, group, InitPatterns, q);
      ConcatAssoc(contextPart, InitEmits(window, group, InitPatterns[..q]), hit);
      q := q + 1;
    }
    assert InitPatterns[..q] == InitPatterns;
  }

  lemma InitEmitsStep(w: string, g: string, ps: seq<InitPattern>, q: nat)
    requires q < |ps|
    ensures InitEmits(w, g, ps[..q + 1]) == InitEmits(w, g, ps[..q]) + (if InitMatches(ps[q], w) then [g] else [])
  {
    assert ps[..q + 1][..q] == ps[..q];
  }

  lemma EmitMatchesStep(lower: string, ms: seq<Match>, k: nat)
    requires k < |ms| && MatchesFit(ms, |lower|)
    ensures MatchesFit(ms[..k], |lower|) && MatchesFit(ms[..k + 1], |lower|)
    ensures EmitMatches(lower, ms[..k + 1]) == EmitMatches(lower, ms[..k]) + Emit(Window(lower, ms[k]), ms[k].group)
  {
    var ms' := ms[..k + 1];
    assert ms'[..k] == ms[..k];
    assert ms'[|ms'| - 1] == ms[k];
    assert EmitMatches(lower, ms') == EmitMatches(lower, ms'[..|ms'| - 1]) + Emit(Window(lower, ms'[|ms'| - 1]), ms'[|ms'| - 1].group);
  }

  lemma EmitPatternsStep(text: string, ps: seq<TokenPattern>, p: nat)
    requires p < |ps| && forall q | q in ps :: q in TokenPatterns
    ensures EmitPatterns(text, ps[..p + 1]) == EmitPatterns(text, ps[..p]) + EmitMatches(Lower(text), FindAll(ps[p], text))
  {
    assert ps[..p + 1][..p] == ps[..p];
  }

  /** Three patterns' emissions, concatenated in pattern order. */
  lemma EmitThreePatterns(text: string, ps: seq<TokenPattern>)
    requires |ps| == 3 && forall p | p in ps :: p in TokenPatterns
    ensures EmitPatterns(text, ps) == EmitMatches(Lower(text), FindAll(ps[0], text))
      + EmitMatches(Lower(text), FindAll(ps[1], text)) + EmitMatches(Lower(text), FindAll(ps[2], text))
  {
    var e0 := EmitMatches(Lower(text), FindAll(ps[0], text));
    var e1 := EmitMatches(Lower(text), FindAll(ps[1], text));
    var e2 := EmitMatches(Lower(text), FindAll(ps[2], text));
    assert EmitPatterns(text, ps[..0]) == [];
    EmitPatternsStep(text, ps, 0);
    assert EmitPatterns(text, ps[..1]) == e0;
    EmitPatternsStep(text, ps, 1);
    assert EmitPatterns(text, ps[..2]) == e0 + e1;
    EmitPatternsStep(text, ps, 2);
    assert ps[..3] == ps;
  }

  /** The candidate list is the concatenation of the three patterns' emissions. */
  lemma CandidatesSplit(text: string)
    ensures Candidates(text) == EmitMatches(Lower(text), FindAll(TokenPatterns[0], text))
      + EmitMatches(Lower(text), FindAll(TokenPatterns[1], text)) + EmitMatches(Lower(text), FindAll(TokenPatterns[2], text))
  {
    EmitThreePatterns(text, TokenPatterns);
  }

  /** Each match contributes its own group only: once for the context keywords and once
   *  per init pattern that matches its window. */
  lemma {:induction false} InitEmitsShape(w: string, g: string, ps: seq<InitPattern>)
    ensures |InitEmits(w, g, ps)| == InitHits(w, ps)
    ensures forall x | x in InitEmits(w, g, ps) :: x == g
    decreases |ps|
  {
    if |ps| > 0 {
      InitEmitsShape(w, g, ps[..|ps| - 1]);
    }
  }

  lemma EmitShape(w: string, g: string)
    ensures |Emit(w, g)| == (if HasContext(w) then 1 else 0) + InitHits(w, InitPatterns)
    ensures forall x | x in Emit(w, g) :: x == g
    ensures Emit(w, g) != [] <==> HasContext(w) || InitHits(w, InitPatterns) > 0
  {
    InitEmitsShape(w, g, InitPatterns);
  }

  /** On a lower-case window none of the four mixed-case callee patterns can fire, so of
   *  the first `n` init patterns at most the last, `fetch(...)"/api/..."`, matches. */
  lemma {:induction false} InitHitsInLowerWindow(w: string, n: nat)
    requires IsLower(w) && n <= |InitPatterns|
    ensures InitHits(w, InitPatterns[..n]) <= (if n == |InitPatterns| then 1 else 0)
  {
    if n == 0 {
      assert InitPatterns[..n] == [];
    } else {
      var ps := InitPatterns[..n];
      assert ps[..n - 1] == InitPatterns[..n - 1];
      assert ps[n - 1] == InitPatterns[n - 1];
      InitHitsInLowerWindow(w, n - 1);
      LowerWindowMatchesOnlyFetch(InitPatterns[n - 1], w);
    }
  }

  /** The windows the source builds are lower-case, so a match is emitted at most twice:
   *  once for the keywords and once for the `fetch(...)"/api/..."` pattern. */
  lemma EmitAtMostTwice(text: string, m: Match)
    requires m.start <= m.end <= |text|
    ensures |Emit(Window(Lower(text), m), m.group)| <= 2
  {
    var w := Window(Lower(text), m);
    assert IsLower(w);
    InitHitsInLowerWindow(w, |InitPatterns|);
    assert InitPatterns[..|InitPatterns|] == InitPatterns;
    EmitShape(w, m.group);
  }

  predicate Promoted(lower: string, m: Match)
    requires m.start <= m.end <= |lower|
  {
    HasContext(Window(lower, m)) || InitHits(Window(lower, m), InitPatterns) > 0
  }

  /** `m` fits the text, has group `x`, and its window qualifies. */
  predicate PromotedWith(lower: string, m: Match, x: string)
  {
    m.start <= m.end <= |lower| && m.group == x && Promoted(lower, m)
  }

  /** One match emits `x` iff it is promoted with group `x`. */
  lemma EmitMember(lower: string, m: Match, x: string)
    requires m.start <= m.end <= |lower|
    ensures x in Emit(Window(lower, m), m.group) <==> PromotedWith(lower, m, x)
  {
    var e := Emit(Window(lower, m), m.group);
    EmitShape(Window(lower, m), m.group);
    if PromotedWith(lower, m, x) {
      assert e[0] in e;
    }
  }

  lemma PromotedSnoc(lower: string, ms: seq<Match>, x: string)
    requires |ms| > 0
    ensures (exists m | m in ms :: PromotedWith(lower, m, x)) <==>
      (exists m | m in ms[..|ms| - 1] :: PromotedWith(lower, m, x)) || PromotedWith(lower, ms[|ms| - 1], x)
  {
    assert forall m | m in ms :: m in ms[..|ms| - 1] || m == ms[|ms| - 1];
  }

  lemma {:induction false} EmitMatchesOrigin(lower: string, ms: seq<Match>, x: string)
    requires MatchesFit(ms, |lower|)
    ensures x in EmitMatches(lower, ms) <==> exists m | m in ms :: PromotedWith(lower, m, x)
    decreases |ms|
  {
    if |ms| > 0 {
      var n := |ms| - 1;
      assert MatchesFit(ms[..n], |lower|);
      EmitMatchesOrigin(lower, ms[..n], x);
      EmitMember(lower, ms[n], x);
      PromotedSnoc(lower, ms, x);
    }
  }

  /** `x` is the group of some match of `p` whose window qualifies. */
  predicate Witnessed(text: string, p: TokenPattern, x: string)
  {
    p in TokenPatterns && exists m | m in FindAll(p, text) :: PromotedWith(Lower(text), m, x)
  }

  lemma WitnessedSnoc(text: string, ps: seq<TokenPattern>, x: string)
    requires |ps| > 0
    ensures (exists p | p in ps :: Witnessed(text, p, x)) <==>
      (exists p | p in ps[..|ps| - 1] :: Witnessed(text, p, x)) || Witnessed(text, ps[|ps| - 1], x)
  {
    assert forall p | p in ps :: p in ps[..|ps| - 1] || p == ps[|ps| - 1];
  }

  /** A string is emitted by the patterns `ps` iff one of them witnesses it. */
  lemma {:induction false} EmitPatternsOrigin(text: string, ps: seq<TokenPattern>, x: string)
    requires forall p | p in ps :: p in TokenPatterns
    ensures x in EmitPatterns(text, ps) <==> exists p | p in ps :: Witnessed(text, p, x)
    decreases |ps|
  {
    if |ps| > 0 {
      var n := |ps| - 1;
      EmitPatternsOrigin(text, ps[..n], x);
      var last := EmitMatches(Lower(text), FindAll(ps[n], text));
      assert EmitPatterns(text, ps) == EmitPatterns(text, ps[..n]) + last;
      EmitMatchesOrigin(Lower(text), FindAll(ps[n], text), x);
      assert x in last <==> Witnessed(text, ps[n], x);
      WitnessedSnoc(text, ps, x);
    }
  }

  /** A string is a candidate iff it is group 1 of some TOKEN_PATTERNS match whose window
   *  contains a context keyword or matches an init pattern. */
  lemma CandidateOrigin(text: string, x: string)
    ensures x in Candidates(text) <==>
      exists p, m | p in TokenPatterns && m in FindAll(p, text) :: m.group == x && Promoted(Lower(text), m)
  {
    EmitPatternsOrigin(text, TokenPatterns, x);
    assert (exists p | p in TokenPatterns :: Witnessed(text, p, x)) <==>
      exists p, m | p in TokenPatterns && m in FindAll(p, text) :: m.group == x && Promoted(Lower(text), m);
  }

  lemma HexMatchInBoth(text: string, m: Match)
    requires m in FindAll(HexToken(32, 32), text)
    ensures m in FindAll(TokenPatterns[0], text) && m in FindAll(TokenPatterns[1], text)
  {
    assert IsHexMatch(text, m, 32, 32);
    HexScanComplete(text, 0, 24, 64, m);
  }

  /** A 32-digit hex token in context is matched by the first two TOKEN_PATTERNS alike, so
   *  `_token_candidates` lists it (at least) twice. */
  lemma HexTokenListedTwice(text: string, m: Match)
    requires m in FindAll(HexToken(32, 32), text)
    requires HasContext(Window(Lower(text), m))
    ensures multiset(Candidates(text))[m.group] >= 2
  {
    var lower := Lower(text);
    var ps := TokenPatterns;
    HexMatchInBoth(text, m);
    var e0 := EmitMatches(lower, FindAll(ps[0], text));
    var e1 := EmitMatches(lower, FindAll(ps[1], text));
    var e2 := EmitMatches(lower, FindAll(ps[2], text));
    CandidatesSplit(text);
    EmitMatchesOrigin(lower, FindAll(ps[0], text), m.group);
    EmitMatchesOrigin(lower, FindAll(ps[1], text), m.group);
    TwiceInConcat(e0, e1, e2, m.group);
  }
}
