/**
 * `discover_shopify` after its fetches (the asset list, the candidate pool, the
 * valid/invalid split and the ranking) and the `shopify_discover` tool around it.
 * The page, its assets and the network capture are inputs: what the HTTP client and
 * the HTML parser yield.
 */
module DiscoveryPipeline {
  import opened Wrappers
  import opened Text
  import opened Seqs
  import opened DiscoveryPatterns
  import opened GraphqlClient
  import opened Discovery
  import opened TokenValidation

  /** A `<script>` or `<link>` element: its `src` and `href` attributes. */
  datatype AssetTag = AssetTag(src: Option<string>, href: Option<string>)

  /** An attribute value as the HTML parser gives it: a string, or a list of strings for
   *  the multi-valued attributes. */
  datatype AttrValue = StrValue(s: string) | ListValue(items: seq<string>)

  /** What the HTML parser yields for the page, in document order: the script and link
   *  elements, the `.string` of each JSON-LD script, the `content` of each meta element,
   *  and the attributes of every element. */
  datatype ParsedPage = ParsedPage(tags: seq<AssetTag>, jsonLd: seq<Option<string>>, metaContents: seq<Option<string>>,
                                   elements: seq<seq<(string, AttrValue)>>)

  /** The initial `fetch_text` and `fetch_head`: an exception, or the body, the response's
   *  header names and the parsed page. */
  datatype PageFetch = FetchFailed(error: string) | Fetched(html: string, headerNames: seq<string>, parsed: ParsedPage)

  /** The GET of one asset URL. */
  datatype AssetFetch = AssetFailed(error: string) | AssetText(text: string)

  /** `capture_network_tokens(url)`: an exception, or the tokens it returns. */
  datatype Capture = CaptureFailed(error: string) | Captured(tokens: seq<string>)

  /** The result dictionary of `discover_shopify`. */
  datatype DiscoveryResult = DiscoveryResult(shopify: bool, host: Option<string>, tokensValid: seq<string>,
                                             tokensRanked: seq<RankedToken>, tokensInvalid: seq<string>, notes: seq<string>)

  const EmptyResult := DiscoveryResult(false, None, [], [], [], [])

  // ------------------------------------------------------------------
  // The asset list

  /** `tag.get("src") or tag.get("href")`. */
  function SourceOf(tag: AssetTag): Option<string>
  {
    if Truthy(tag.src) then tag.src else tag.href
  }

  /** `re.search(r"(cdn\.shopify|/assets/)", src)` (case-sensitive). */
  predicate IsAssetUrl(src: string)
  {
    Contains(src, "cdn.shopify") || Contains(src, "/assets/")
  }

  /** The resolved URL of every asset-looking source, in document order, without a cap. */
  function AllAssets(tags: seq<AssetTag>, resolve: string -> string): seq<string>
    decreases |tags|
  {
    if |tags| == 0 then []
    else
      var n := |tags| - 1;
      var src := SourceOf(tags[n]);
      AllAssets(tags[..n], resolve) + (if Truthy(src) && IsAssetUrl(src.value) then [resolve(src.value)] else [])
  }

  /** One past the first tag that has a source, or the number of tags. */
  function FirstSourceEnd(tags: seq<AssetTag>): (r: nat)
    ensures r <= |tags|
  {
    if tags == [] then 0
    else if Truthy(SourceOf(tags[0])) then 1
    else 1 + FirstSourceEnd(tags[1..])
  }

  /** The assets kept by the capped loop: the cap is tested after every tag that has a
   *  source, so a cap of at least one keeps the first `max_assets` assets, and a cap
   *  below one stops at the first tag with a source. */
  function AssetsOf(tags: seq<AssetTag>, maxAssets: int, resolve: string -> string): seq<string>
  {
    if maxAssets >= 1 then
      var all := AllAssets(tags, resolve);
      if |all| <= maxAssets then all else all[..maxAssets]
    else AllAssets(tags[..FirstSourceEnd(tags)], resolve)
  }

  lemma AllAssetsStep(tags: seq<AssetTag>, resolve: string -> string, i: nat)
    requires i < |tags|
    ensures var src := SourceOf(tags[i]);
      AllAssets(tags[..i + 1], resolve) == AllAssets(tags[..i], resolve)
        + (if Truthy(src) && IsAssetUrl(src.value) then [resolve(src.value)] else [])
  {
    assert tags[..i + 1][..i] == tags[..i];
  }

  /** The assets of a prefix of the tags are a prefix of all the assets. */
  lemma {:induction false} AllAssetsPrefix(tags: seq<AssetTag>, resolve: string -> string, i: nat)
    requires i <= |tags|
    ensures AllAssets(tags[..i], resolve) <= AllAssets(tags, resolve)
    decreases |tags| - i
  {
    if i < |tags| {
      AllAssetsPrefix(tags, resolve, i + 1);
      AllAssetsStep(tags, resolve, i);
    } else {
      assert tags[..i] == tags;
    }
  }

  lemma {:induction false} NoSourceNoAssets(tags: seq<AssetTag>, resolve: string -> string, i: nat)
    requires i <= |tags| && forall k | 0 <= k < i :: !Truthy(SourceOf(tags[k]))
    ensures AllAssets(tags[..i], resolve) == [] && FirstSourceEnd(tags) >= i
  {
    if i > 0 {
      NoSourceNoAssets(tags, resolve, i - 1);
      AllAssetsStep(tags, resolve, i - 1);
      NoSourceFirstEnd(tags, i);
    }
  }

  lemma {:induction false} NoSourceFirstEnd(tags: seq<AssetTag>, i: nat)
    requires i <= |tags| && forall k | 0 <= k < i :: !Truthy(SourceOf(tags[k]))
    ensures FirstSourceEnd(tags) >= i
  {
    if i > 0 {
      assert !Truthy(SourceOf(tags[0]));
      NoSourceFirstEnd(tags[1..], i - 1);
    }
  }

  lemma {:induction false} FirstSourceEndIs(tags: seq<AssetTag>, i: nat)
    requires i < |tags| && Truthy(SourceOf(tags[i])) && forall k | 0 <= k < i :: !Truthy(SourceOf(tags[k]))
    ensures FirstSourceEnd(tags) == i + 1
  {
    if i > 0 {
      FirstSourceEndIs(tags[1..], i - 1);
    }
  }

  /** The asset loop of `discover_shopify`. */
  method CollectAssets(tags: seq<AssetTag>, maxAssets: int, resolve: string -> string) returns (assets: seq<string>)
    ensures assets == AssetsOf(tags, maxAssets, resolve)
  {
    assets := [];
    var i := 0;
    while i < |tags|
      invariant 0 <= i <= |tags|
      invariant assets == AllAssets(tags[..i], resolve)
      invariant maxAssets >= 1 ==> |assets| < maxAssets
      invariant maxAssets < 1 ==> forall k | 0 <= k < i :: !Truthy(SourceOf(tags[k]))
    {
      var src := SourceOf(tags[i]);
      AllAssetsStep(tags, resolve, i);
      if !Truthy(src) {
        i := i + 1;
        continue;
      }
      if IsAssetUrl(src.value) {
        assets := assets + [resolve(src.value)];
      }
      if |assets| >= maxAssets {
        CapReached(tags, maxAssets, resolve, i);
        break;
      }
      i := i + 1;
    }
    if i == |tags| {
      AllScanned(tags, maxAssets, resolve);
    }
  }

  /** The loop stops at tag `i`, the first to bring the assets up to the cap. */
  lemma CapReached(tags: seq<AssetTag>, maxAssets: int, resolve: string -> string, i: nat)
    requires i < |tags| && Truthy(SourceOf(tags[i]))
    requires |AllAssets(tags[..i + 1], resolve)| >= maxAssets
    requires maxAssets >= 1 ==> |AllAssets(tags[..i], resolve)| < maxAssets
    requires maxAssets < 1 ==> forall k | 0 <= k < i :: !Truthy(SourceOf(tags[k]))
    ensures AssetsOf(tags, maxAssets, resolve) == AllAssets(tags[..i + 1], resolve)
  {
    AllAssetsStep(tags, resolve, i);
    AllAssetsPrefix(tags, resolve, i + 1);
    if maxAssets < 1 {
      FirstSourceEndIs(tags, i);
    }
  }

  /** The loop runs through every tag without reaching the cap. */
  lemma AllScanned(tags: seq<AssetTag>, maxAssets: int, resolve: string -> string)
    requires maxAssets >= 1 ==> |AllAssets(tags[..|tags|], resolve)| < maxAssets
    requires maxAssets < 1 ==> forall k | 0 <= k < |tags| :: !Truthy(SourceOf(tags[k]))
    ensures AssetsOf(tags, maxAssets, resolve) == AllAssets(tags[..|tags|], resolve)
  {
    assert tags[..|tags|] == tags;
    if maxAssets < 1 {
      NoSourceFirstEnd(tags, |tags|);
    }
  }

  /** At most `max(max_assets, 1)` assets are fetched, they come in document order (a
   *  prefix of all asset sources), and each is the resolved URL of a source that looks
   *  like an asset. */
  lemma AssetCap(tags: seq<AssetTag>, maxAssets: int, resolve: string -> string)
    ensures |AssetsOf(tags, maxAssets, resolve)| <= (if maxAssets >= 1 then maxAssets else 1)
    ensures AssetsOf(tags, maxAssets, resolve) <= AllAssets(tags, resolve)
    ensures forall a | a in AssetsOf(tags, maxAssets, resolve) ::
      exists k | 0 <= k < |tags| :: Truthy(SourceOf(tags[k])) && IsAssetUrl(SourceOf(tags[k]).value) && a == resolve(SourceOf(tags[k]).value)
  {
    var all := AllAssets(tags, resolve);
    if maxAssets < 1 {
      var e := FirstSourceEnd(tags);
      AllAssetsPrefix(tags, resolve, e);
      if e > 0 {
        FirstSourceShape(tags);
        NoSourceNoAssets(tags, resolve, e - 1);
        AllAssetsStep(tags, resolve, e - 1);
      }
    }
    forall a | a in AssetsOf(tags, maxAssets, resolve)
      ensures exists k | 0 <= k < |tags| :: Truthy(SourceOf(tags[k])) && IsAssetUrl(SourceOf(tags[k]).value) && a == resolve(SourceOf(tags[k]).value)
    {
      var j :| 0 <= j < |AssetsOf(tags, maxAssets, resolve)| && AssetsOf(tags, maxAssets, resolve)[j] == a;
      assert all[j] == a;
      AssetOrigin(tags, resolve, a);
    }
  }

  lemma {:induction false} FirstSourceShape(tags: seq<AssetTag>)
    requires FirstSourceEnd(tags) > 0
    ensures forall k | 0 <= k < FirstSourceEnd(tags) - 1 :: !Truthy(SourceOf(tags[k]))
  {
    if !Truthy(SourceOf(tags[0])) && FirstSourceEnd(tags[1..]) > 0 {
      FirstSourceShape(tags[1..]);
      assert forall k | 1 <= k < FirstSourceEnd(tags) - 1 :: tags[k] == tags[1..][k - 1];
    }
  }

  lemma {:induction false} AssetOrigin(tags: seq<AssetTag>, resolve: string -> string, a: string)
    requires a in AllAssets(tags, resolve)
    ensures exists k | 0 <= k < |tags| :: Truthy(SourceOf(tags[k])) && IsAssetUrl(SourceOf(tags[k]).value) && a == resolve(SourceOf(tags[k]).value)
    decreases |tags|
  {
    var n := |tags| - 1;
    if a in AllAssets(tags[..n], resolve) {
      AssetOrigin(tags[..n], resolve, a);
      var k :| 0 <= k < n && Truthy(SourceOf(tags[..n][k])) && IsAssetUrl(SourceOf(tags[..n][k]).value)
                          && a == resolve(SourceOf(tags[..n][k]).value);
      assert tags[..n][k] == tags[k];
    } else {
      assert Truthy(SourceOf(tags[n])) && IsAssetUrl(SourceOf(tags[n]).value) && a == resolve(SourceOf(tags[n]).value);
    }
  }

  // ------------------------------------------------------------------
  // The candidate pool

  /** A JSON-LD script is scanned when its `.string` is non-empty. */
  function JsonLdText(s: Option<string>): Option<string>
  {
    if Truthy(s) then s else None
  }

  /** A meta `content` is scanned when it is longer than 20 characters. */
  function MetaText(c: Option<string>): Option<string>
  {
    if c.Some? && |c.value| > 20 then c else None
  }

  /** An attribute is scanned when its name starts with `data-` and its value is a string
   *  longer than 20 characters. */
  function DataAttrText(a: (string, AttrValue)): Option<string>
  {
    if StartsWith(a.0, "data-") && a.1.StrValue? && |a.1.s| > 20 then Some(a.1.s) else None
  }

  /** The scanned attribute values of the elements, element by element. */
  function ElementTexts(elements: seq<seq<(string, AttrValue)>>): seq<string>
    decreases |elements|
  {
    if |elements| == 0 then []
    else
      var n := |elements| - 1;
      ElementTexts(elements[..n]) + FilterMap(elements[n], DataAttrText)
  }

  /** Group 1 of every match of the config patterns `ps`, pattern by pattern. */
  function ConfigTexts(html: string, ps: seq<ConfigPattern>): seq<string>
    decreases |ps|
  {
    if |ps| == 0 then []
    else
      var n := |ps| - 1;
      ConfigTexts(html, ps[..n]) + ConfigScan(ps[n], html, 0)
  }

  /** Every text of the page that `discover_shopify` scans for tokens, in scan order. */
  function PageTexts(html: string, parsed: ParsedPage): seq<string>
  {
    [html] + FilterMap(parsed.jsonLd, JsonLdText) + FilterMap(parsed.metaContents, MetaText)
      + ElementTexts(parsed.elements) + ConfigTexts(html, ConfigPatterns)
  }

  /** The bodies of the assets that were fetched. */
  function AssetTexts(assets: seq<string>, fetchAsset: string -> AssetFetch): seq<string>
    decreases |assets|
  {
    if |assets| == 0 then []
    else
      var n := |assets| - 1;
      var r := fetchAsset(assets[n]);
      AssetTexts(assets[..n], fetchAsset) + (if r.AssetText? then [r.text] else [])
  }

  function AssetNote(url: string, error: string): string
  {
    "asset error: " + url + " \U{2013} " + error
  }

  /** One note per asset whose fetch failed, in order. */
  function AssetNotes(assets: seq<string>, fetchAsset: string -> AssetFetch): seq<string>
    decreases |assets|
  {
    if |assets| == 0 then []
    else
      var n := |assets| - 1;
      var r := fetchAsset(assets[n]);
      AssetNotes(assets[..n], fetchAsset) + (if r.AssetFailed? then [AssetNote(assets[n], r.error)] else [])
  }

  function CaptureNotes(capture: Capture): seq<string>
  {
    if capture.CaptureFailed? then ["network token capture error: " + capture.error] else []
  }

  function CapturedTokens(capture: Capture): set<string>
  {
    if capture.Captured? then Elems(capture.tokens) else {}
  }

  /** The union of what `scan` finds in every text. */
  function ScanAll(texts: seq<string>, scan: string -> seq<string>): set<string>
    decreases |texts|
  {
    if |texts| == 0 then {}
    else
      var n := |texts| - 1;
      ScanAll(texts[..n], scan) + Elems(scan(texts[n]))
  }

  /** The union of the token candidates of every text. */
  function CandidatesOf(texts: seq<string>): set<string>
  {
    ScanAll(texts, Candidates)
  }

  /** The set `candidates` once every source has been added. */
  function CandidatePool(html: string, parsed: ParsedPage, assets: seq<string>, fetchAsset: string -> AssetFetch,
                         capture: Capture): set<string>
  {
    CandidatesOf(PageTexts(html, parsed) + AssetTexts(assets, fetchAsset)) + CapturedTokens(capture)
  }

  lemma ScanAllStep(texts: seq<string>, scan: string -> seq<string>, t: string)
    ensures ScanAll(texts + [t], scan) == ScanAll(texts, scan) + Elems(scan(t))
  {
    assert (texts + [t])[..|texts|] == texts;
  }

  lemma {:induction false} ScanAllConcat(a: seq<string>, b: seq<string>, scan: string -> seq<string>)
    ensures ScanAll(a + b, scan) == ScanAll(a, scan) + ScanAll(b, scan)
    decreases |b|
  {
    if |b| == 0 {
      assert a + b == a;
    } else {
      var n := |b| - 1;
      ScanAllConcat(a, b[..n], scan);
      assert (a + b)[..|a + b| - 1] == a + b[..n];
    }
  }

  /** A string is found iff `scan` finds it in some text. */
  lemma {:induction false} ScanAllMember(texts: seq<string>, scan: string -> seq<string>, x: string)
    ensures x in ScanAll(texts, scan) <==> exists i | 0 <= i < |texts| :: x in scan(texts[i])
    decreases |texts|
  {
    if |texts| > 0 {
      var n := |texts| - 1;
      ScanAllMember(texts[..n], scan, x);
      if x in ScanAll(texts[..n], scan) {
        var i :| 0 <= i < n && x in scan(texts[..n][i]);
        assert texts[i] == texts[..n][i];
      }
      if exists i | 0 <= i < |texts| :: x in scan(texts[i]) {
        var i :| 0 <= i < |texts| && x in scan(texts[i]);
        if i < n {
          assert texts[..n][i] == texts[i];
        }
      }
    }
  }

  lemma CandidatesOfStep(texts: seq<string>, t: string)
    ensures CandidatesOf(texts + [t]) == CandidatesOf(texts) + Elems(Candidates(t))
  {
    ScanAllStep(texts, Candidates, t);
  }

  lemma CandidatesOfPrefixStep(texts: seq<string>, i: nat)
    requires i < |texts|
    ensures CandidatesOf(texts[..i + 1]) == CandidatesOf(texts[..i]) + Elems(Candidates(texts[i]))
  {
    ScanAllPrefixStep(texts, Candidates, i);
  }

  lemma ScanAllPrefixStep(texts: seq<string>, scan: string -> seq<string>, i: nat)
    requires i < |texts|
    ensures ScanAll(texts[..i + 1], scan) == ScanAll(texts[..i], scan) + Elems(scan(texts[i]))
  {
    assert texts[..i + 1][..i] == texts[..i];
  }

  lemma CandidatesOfConcat(a: seq<string>, b: seq<string>)
    ensures CandidatesOf(a + b) == CandidatesOf(a) + CandidatesOf(b)
  {
    ScanAllConcat(a, b, Candidates);
  }

  lemma ElementTextsStep(elements: seq<seq<(string, AttrValue)>>, e: nat)
    requires e < |elements|
    ensures ElementTexts(elements[..e + 1]) == ElementTexts(elements[..e]) + FilterMap(elements[e], DataAttrText)
  {
    assert elements[..e + 1][..e] == elements[..e];
  }

  lemma ConfigTextsStep(html: string, ps: seq<ConfigPattern>, p: nat)
    requires p < |ps|
    ensures ConfigTexts(html, ps[..p + 1]) == ConfigTexts(html, ps[..p]) + ConfigScan(ps[p], html, 0)
  {
    assert ps[..p + 1][..p] == ps[..p];
  }

  /** A loop `for x in xs: if <x qualifies>: candidates.update(_token_candidates(<its text>))`,
   *  with `select` giving the text of a qualifying element. */
  method ScanEach<T>(xs: seq<T>, select: T -> Option<string>) returns (found: set<string>)
    ensures found == CandidatesOf(FilterMap(xs, select))
  {
    found := {};
    var i := 0;
    while i < |xs|
      invariant 0 <= i <= |xs|
      invariant found == CandidatesOf(FilterMap(xs[..i], select))
    {
      FilterMapStep(xs, select, i);
      var text := select(xs[i]);
      if text.Some? {
        var cs := TokenCandidates(text.value);
        CandidatesOfStep(FilterMap(xs[..i], select), text.value);
        found := found + Elems(cs);
      }
      i := i + 1;
    }
    assert xs[..i] == xs;
  }

  /** A loop `for t in texts: candidates.update(_token_candidates(t))`. */
  method ScanTexts(texts: seq<string>) returns (found: set<string>)
    ensures found == CandidatesOf(texts)
  {
    found := {};
    var i := 0;
    while i < |texts|
      invariant 0 <= i <= |texts|
      invariant found == CandidatesOf(texts[..i])
    {
      var cs := TokenCandidates(texts[i]);
      CandidatesOfPrefixStep(texts, i);
      found := found + Elems(cs);
      i := i + 1;
    }
    assert texts[..i] == texts;
  }

  /** The data-attribute loops: every attribute of every element. */
  method ScanDataAttributes(elements: seq<seq<(string, AttrValue)>>) returns (found: set<string>)
    ensures found == CandidatesOf(ElementTexts(elements))
  {
    found := {};
    var i := 0;
    while i < |elements|
      invariant 0 <= i <= |elements|
      invariant found == CandidatesOf(ElementTexts(elements[..i]))
    {
      var fromElement := ScanEach(elements[i], DataAttrText);
      ElementTextsStep(elements, i);
      CandidatesOfConcat(ElementTexts(elements[..i]), FilterMap(elements[i], DataAttrText));
      found := found + fromElement;
      i := i + 1;
    }
    assert elements[..i] == elements;
  }

  /** The config-pattern loops: group 1 of every match of every pattern. */
  method ScanConfigObjects(html: string) returns (found: set<string>)
    ensures found == CandidatesOf(ConfigTexts(html, ConfigPatterns))
  {
    found := {};
    var p := 0;
    while p < |ConfigPatterns|
      invariant 0 <= p <= |ConfigPatterns|
      invariant found == CandidatesOf(ConfigTexts(html, ConfigPatterns[..p]))
    {
      var groups := ConfigScan(ConfigPatterns[p], html, 0);
      var fromPattern := ScanTexts(groups);
      ConfigTextsStep(html, ConfigPatterns, p);
      CandidatesOfConcat(ConfigTexts(html, ConfigPatterns[..p]), groups);
      found := found + fromPattern;
      p := p + 1;
    }
    assert ConfigPatterns[..p] == ConfigPatterns;
  }

  /** The page part of `discover_shopify`'s scanning: the HTML itself, the JSON-LD
   *  scripts, the meta contents, the data attributes and the config objects. */
  method ScanPage(html: string, parsed: ParsedPage) returns (candidates: set<string>)
    ensures candidates == CandidatesOf(PageTexts(html, parsed))
  {
    var fromHtml := TokenCandidates(html);
    candidates := Elems(fromHtml);
    CandidatesOfStep([], html);
    var fromJsonLd := ScanEach(parsed.jsonLd, JsonLdText);
    candidates := candidates + fromJsonLd;
    var fromMeta := ScanEach(parsed.metaContents, MetaText);
    candidates := candidates + fromMeta;
    var fromAttributes := ScanDataAttributes(parsed.elements);
    candidates := candidates + fromAttributes;
    var fromConfig := ScanConfigObjects(html);
    candidates := candidates + fromConfig;

    var jsonLd := FilterMap(parsed.jsonLd, JsonLdText);
    var metas := FilterMap(parsed.metaContents, MetaText);
    var elems := ElementTexts(parsed.elements);
    assert [] + [html] == [html];
    CandidatesOfConcat([html], jsonLd);
    CandidatesOfConcat([html] + jsonLd, metas);
    CandidatesOfConcat([html] + jsonLd + metas, elems);
    CandidatesOfConcat([html] + jsonLd + metas + elems, ConfigTexts(html, ConfigPatterns));
  }

  lemma AssetStep(assets: seq<string>, fetchAsset: string -> AssetFetch, i: nat)
    requires i < |assets|
    ensures var r := fetchAsset(assets[i]);
      if r.AssetText? then
        && AssetTexts(assets[..i + 1], fetchAsset) == AssetTexts(assets[..i], fetchAsset) + [r.text]
        && AssetNotes(assets[..i + 1], fetchAsset) == AssetNotes(assets[..i], fetchAsset)
      else
        && AssetTexts(assets[..i + 1], fetchAsset) == AssetTexts(assets[..i], fetchAsset)
        && AssetNotes(assets[..i + 1], fetchAsset) == AssetNotes(assets[..i], fetchAsset) + [AssetNote(assets[i], r.error)]
  {
    assert assets[..i + 1][..i] == assets[..i];
  }

  /** The asset loop of the scanning: each fetched body is scanned, each failure noted. */
  method ScanAssets(assets: seq<string>, fetchAsset: string -> AssetFetch) returns (candidates: set<string>, notes: seq<string>)
    ensures candidates == CandidatesOf(AssetTexts(assets, fetchAsset))
    ensures notes == AssetNotes(assets, fetchAsset)
  {
    candidates := {};
    notes := [];
    var i := 0;
    while i < |assets|
      invariant 0 <= i <= |assets|
      invariant candidates == CandidatesOf(AssetTexts(assets[..i], fetchAsset))
      invariant notes == AssetNotes(assets[..i], fetchAsset)
    {
      var url := assets[i];
      AssetStep(assets, fetchAsset, i);
      match fetchAsset(url) {
        case AssetText(txt) =>
          var found := TokenCandidates(txt);
          CandidatesOfStep(AssetTexts(assets[..i], fetchAsset), txt);
          candidates := candidates + Elems(found);
        case AssetFailed(error) =>
          notes := notes + [AssetNote(url, error)];
      }
      i := i + 1;
    }
    assert assets[..i] == assets;
  }

  // ------------------------------------------------------------------
  // Validation of the pool and the result

  /** `_validate_token(result["host"], tok)["valid"]`, with the default API version. */
  predicate IsValidToken(host: string, token: string, env: Env, backend: Backend)
  {
    Validate(host, token, DefaultApiVersion(env), env, backend).valid
  }

  /** The `tokens_ranked` entries appended for the valid tokens, before the sort. */
  function RankedEntries(tokens: seq<string>, host: string, env: Env, backend: Backend): (r: seq<RankedToken>)
    ensures |r| == |tokens|
    decreases |tokens|
  {
    if |tokens| == 0 then []
    else
      var n := |tokens| - 1;
      RankedEntries(tokens[..n], host, env, backend)
        + [RankedToken(tokens[n], Validate(host, tokens[n], DefaultApiVersion(env), env, backend).permissions)]
  }

  lemma RankedEntriesStep(tokens: seq<string>, t: string, host: string, env: Env, backend: Backend)
    ensures RankedEntries(tokens + [t], host, env, backend)
      == RankedEntries(tokens, host, env, backend) + [RankedToken(t, Validate(host, t, DefaultApiVersion(env), env, backend).permissions)]
  {
    assert (tokens + [t])[..|tokens|] == tokens;
  }

  lemma {:induction false} RankedEntriesAt(tokens: seq<string>, host: string, env: Env, backend: Backend, i: nat)
    requires i < |tokens|
    ensures RankedEntries(tokens, host, env, backend)[i]
      == RankedToken(tokens[i], Validate(host, tokens[i], DefaultApiVersion(env), env, backend).permissions)
    decreases |tokens|
  {
    var n := |tokens| - 1;
    if i < n {
      RankedEntriesAt(tokens[..n], host, env, backend, i);
    }
  }

  /** The loop `for tok in candidates`: every candidate is validated once, in some order
   *  of the set, and lands in `tokens_valid` (with its ranked entry) or `tokens_invalid`. */
  method ValidateCandidates(host: string, candidates: set<string>, env: Env, backend: Backend)
    returns (valid: seq<string>, ranked: seq<RankedToken>, invalid: seq<string>)
    ensures forall t :: t in valid <==> t in candidates && IsValidToken(host, t, env, backend)
    ensures forall t :: t in invalid <==> t in candidates && !IsValidToken(host, t, env, backend)
    ensures NoDup(valid) && NoDup(invalid)
    ensures ranked == RankedEntries(valid, host, env, backend)
  {
    valid, ranked, invalid := [], [], [];
    var remaining := candidates;
    while remaining != {}
      invariant remaining <= candidates
      invariant forall t :: t in valid <==> t in candidates && t !in remaining && IsValidToken(host, t, env, backend)
      invariant forall t :: t in invalid <==> t in candidates && t !in remaining && !IsValidToken(host, t, env, backend)
      invariant NoDup(valid) && NoDup(invalid)
      invariant ranked == RankedEntries(valid, host, env, backend)
      decreases |remaining|
    {
      var tok :| tok in remaining;
      var validation := ValidateToken(host, tok, DefaultApiVersion(env), env, backend);
      if validation.valid {
        RankedEntriesStep(valid, tok, host, env, backend);
        valid := valid + [tok];
        ranked := ranked + [RankedToken(tok, validation.permissions)];
      } else {
        invalid := invalid + [tok];
      }
      remaining := remaining - {tok};
    }
  }

  /** What `discover_shopify` returns: a note for a failed initial fetch; nothing for a
   *  page that is not a storefront; otherwise the canonical host, every pooled candidate
   *  in exactly the list its validation decides (the valid ones also ranked), and one
   *  note per failed asset fetch and failed capture. */
  ghost predicate DiscoveryOutcome(result: DiscoveryResult, netloc: string, fetch: PageFetch, maxAssets: int,
                                   resolve: string -> string, fetchAsset: string -> AssetFetch, capture: Capture,
                                   env: Env, backend: Backend)
  {
    match fetch
    case FetchFailed(error) => result == EmptyResult.(notes := ["initial fetch failed: " + error])
    case Fetched(html, headerNames, parsed) =>
      if !IsShopify(headerNames, html) then result == EmptyResult
      else
        var host := CanonicalHost(html, netloc);
        var assets := AssetsOf(parsed.tags, maxAssets, resolve);
        var pool := CandidatePool(html, parsed, assets, fetchAsset, capture);
        && result.shopify && result.host == Some(host)
        && (forall t :: t in result.tokensValid <==> t in pool && IsValidToken(host, t, env, backend))
        && (forall t :: t in result.tokensInvalid <==> t in pool && !IsValidToken(host, t, env, backend))
        && NoDup(result.tokensValid) && NoDup(result.tokensInvalid)
        && result.tokensRanked == RankByPermissions(RankedEntries(result.tokensValid, host, env, backend))
        && result.notes == AssetNotes(assets, fetchAsset) + CaptureNotes(capture)
  }

  /** The candidate set of a storefront page and the notes its secondary fetches leave. */
  method PoolCandidates(html: string, parsed: ParsedPage, assets: seq<string>,
                        fetchAsset: string -> AssetFetch, capture: Capture)
    returns (candidates: set<string>, notes: seq<string>)
    ensures candidates == CandidatePool(html, parsed, assets, fetchAsset, capture)
    ensures notes == AssetNotes(assets, fetchAsset) + CaptureNotes(capture)
  {
    var fromPage := ScanPage(html, parsed);
    var fromAssets, assetNotes := ScanAssets(assets, fetchAsset);
    CandidatesOfConcat(PageTexts(html, parsed), AssetTexts(assets, fetchAsset));
    candidates := fromPage + fromAssets;
    notes := assetNotes;
    match capture {
      case Captured(tokens) =>
        candidates := candidates + Elems(tokens);
      case CaptureFailed(error) =>
        notes := notes + ["network token capture error: " + error];
    }
  }

  /** `discover_shopify`, after its initial fetch. */
  method DiscoverShopify(netloc: string, fetch: PageFetch, maxAssets: int, resolve: string -> string,
                         fetchAsset: string -> AssetFetch, capture: Capture, env: Env, backend: Backend)
    returns (result: DiscoveryResult)
    ensures DiscoveryOutcome(result, netloc, fetch, maxAssets, resolve, fetchAsset, capture, env, backend)
  {
    if fetch.FetchFailed? {
      result := EmptyResult.(notes := ["initial fetch failed: " + fetch.error]);
      return;
    }
    var html := fetch.html;
    if !IsShopify(fetch.headerNames, html) {
      result := EmptyResult;
      return;
    }
    var host := CanonicalHost(html, netloc);
    var assets := CollectAssets(fetch.parsed.tags, maxAssets, resolve);
    var candidates, notes := PoolCandidates(html, fetch.parsed, assets, fetchAsset, capture);
    var valid, ranked, invalid := ValidateCandidates(host, candidates, env, backend);
    result := DiscoveryResult(true, Some(host), valid, RankByPermissions(ranked), invalid, notes);
  }

  /** Every pooled candidate of a storefront lands in exactly one of `tokens_valid` and
   *  `tokens_invalid`, and nothing else lands in either. */
  lemma DiscoveryPartitionsPool(result: DiscoveryResult, netloc: string, html: string, headerNames: seq<string>,
                                parsed: ParsedPage, maxAssets: int, resolve: string -> string,
                                fetchAsset: string -> AssetFetch, capture: Capture, env: Env, backend: Backend, t: string)
    requires DiscoveryOutcome(result, netloc, Fetched(html, headerNames, parsed), maxAssets, resolve, fetchAsset, capture, env, backend)
    requires IsShopify(headerNames, html)
    ensures (t in CandidatePool(html, parsed, AssetsOf(parsed.tags, maxAssets, resolve), fetchAsset, capture))
        <==> (t in result.tokensValid || t in result.tokensInvalid)
    ensures !(t in result.tokensValid && t in result.tokensInvalid)
  {
  }

  /** `tokens_ranked` holds one entry per valid token, with that token's permissions,
   *  ordered by descending permission count, ties in validation order. */
  lemma DiscoveryRanking(result: DiscoveryResult, netloc: string, html: string, headerNames: seq<string>,
                         parsed: ParsedPage, maxAssets: int, resolve: string -> string,
                         fetchAsset: string -> AssetFetch, capture: Capture, env: Env, backend: Backend)
    requires DiscoveryOutcome(result, netloc, Fetched(html, headerNames, parsed), maxAssets, resolve, fetchAsset, capture, env, backend)
    requires IsShopify(headerNames, html)
    ensures var entries := RankedEntries(result.tokensValid, CanonicalHost(html, netloc), env, backend);
      && |result.tokensRanked| == |result.tokensValid|
      && multiset(result.tokensRanked) == multiset(entries)
      && SortedByRank(result.tokensRanked)
      && forall k: nat :: WithRank(result.tokensRanked, k) == WithRank(entries, k)
  {
    var entries := RankedEntries(result.tokensValid, CanonicalHost(html, netloc), env, backend);
    RankingIsSorted(entries);
    forall k: nat ensures WithRank(result.tokensRanked, k) == WithRank(entries, k) {
      RankingIsStable(entries, k);
    }
    assert |multiset(result.tokensRanked)| == |multiset(entries)|;
  }

  /** The entry of each valid token carries exactly the permissions its validation found. */
  lemma RankedEntryPermissions(result: DiscoveryResult, netloc: string, html: string, headerNames: seq<string>,
                               parsed: ParsedPage, maxAssets: int, resolve: string -> string,
                               fetchAsset: string -> AssetFetch, capture: Capture, env: Env, backend: Backend,
                               e: RankedToken)
    requires DiscoveryOutcome(result, netloc, Fetched(html, headerNames, parsed), maxAssets, resolve, fetchAsset, capture, env, backend)
    requires IsShopify(headerNames, html)
    requires e in result.tokensRanked
    ensures e.token in result.tokensValid
    ensures e.permissions == Validate(CanonicalHost(html, netloc), e.token, DefaultApiVersion(env), env, backend).permissions
  {
    var host := CanonicalHost(html, netloc);
    var entries := RankedEntries(result.tokensValid, host, env, backend);
    assert e in multiset(entries);
    var i :| 0 <= i < |entries| && entries[i] == e;
    RankedEntriesAt(result.tokensValid, host, env, backend, i);
  }

  // ------------------------------------------------------------------
  // shopify_discover

  /** One entry of `api_guidance`. */
  datatype TokenGuidance = TokenGuidance(token: string, guidance: ApiGuidance)

  /** The guidance for each ranked token, in ranking order; the entries carry no denial
   *  list, so the denials passed on are always empty. */
  function GuidanceFor(ranked: seq<RankedToken>): (g: seq<TokenGuidance>)
    ensures |g| == |ranked|
    decreases |ranked|
  {
    if |ranked| == 0 then []
    else
      var n := |ranked| - 1;
      GuidanceFor(ranked[..n]) + [TokenGuidance(ranked[n].token, ApiGuidanceOf(ranked[n].permissions, []))]
  }

  lemma GuidanceForStep(ranked: seq<RankedToken>, i: nat)
    requires i < |ranked|
    ensures GuidanceFor(ranked[..i + 1]) == GuidanceFor(ranked[..i]) + [TokenGuidance(ranked[i].token, ApiGuidanceOf(ranked[i].permissions, []))]
  {
    assert ranked[..i + 1][..i] == ranked[..i];
  }

  /** The loop of `shopify_discover` over the ranked tokens. */
  method GuidanceEntries(ranked: seq<RankedToken>) returns (entries: seq<TokenGuidance>)
    ensures entries == GuidanceFor(ranked)
  {
    entries := [];
    for i := 0 to |ranked|
      invariant entries == GuidanceFor(ranked[..i])
    {
      var info := ranked[i];
      var guidance := GenerateApiGuidance(info.permissions, []);
      GuidanceForStep(ranked, i);
      entries := entries + [TokenGuidance(info.token, guidance)];
    }
    assert ranked[..|ranked|] == ranked;
  }

  /** `shopify_discover`: the discovery result, plus `api_guidance` exactly when some
   *  token is valid. */
  method ShopifyDiscover(netloc: string, fetch: PageFetch, resolve: string -> string,
                         fetchAsset: string -> AssetFetch, capture: Capture, env: Env, backend: Backend)
    returns (result: DiscoveryResult, apiGuidance: Option<seq<TokenGuidance>>)
    ensures DiscoveryOutcome(result, netloc, fetch, 30, resolve, fetchAsset, capture, env, backend)
    ensures apiGuidance.Some? <==> result.tokensValid != []
    ensures apiGuidance.Some? ==> apiGuidance.value == GuidanceFor(result.tokensRanked)
  {
    result := DiscoverShopify(netloc, fetch, 30, resolve, fetchAsset, capture, env, backend);
    apiGuidance := None;
    if result.tokensValid != [] {
      var entries := GuidanceEntries(result.tokensRanked);
      apiGuidance := Some(entries);
    }
  }

  /** Every guidance entry names its ranked token, and none lists an operation to avoid. */
  lemma {:induction false} GuidanceNeverAvoids(ranked: seq<RankedToken>, i: nat)
    requires i < |ranked|
    ensures GuidanceFor(ranked)[i].token == ranked[i].token
    ensures GuidanceFor(ranked)[i].guidance == ApiGuidanceOf(ranked[i].permissions, [])
    ensures GuidanceFor(ranked)[i].guidance.operationsToAvoid == []
    decreases |ranked|
  {
    var n := |ranked| - 1;
    if i < n {
      GuidanceNeverAvoids(ranked[..n], i);
    }
    NoDenialsNoAvoidance(ranked[i].permissions);
  }
}
