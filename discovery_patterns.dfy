/**
 * The fixed heuristics of the discovery module: header prefixes, HTML
 * markers, token-shape patterns, the context vocabulary and client
 * initialisation patterns of the candidate gate, and the host patterns of
 * the canonicaliser.
 *
 * Each regular expression is written out as a scanner over positions.
 * Patterns compiled with `re.I` are run on the lower-cased text, which for
 * these ASCII patterns finds the same matches at the same positions.
 */
module DiscoveryPatterns {
  import opened Wrappers
  import opened Text

  // ------------------------------------------------------------------
  // Platform classifier signals

  /** HDR_PREFIXES. The character after `x` is U+2011 (non-breaking hyphen), not `-`. */
  const HdrPrefixes: seq<string> :=
    ["x\U{2011}shopify", "x\U{2011}shop", "x\U{2011}shardid", "x\U{2011}sorting-hat"]

  /** HTML_MARKERS, in order. */
  datatype HtmlMarker = CdnHost | SectionClass | ShopifyGlobal | ShopSubdomain

  const HtmlMarkers: seq<HtmlMarker> := [CdnHost, SectionClass, ShopifyGlobal, ShopSubdomain]

  predicate NoQuoteBetween(s: string, a: nat, b: nat)
    requires a <= b <= |s|
  {
    forall x | a <= x < b :: !IsQuote(s[x])
  }

  /** Whether marker `mk` (compiled with `re.I`) finds a match in `l`, the lower-cased page. */
  predicate MarkerMatches(mk: HtmlMarker, l: string)
  {
    match mk
    // cdn\.shopify(?:cdn)?\.net|cdn\.shopify\.com
    case CdnHost =>
      Contains(l, "cdn.shopify.net") || Contains(l, "cdn.shopifycdn.net") || Contains(l, "cdn.shopify.com")
    // class=["'][^"']*shopify-section
    case SectionClass =>
      exists i, k | 0 <= i && i + 7 <= k <= |l| ::
        OccursAt(l, i, "class=") && IsQuote(l[i + 6]) && NoQuoteBetween(l, i + 7, k)
        && OccursAt(l, k, "shopify-section")
    // window\.Shopify|Shopify\.theme
    case ShopifyGlobal =>
      Contains(l, "window.shopify") || Contains(l, "shopify.theme")
    // [a-zA-Z0-9-]+\.myshopify\.com
    case ShopSubdomain =>
      exists i | 1 <= i <= |l| :: OccursAt(l, i, ".myshopify.com") && (IsAlnum(l[i - 1]) || l[i - 1] == '-')
  }

  // ------------------------------------------------------------------
  // TOKEN_PATTERNS

  /** One `finditer` match: the span of the whole match and its group 1. */
  datatype Match = Match(start: nat, end: nat, group: string)

  /** `\b([a-f0-9]{lo,hi})\b` (with `re.I`) and the JWT pattern. */
  datatype TokenPattern = HexToken(lo: nat, hi: nat) | JwtToken

  const TokenPatterns: seq<TokenPattern> := [HexToken(32, 32), HexToken(24, 64), JwtToken]

  predicate AllHex(s: string)
  {
    forall k | 0 <= k < |s| :: IsHexDigit(s[k])
  }

  /** End of the run of word characters that starts at `i`. */
  function RunEnd(t: string, i: nat): (r: nat)
    requires i <= |t|
    ensures i <= r <= |t|
    ensures forall k :: i <= k < r ==> IsWordChar(t[k])
    ensures r == |t| || !IsWordChar(t[r])
    decreases |t| - i
  {
    if i < |t| && IsWordChar(t[i]) then RunEnd(t, i + 1) else i
  }

  /** A position the hex scan may stand on: not strictly inside a run of word characters. */
  predicate ScanPoint(t: string, i: nat)
  {
    i <= |t| && (i == 0 || i == |t| || !IsWordChar(t[i]) || !IsWordChar(t[i - 1]))
  }

  /** `m` is a match of `\b([a-f0-9]{lo,hi})\b` in `t`: a whole run of word characters,
   *  all of them hex digits, of a length between `lo` and `hi`. */
  predicate IsHexMatch(t: string, m: Match, lo: nat, hi: nat)
  {
    && m.start < m.end <= |t|
    && m.group == t[m.start..m.end]
    && AllHex(m.group)
    && lo <= |m.group| <= hi
    && (m.start == 0 || !IsWordChar(t[m.start - 1]))
    && (m.end == |t| || !IsWordChar(t[m.end]))
  }

  /** `finditer` of `\b([a-f0-9]{lo,hi})\b`, from a scan point `i` on. Positions strictly
   *  inside a run of word characters cannot satisfy `\b`, so each run is judged once. */
  function HexScan(t: string, i: nat, lo: nat, hi: nat): (ms: seq<Match>)
    requires ScanPoint(t, i) && 0 < lo
    ensures forall m :: m in ms ==> IsHexMatch(t, m, lo, hi) && i <= m.start
    decreases |t| - i
  {
    if i == |t| then []
    else if !IsWordChar(t[i]) then HexScan(t, i + 1, lo, hi)
    else
      var r := RunEnd(t, i);
      var rest := HexScan(t, r, lo, hi);
      if AllHex(t[i..r]) && lo <= r - i <= hi then [Match(i, r, t[i..r])] + rest else rest
  }

  /** Every hex match at or after a scan point is found: with the soundness
   *  ensures of HexScan, the scan lists exactly the matches of the pattern. */
  lemma {:induction false} HexScanComplete(t: string, i: nat, lo: nat, hi: nat, m: Match)
    requires ScanPoint(t, i) && 0 < lo
    requires IsHexMatch(t, m, lo, hi) && i <= m.start
    ensures m in HexScan(t, i, lo, hi)
    decreases |t| - i
  {
    if !IsWordChar(t[i]) {
      assert i != m.start;
      HexScanComplete(t, i + 1, lo, hi, m);
    } else {
      var r := RunEnd(t, i);
      if i == m.start {
        assert r == m.end by {
          assert forall k :: m.start <= k < m.end ==> IsWordChar(t[k]) by {
            forall k | m.start <= k < m.end ensures IsWordChar(t[k]) {
              assert t[k] == m.group[k - m.start];
            }
          }
          RunEndIs(t, i, m.end);
        }
      } else {
        assert i <= m.start - 1 && !IsWordChar(t[m.start - 1]);
        HexScanComplete(t, r, lo, hi, m);
      }
    }
  }

  /** A run of word characters ended by a non-word character (or the end) ends there. */
  lemma {:induction false} RunEndIs(t: string, i: nat, e: nat)
    requires i <= e <= |t|
    requires forall k :: i <= k < e ==> IsWordChar(t[k])
    requires e == |t| || !IsWordChar(t[e])
    ensures RunEnd(t, i) == e
    decreases |t| - i
  {
    if i < e {
      RunEndIs(t, i + 1, e);
    }
  }

  predicate IsJwtChar(c: char) { IsAlnum(c) || c == '_' || c == '-' }

  /** `eyJ[a-zA-Z0-9_-]{10,}` (head) or `[a-zA-Z0-9_-]{10,}` (tail), with `re.I`. */
  predicate JwtSegment(s: string, head: bool)
  {
    && |s| >= (if head then 13 else 10)
    && (head ==> Lower(s[..3]) == "eyj")
    && forall k | 0 <= k < |s| :: IsJwtChar(s[k])
  }

  /** Group 1 of the JWT pattern: three segments joined by two dots. */
  predicate IsJwtBody(b: string)
  {
    exists p, q | 0 <= p < q < |b| ::
      b[p] == '.' && b[q] == '.'
      && JwtSegment(b[..p], true) && JwtSegment(b[p + 1..q], true) && JwtSegment(b[q + 1..], false)
  }

  /** `m` is a match of `"(eyJ…\.eyJ…\.…)"`: a quoted JWT-shaped string. */
  predicate IsJwtMatch(t: string, m: Match)
  {
    && m.start + 1 < m.end <= |t|
    && t[m.start] == '"' && t[m.end - 1] == '"'
    && m.group == t[m.start + 1..m.end - 1]
    && IsJwtBody(m.group)
  }

  /** End of the run of `[a-zA-Z0-9_.-]` characters starting at `i`. */
  function JwtRunEnd(t: string, i: nat): (r: nat)
    requires i <= |t|
    ensures i <= r <= |t|
    decreases |t| - i
  {
    if i < |t| && (IsJwtChar(t[i]) || t[i] == '.') then JwtRunEnd(t, i + 1) else i
  }

  /** `finditer` of the JWT pattern from `i` on. The segment class excludes `.` and `"`,
   *  so a match opened by the quote at `i` can only close at the end of the run after it. */
  function JwtScan(t: string, i: nat): (ms: seq<Match>)
    requires i <= |t|
    ensures forall m :: m in ms ==> IsJwtMatch(t, m) && i <= m.start
    decreases |t| - i
  {
    if i == |t| then []
    else if t[i] == '"' then
      var e := JwtRunEnd(t, i + 1);
      if e < |t| && t[e] == '"' && IsJwtBody(t[i + 1..e]) then [Match(i, e + 1, t[i + 1..e])] + JwtScan(t, e + 1)
      else JwtScan(t, i + 1)
    else JwtScan(t, i + 1)
  }

  predicate IsMatchOf(p: TokenPattern, t: string, m: Match)
  {
    match p
    case HexToken(lo, hi) => IsHexMatch(t, m, lo, hi)
    case JwtToken => IsJwtMatch(t, m)
  }

  /** `pattern.finditer(text)` for one of TOKEN_PATTERNS. */
  function FindAll(p: TokenPattern, t: string): (ms: seq<Match>)
    requires p in TokenPatterns
    ensures forall m :: m in ms ==> IsMatchOf(p, t, m) && m.start < m.end <= |t|
  {
    match p
    case HexToken(lo, hi) => HexScan(t, 0, lo, hi)
    case JwtToken => JwtScan(t, 0)
  }

  // ------------------------------------------------------------------
  // The context gate of _token_candidates

  const TokenContexts: seq<string> := [
    "storefront", "token", "access_token", "accesstoken", "apikey", "api_key", "shopify",
    "graphql", "storefrontaccesstoken", "x-shopify", "publicaccesstoken", "client_id", "clientid"
  ]

  /** The init patterns: four `Callee\({[^}]*}` patterns and `fetch\([^)]*"/api/[^"]*"`.
   *  They are searched case-sensitively. */
  datatype InitPattern = BraceCall(callee: string) | ApiFetch

  const InitPatterns: seq<InitPattern> := [
    BraceCall("ShopifyBuy.buildClient"), BraceCall("createClient"),
    BraceCall("Shopify.loadFeatures"), BraceCall("new Client"), ApiFetch
  ]

  predicate HasCloseBrace(w: string, from: nat)
  {
    exists j | from <= j < |w| :: w[j] == '}'
  }

  predicate NoCloseParen(w: string, a: nat, b: nat)
    requires a <= b <= |w|
  {
    forall x | a <= x < b :: w[x] != ')'
  }

  predicate HasQuote(w: string, from: nat)
  {
    exists j | from <= j < |w| :: w[j] == '"'
  }

  /** `re.search(init, window)` succeeds. */
  predicate InitMatches(p: InitPattern, w: string)
  {
    match p
    case BraceCall(c) =>
      exists i | 0 <= i <= |w| :: OccursAt(w, i, c + "({") && HasCloseBrace(w, i + |c| + 2)
    case ApiFetch =>
      exists i, k | 0 <= i && i + 6 <= k <= |w| ::
        OccursAt(w, i, "fetch(") && NoCloseParen(w, i + 6, k) && OccursAt(w, k, "\"/api/") && HasQuote(w, k + 6)
  }

  /** A callee with an upper-case letter never occurs in a lower-case window, so of the five
   *  init patterns only ApiFetch can match the lower-cased window the source searches. */
  lemma LowerWindowMatchesOnlyFetch(p: InitPattern, w: string)
    requires p in InitPatterns && IsLower(w)
    ensures InitMatches(p, w) ==> p == ApiFetch
  {
    if p.BraceCall? {
      var c := p.callee;
      var u: nat := if c == "createClient" then 6 else if c == "new Client" then 4 else 0;
      assert u < |c| && IsUpper(c[u]);
      NoOccurrenceInLower(w, c + "({", u);
    }
  }

  /** A pattern with an upper-case letter does not occur in a lower-case string. */
  lemma NoOccurrenceInLower(w: string, p: string, u: nat)
    requires IsLower(w) && u < |p| && IsUpper(p[u])
    ensures forall i :: !OccursAt(w, i, p)
  {
    forall i: nat
      ensures !OccursAt(w, i, p)
    {
      if i + |p| <= |w| {
        assert w[i..i + |p|][u] == w[i + u];
        assert !IsUpper(w[i + u]);
      }
    }
  }

  // ------------------------------------------------------------------
  // Host patterns of _canonical_host

  const ShopSuffix := ".myshopify.com"

  /** MYSHOPIFY_PATTERNS (in order), the `Shopify.shop` assignment, and the loose scan. */
  datatype HostRule = QuotedDomain | BareDomain | DomainSetting | ShopAssignment | LooseDomain

  const MyshopifyPatterns: seq<HostRule> := [QuotedDomain, BareDomain, DomainSetting]

  predicate EndsInShopDomain(r: HostRule)
  {
    r.QuotedDomain? || r.BareDomain? || r.LooseDomain?
  }

  /** End of the run of `[a-zA-Z0-9-]` characters starting at `j`. */
  function LabelEnd(s: string, j: nat): (r: nat)
    requires j <= |s|
    ensures j <= r <= |s|
    decreases |s| - j
  {
    if j < |s| && (IsAlnum(s[j]) || s[j] == '-') then LabelEnd(s, j + 1) else j
  }

  /** End of the run of `[\w-]` characters starting at `j`. */
  function LooseLabelEnd(s: string, j: nat): (r: nat)
    requires j <= |s|
    ensures j <= r <= |s|
    decreases |s| - j
  {
    if j < |s| && (IsWordChar(s[j]) || s[j] == '-') then LooseLabelEnd(s, j + 1) else j
  }

  function SkipSpaces(s: string, j: nat): (r: nat)
    requires j <= |s|
    ensures j <= r <= |s|
    decreases |s| - j
  {
    if j < |s| && IsSpace(s[j]) then SkipSpaces(s, j + 1) else j
  }

  /** End of the run of `[^"']` characters starting at `j`. */
  function NonQuoteEnd(s: string, j: nat): (r: nat)
    requires j <= |s|
    ensures j <= r <= |s|
    decreases |s| - j
  {
    if j < |s| && !IsQuote(s[j]) then NonQuoteEnd(s, j + 1) else j
  }

  /** `[a-zA-Z0-9][a-zA-Z0-9-]*\.myshopify\.com` at `j` of the lower-cased text: its end. */
  function DomainAt(s: string, j: nat): (r: Option<nat>)
    requires j <= |s|
    ensures r.Some? ==> j < r.value <= |s| && EndsWith(s[j..r.value], ShopSuffix)
  {
    if j < |s| && IsAlnum(s[j]) then
      var e := LabelEnd(s, j + 1);
      if OccursAt(s, e, ShopSuffix) then
        assert s[j..e + |ShopSuffix|][e - j..] == s[e..e + |ShopSuffix|];
        Some(e + |ShopSuffix|)
      else None
    else None
  }

  /** Length of `https://` or `http://` at `j`, 0 when neither is there. */
  function SchemeLen(s: string, j: nat): nat
  {
    if OccursAt(s, j, "https://") then 8 else if OccursAt(s, j, "http://") then 7 else 0
  }

  /** Group 2 of `["'](https?://)?(domain)["'/]`, when the domain starts at `j`. */
  function QuotedDomainFrom(s: string, j: nat): (r: Option<string>)
    requires j <= |s|
    ensures r.Some? ==> EndsWith(r.value, ShopSuffix) && (IsLower(s) ==> IsLower(r.value))
  {
    match DomainAt(s, j)
    case Some(e) => if e < |s| && (IsQuote(s[e]) || s[e] == '/') then Some(s[j..e]) else None
    case None => None
  }

  /** Group 2 of `\b(https?://)?(domain)\b`, when the domain starts at `j`. */
  function BareDomainFrom(s: string, j: nat): (r: Option<string>)
    requires j <= |s|
    ensures r.Some? ==> EndsWith(r.value, ShopSuffix) && (IsLower(s) ==> IsLower(r.value))
  {
    match DomainAt(s, j)
    case Some(e) => if e == |s| || !IsWordChar(s[e]) then Some(s[j..e]) else None
    case None => None
  }

  /** Group 1 of `["'](body)["']` where the quote stands at `j`: a non-empty run of non-quotes. */
  function QuotedValueAt(s: string, j: nat): (r: Option<string>)
    requires j <= |s|
    ensures r.Some? && IsLower(s) ==> IsLower(r.value)
  {
    if j < |s| && IsQuote(s[j]) then
      var e := NonQuoteEnd(s, j + 1);
      if j + 1 < e < |s| then Some(s[j + 1..e]) else None
    else None
  }

  /** `["'](https?://)?([a-zA-Z0-9][a-zA-Z0-9-]*\.myshopify\.com)["'/]` at `i`: group 2. */
  function QuotedDomainAt(s: string, i: nat): (r: Option<string>)
    requires i <= |s|
    ensures r.Some? ==> EndsWith(r.value, ShopSuffix) && (IsLower(s) ==> IsLower(r.value))
  {
    if i < |s| && IsQuote(s[i]) then
      var n := SchemeLen(s, i + 1);
      var withScheme := if n > 0 && i + 1 + n <= |s| then QuotedDomainFrom(s, i + 1 + n) else None;
      if withScheme.Some? then withScheme else QuotedDomainFrom(s, i + 1)
    else None
  }

  /** `\b(https?://)?([a-zA-Z0-9][a-zA-Z0-9-]*\.myshopify\.com)\b` at `i`: group 2. */
  function BareDomainAt(s: string, i: nat): (r: Option<string>)
    requires i <= |s|
    ensures r.Some? ==> EndsWith(r.value, ShopSuffix) && (IsLower(s) ==> IsLower(r.value))
  {
    if i == 0 || !IsWordChar(s[i - 1]) then
      var n := SchemeLen(s, i);
      var withScheme := if n > 0 && i + n <= |s| then BareDomainFrom(s, i + n) else None;
      if withScheme.Some? then withScheme else BareDomainFrom(s, i)
    else None
  }

  /** `["']myshopify_domain["']\s*:\s*["']([^"']+)["']` at `i`: group 1. */
  function DomainSettingAt(s: string, i: nat): (r: Option<string>)
    requires i <= |s|
    ensures r.Some? && IsLower(s) ==> IsLower(r.value)
  {
    if i + 18 <= |s| && IsQuote(s[i]) && OccursAt(s, i + 1, "myshopify_domain") && IsQuote(s[i + 17]) then
      var j := SkipSpaces(s, i + 18);
      if j < |s| && s[j] == ':' then QuotedValueAt(s, SkipSpaces(s, j + 1)) else None
    else None
  }

  /** `Shopify\.shop\s*=\s*["']([^"']+)["']` (case-sensitive) at `i`: group 1. */
  function ShopAssignmentAt(s: string, i: nat): (r: Option<string>)
    requires i <= |s|
  {
    if OccursAt(s, i, "Shopify.shop") then
      var j := SkipSpaces(s, i + 12);
      if j < |s| && s[j] == '=' then QuotedValueAt(s, SkipSpaces(s, j + 1)) else None
    else None
  }

  /** `([\w-]+\.myshopify\.com)` at `i`: group 1. */
  function LooseDomainAt(s: string, i: nat): (r: Option<string>)
    requires i <= |s|
    ensures r.Some? ==> EndsWith(r.value, ShopSuffix) && (IsLower(s) ==> IsLower(r.value))
  {
    var e := LooseLabelEnd(s, i);
    if i < e && OccursAt(s, e, ShopSuffix) then
      assert s[i..e + |ShopSuffix|][e - i..] == s[e..e + |ShopSuffix|];
      Some(s[i..e + |ShopSuffix|])
    else None
  }

  /** The group the rule's `search` would report if its match started at `i`. */
  function MatchAt(rule: HostRule, s: string, i: nat): (r: Option<string>)
    requires i <= |s|
    ensures r.Some? && IsLower(s) && !rule.ShopAssignment? ==> IsLower(r.value)
    ensures r.Some? && EndsInShopDomain(rule) ==> EndsWith(r.value, ShopSuffix)
  {
    match rule
    case QuotedDomain => QuotedDomainAt(s, i)
    case BareDomain => BareDomainAt(s, i)
    case DomainSetting => DomainSettingAt(s, i)
    case ShopAssignment => ShopAssignmentAt(s, i)
    case LooseDomain => LooseDomainAt(s, i)
  }

  /** `re.search`: the match that starts leftmost, from `i` on. */
  function Search(rule: HostRule, s: string, i: nat): (r: Option<string>)
    requires i <= |s|
    ensures r.Some? ==> exists k :: i <= k <= |s| && MatchAt(rule, s, k) == r
    ensures r.None? <==> forall k :: i <= k <= |s| ==> MatchAt(rule, s, k).None?
    decreases |s| - i
  {
    if MatchAt(rule, s, i).Some? then MatchAt(rule, s, i)
    else if i == |s| then None
    else Search(rule, s, i + 1)
  }

  /** The match `re.search` reports is the leftmost: when `k` is the first position from
   *  `i` on where the rule matches, the search from `i` yields the match at `k`. */
  lemma SearchFindsFirst(rule: HostRule, s: string, i: nat, k: nat)
    requires i <= k <= |s| && MatchAt(rule, s, k).Some?
    requires forall j :: i <= j < k ==> MatchAt(rule, s, j).None?
    ensures Search(rule, s, i) == MatchAt(rule, s, k)
  {
    SearchFindsFirstFrom(rule, s, i, i, k);
  }

  /** The induction behind `SearchFindsFirst`, walking `i` from `b` up to `k`. */
  lemma {:induction false} SearchFindsFirstFrom(rule: HostRule, s: string, b: nat, i: nat, k: nat)
    requires b <= i <= k <= |s| && MatchAt(rule, s, k).Some?
    requires forall j :: b <= j < k ==> MatchAt(rule, s, j).None?
    ensures Search(rule, s, i) == MatchAt(rule, s, k)
    decreases k - i
  {
    if i == k {
      SearchHere(rule, s, i);
    } else {
      SearchPasses(rule, s, i);
      SearchFindsFirstFrom(rule, s, b, i + 1, k);
    }
  }

  lemma SearchHere(rule: HostRule, s: string, i: nat)
    requires i <= |s| && MatchAt(rule, s, i).Some?
    ensures Search(rule, s, i) == MatchAt(rule, s, i)
  {
  }

  lemma SearchPasses(rule: HostRule, s: string, i: nat)
    requires i < |s| && MatchAt(rule, s, i).None?
    ensures Search(rule, s, i) == Search(rule, s, i + 1)
  {
  }

  // ------------------------------------------------------------------
  // The config_patterns of discover_shopify (case-sensitive)

  /** `window.NAME = {...};`, `var NAME = {...};` and `const NAME = {...};`. */
  datatype ConfigPattern = WindowAssign | VarDecl | ConstDecl

  const ConfigPatterns: seq<ConfigPattern> := [WindowAssign, VarDecl, ConstDecl]

  /** What group 1 of a config pattern always is: a `{`, at least one character, and a
   *  `}`, with no `;` anywhere. */
  predicate IsConfigObject(g: string)
  {
    |g| >= 3 && g[0] == '{' && g[|g| - 1] == '}' && forall k | 0 <= k < |g| :: g[k] != ';'
  }

  /** Index of the first `;` at or after `j`, or `|s|`. */
  function SemicolonFrom(s: string, j: nat): (r: nat)
    requires j <= |s|
    ensures j <= r <= |s| && (r < |s| ==> s[r] == ';')
    ensures forall k | j <= k < r :: s[k] != ';'
    decreases |s| - j
  {
    if j == |s| || s[j] == ';' then j else SemicolonFrom(s, j + 1)
  }

  /** Where the name of a declaration starts: after `window.`, or after `var`/`const` and at
   *  least one space. */
  function NameStart(p: ConfigPattern, s: string, i: nat): (r: Option<nat>)
    requires i <= |s|
    ensures r.Some? ==> i < r.value <= |s|
  {
    match p
    case WindowAssign => if OccursAt(s, i, "window.") then Some(i + 7) else None
    case VarDecl =>
      if OccursAt(s, i, "var") && SkipSpaces(s, i + 3) > i + 3 then Some(SkipSpaces(s, i + 3)) else None
    case ConstDecl =>
      if OccursAt(s, i, "const") && SkipSpaces(s, i + 5) > i + 5 then Some(SkipSpaces(s, i + 5)) else None
  }

  /** A config pattern anchored at `i`. `[^;]+` stops before the first `;`, so the braces
   *  close exactly there. */
  function ConfigMatchAt(p: ConfigPattern, s: string, i: nat): (r: Option<Match>)
    requires i <= |s|
    ensures r.Some? ==> i < r.value.end <= |s| && IsConfigObject(r.value.group)
  {
    var n := NameStart(p, s, i);
    if n.None? then None
    else
      var e := RunEnd(s, n.value);
      var a := SkipSpaces(s, e);
      if e == n.value || a == |s| || s[a] != '=' then None
      else
        var b := SkipSpaces(s, a + 1);
        if b == |s| || s[b] != '{' then None
        else
          var q := SemicolonFrom(s, b + 1);
          if q == |s| || q < b + 3 || s[q - 1] != '}' then None
          else Some(Match(b, q + 1, s[b..q]))
  }

  /** `finditer`: group 1 of every non-overlapping match, scanning from `i`. */
  function ConfigScan(p: ConfigPattern, s: string, i: nat): (gs: seq<string>)
    requires i <= |s|
    ensures forall g | g in gs :: IsConfigObject(g)
    decreases |s| - i
  {
    if i == |s| then []
    else
      var m := ConfigMatchAt(p, s, i);
      if m.Some? then [m.value.group] + ConfigScan(p, s, m.value.end) else ConfigScan(p, s, i + 1)
  }
}
