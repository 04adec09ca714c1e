/**
 * Token validation (`_validate_token`), the guidance derived from a token's
 * permissions (`generate_api_guidance`) and the ranking of valid tokens.
 */
module TokenValidation {
  import opened Wrappers
  import opened Seqs
  import opened GraphqlClient

  // ------------------------------------------------------------------
  // _validate_token

  /** One entry of `permission_tests`. */
  datatype Probe = Probe(name: string, query: string)

  /** The liveness query. */
  const SchemaQuery := "{__schema{queryType{name}}}"

  const ListingPermission := "unauthenticated_read_product_listings"
  const CartPermission := "cart_create"
  const ProductTypesPermission := "product_types_access"

  /** `permission_tests`, in order. */
  const PermissionTests: seq<Probe> := [
    Probe(ListingPermission, "{products(first:1){edges{node{id}}}}"),
    Probe(CartPermission, "mutation{cartCreate(input:{}){cart{id}}}"),
    Probe("unauthenticated_read_content", "{shop{name description}}"),
    Probe("unauthenticated_read_customer",
          "mutation{customerAccessTokenCreate(input:{email:\"test@example.com\",password:\"test\"}){customerUserErrors{message}}}"),
    Probe("unauthenticated_read_collection_listings", "{collections(first:1){edges{node{id}}}}"),
    Probe(ProductTypesPermission, "{productTypes(first:1){edges{node}}}"),
    Probe("search_access", "{search(query:\"test\",types:PRODUCT,first:1){edges{node{__typename}}}}"),
    Probe("metafields_access", "{shop{metafields(first:1){edges{node{id}}}}}")
  ]

  /** The probe names, in catalogue order. */
  function Names(probes: seq<Probe>): (names: seq<string>)
    ensures |names| == |probes| && forall i | 0 <= i < |probes| :: names[i] == probes[i].name
  {
    if probes == [] then [] else [probes[0].name] + Names(probes[1..])
  }

  const ProbeNames: seq<string> := Names(PermissionTests)

  /** The dictionary `_validate_token` returns. */
  datatype Validation = Validation(valid: bool, permissions: seq<string>, accessDenied: seq<string>)

  /** The liveness answer: no exception and `"__schema"` in the serialised response. */
  predicate IsLive(o: Outcome)
  {
    o.Returned? && o.response.mentionsSchema
  }

  /** `data and "errors" not in data`: a non-empty response object without an `errors` key. */
  predicate Granted(o: Outcome)
  {
    o.Returned? && (o.response.otherKeys || !o.response.errors.NoErrorsKey?) && o.response.errors.NoErrorsKey?
  }

  function GrantedFlags(outcomes: seq<Outcome>): (f: seq<bool>)
    ensures |f| == |outcomes| && forall i | 0 <= i < |f| :: f[i] == Granted(outcomes[i])
  {
    seq(|outcomes|, i requires 0 <= i < |outcomes| => Granted(outcomes[i]))
  }

  function RaisedFlags(outcomes: seq<Outcome>): (f: seq<bool>)
    ensures |f| == |outcomes| && forall i | 0 <= i < |f| :: f[i] == outcomes[i].Raised?
  {
    seq(|outcomes|, i requires 0 <= i < |outcomes| => outcomes[i].Raised?)
  }

  /** The verdict for a token, given the liveness outcome and the probes' outcomes (in
   *  catalogue order): probes count only for a live token; a probe that returned a
   *  response without errors grants its permission, one that raised is a denial. */
  function ValidationOf(live: Outcome, outcomes: seq<Outcome>): Validation
    requires |outcomes| == |PermissionTests|
  {
    if IsLive(live) then
      Validation(true, Select(ProbeNames, GrantedFlags(outcomes)), Select(ProbeNames, RaisedFlags(outcomes)))
    else Validation(false, [], [])
  }

  /** The outcomes of the probes for a client with these fields. */
  function ProbeOutcomes(host: Option<string>, token: Option<string>, apiVersion: string, backend: Backend): (os: seq<Outcome>)
    ensures |os| == |PermissionTests|
    ensures forall i | 0 <= i < |os| :: os[i] == ExecuteOutcome(host, token, apiVersion, PermissionTests[i].query, None, backend)
  {
    seq(|PermissionTests|, i requires 0 <= i < |PermissionTests| =>
      ExecuteOutcome(host, token, apiVersion, PermissionTests[i].query, None, backend))
  }

  /** What `_validate_token(host, token, api_version)` returns against `backend`. */
  function Validate(host: string, token: string, apiVersion: string, env: Env, backend: Backend): Validation
  {
    var h := ResolveHost(Some(host), env);
    var t := ResolveToken(Some(token), env);
    ValidationOf(ExecuteOutcome(h, t, apiVersion, SchemaQuery, None, backend), ProbeOutcomes(h, t, apiVersion, backend))
  }

  /** `_validate_token`: one client, the liveness query, then (for a live token) every
   *  probe in order; an exception from the liveness query ends with the initial result. */
  method ValidateToken(host: string, token: string, apiVersion: string, env: Env, backend: Backend)
    returns (results: Validation)
    ensures results == Validate(host, token, apiVersion, env, backend)
  {
    var client := new GraphQLClient(Some(host), Some(token), apiVersion, env);
    results := Validation(false, [], []);
    var resp := client.Execute(SchemaQuery, None, backend);
    if resp.Raised? {
      return;
    }
    if resp.response.mentionsSchema {
      results := results.(valid := true);
      var permissions, accessDenied := RunProbes(client, backend);
      results := results.(permissions := permissions, accessDenied := accessDenied);
    }
  }

  /** The probe loop of `_validate_token`: a probe that raised is a denial, one that
   *  returned a response without errors grants its permission. */
  method RunProbes(client: GraphQLClient, backend: Backend) returns (permissions: seq<string>, accessDenied: seq<string>)
    ensures var outcomes := ProbeOutcomes(client.host, client.token, client.apiVersion, backend);
      && permissions == Select(ProbeNames, GrantedFlags(outcomes))
      && accessDenied == Select(ProbeNames, RaisedFlags(outcomes))
  {
    ghost var outcomes := ProbeOutcomes(client.host, client.token, client.apiVersion, backend);
    ghost var granted := GrantedFlags(outcomes);
    ghost var raised := RaisedFlags(outcomes);
    permissions, accessDenied := [], [];
    for i := 0 to |PermissionTests|
      invariant permissions == Select(ProbeNames[..i], granted[..i])
      invariant accessDenied == Select(ProbeNames[..i], raised[..i])
    {
      var test := PermissionTests[i];
      var data := client.Execute(test.query, None, backend);
      assert data == outcomes[i];
      assert test.name == ProbeNames[i];
      if data.Raised? {
        accessDenied := accessDenied + [test.name];
      } else if Granted(data) {
        permissions := permissions + [test.name];
      }
      SelectStep(ProbeNames, granted, i);
      SelectStep(ProbeNames, raised, i);
    }
    assert ProbeNames[..|PermissionTests|] == ProbeNames;
    assert granted[..|PermissionTests|] == granted;
    assert raised[..|PermissionTests|] == raised;
  }

  lemma ProbeNamesDistinct()
    ensures NoDup(ProbeNames)
  {
    assert ProbeNames == ["unauthenticated_read_product_listings", "cart_create", "unauthenticated_read_content",
      "unauthenticated_read_customer", "unauthenticated_read_collection_listings", "product_types_access",
      "search_access", "metafields_access"];
  }

  /** A token whose liveness query fails, raises or does not mention `__schema` is
   *  invalid with no permissions and no denials; a live one is valid whatever its
   *  probes do. */
  lemma ValidityIsLiveness(live: Outcome, outcomes: seq<Outcome>)
    requires |outcomes| == |PermissionTests|
    ensures ValidationOf(live, outcomes).valid <==> IsLive(live)
    ensures !IsLive(live) ==> ValidationOf(live, outcomes).permissions == [] && ValidationOf(live, outcomes).accessDenied == []
  {
  }

  /** For a live token, a probe's name is listed as a permission iff the probe returned a
   *  non-empty response without an `errors` key, and as a denial iff the probe raised; so
   *  no name is in both lists, and a probe answered with GraphQL errors is in neither. */
  lemma ProbeClassification(live: Outcome, outcomes: seq<Outcome>, i: nat)
    requires |outcomes| == |PermissionTests| && i < |PermissionTests| && IsLive(live)
    ensures ProbeNames[i] in ValidationOf(live, outcomes).permissions <==> Granted(outcomes[i])
    ensures ProbeNames[i] in ValidationOf(live, outcomes).accessDenied <==> outcomes[i].Raised?
    ensures !(ProbeNames[i] in ValidationOf(live, outcomes).permissions && ProbeNames[i] in ValidationOf(live, outcomes).accessDenied)
    ensures outcomes[i].Returned? && !outcomes[i].response.errors.NoErrorsKey? ==>
      ProbeNames[i] !in ValidationOf(live, outcomes).permissions && ProbeNames[i] !in ValidationOf(live, outcomes).accessDenied
  {
    ProbeNamesDistinct();
    SelectMember(ProbeNames, GrantedFlags(outcomes), ProbeNames[i]);
    SelectMember(ProbeNames, RaisedFlags(outcomes), ProbeNames[i]);
  }

  /** Both lists of a verdict are duplicate-free, name only catalogued probes, and keep
   *  catalogue order (each is a selection from the catalogue). */
  lemma VerdictLists(live: Outcome, outcomes: seq<Outcome>)
    requires |outcomes| == |PermissionTests|
    ensures var v := ValidationOf(live, outcomes);
      && NoDup(v.permissions) && NoDup(v.accessDenied)
      && (forall x | x in v.permissions :: x in ProbeNames)
      && (forall x | x in v.accessDenied :: x in ProbeNames)
  {
    ProbeNamesDistinct();
    SelectNoDup(ProbeNames, GrantedFlags(outcomes));
    SelectNoDup(ProbeNames, RaisedFlags(outcomes));
    forall x | x in ValidationOf(live, outcomes).permissions ensures x in ProbeNames {
      SelectMember(ProbeNames, GrantedFlags(outcomes), x);
    }
    forall x | x in ValidationOf(live, outcomes).accessDenied ensures x in ProbeNames {
      SelectMember(ProbeNames, RaisedFlags(outcomes), x);
    }
  }

  /** A live token whose listing probe succeeds and whose customer probe is refused
   *  carries the listing permission and the customer denial. */
  lemma ListingGrantedCustomerDenied(live: Outcome, outcomes: seq<Outcome>)
    requires |outcomes| == |PermissionTests| && IsLive(live)
    requires Granted(outcomes[0]) && outcomes[3].Raised?
    ensures var v := ValidationOf(live, outcomes);
      v.valid && ListingPermission in v.permissions && "unauthenticated_read_customer" in v.accessDenied
      && ListingPermission !in v.accessDenied && "unauthenticated_read_customer" !in v.permissions
  {
    ProbeClassification(live, outcomes, 0);
    ProbeClassification(live, outcomes, 3);
  }

  // ------------------------------------------------------------------
  // generate_api_guidance

  datatype Approach = Approach(name: string, description: string)
  datatype FallbackStrategy = FallbackStrategy(limitation: string, strategy: string, example: string)
  datatype Avoidance = Avoidance(operation: string, reason: string, suggestion: string)

  /** The guidance dictionary: the three lists and the `example_queries` map. */
  datatype ApiGuidance = ApiGuidance(recommendedApproaches: seq<Approach>, fallbackStrategies: seq<FallbackStrategy>,
                                     operationsToAvoid: seq<Avoidance>, exampleQueries: map<string, string>)

  const DirectProductQueries := Approach("Direct Product Queries", "You can directly query products, variants, and collections")
  const CartOperations := Approach("Cart Operations", "You can create carts and add items with known variant IDs")
  const ProductQueryExample := "{ products(first: 10) { edges { node { id title variants(first: 1) { edges { node { id } } } } } } }"
  const CartCreateExample :=
    "mutation { cartCreate( input: { lines: [ { quantity: 1 merchandiseId: \"gid://shopify/ProductVariant/VARIANT_ID\" } ] } ) { cart { id checkoutUrl } } }"
  const ProductTypesFallback := FallbackStrategy(
    "No direct product listing access", "Use productTypes + search query approach",
    "{ productTypes(first: 10) { edges { node } } } { search(query: \"TypeName\", types: [PRODUCT], first: 3) { edges { node { ... on Product { id title variants(first: 1) { edges { node { id } } } } } } } }")
  const AvoidDirectProductQueries := Avoidance(
    "Direct product queries", "Token lacks product listing permissions", "Try using search with product types instead")

  /** The guidance for a token with these permissions and denials. */
  function ApiGuidanceOf(permissions: seq<string>, accessDenied: seq<string>): (g: ApiGuidance)
    ensures DirectProductQueries in g.recommendedApproaches <==> ListingPermission in permissions
    ensures CartOperations in g.recommendedApproaches <==> CartPermission in permissions
    ensures forall a | a in g.recommendedApproaches :: a == DirectProductQueries || a == CartOperations
    ensures |g.recommendedApproaches| == (if ListingPermission in permissions then 1 else 0) + (if CartPermission in permissions then 1 else 0)
    ensures |g.recommendedApproaches| == 2 ==> g.recommendedApproaches == [DirectProductQueries, CartOperations]
    ensures g.fallbackStrategies != [] <==> ListingPermission !in permissions && ProductTypesPermission in permissions
    ensures forall f | f in g.fallbackStrategies :: f == ProductTypesFallback
    ensures |g.fallbackStrategies| <= 1
    ensures |g.operationsToAvoid| == Count(accessDenied, ListingPermission)
    ensures forall a | a in g.operationsToAvoid :: a == AvoidDirectProductQueries
    ensures g.exampleQueries.Keys <= {"product_query", "cart_create"}
    ensures "product_query" in g.exampleQueries <==> ListingPermission in permissions
    ensures "cart_create" in g.exampleQueries <==> CartPermission in permissions
    ensures "product_query" in g.exampleQueries ==> g.exampleQueries["product_query"] == ProductQueryExample
    ensures "cart_create" in g.exampleQueries ==> g.exampleQueries["cart_create"] == CartCreateExample
  {
    var listing := ListingPermission in permissions;
    var cart := CartPermission in permissions;
    var productExamples: map<string, string> := if listing then map["product_query" := ProductQueryExample] else map[];
    ApiGuidance(
      (if listing then [DirectProductQueries] else []) + (if cart then [CartOperations] else []),
      if !listing && ProductTypesPermission in permissions then [ProductTypesFallback] else [],
      Repeat(AvoidDirectProductQueries, Count(accessDenied, ListingPermission)),
      if cart then productExamples["cart_create" := CartCreateExample] else productExamples)
  }

  /** `generate_api_guidance`. */
  method GenerateApiGuidance(permissions: seq<string>, accessDenied: seq<string>) returns (guidance: ApiGuidance)
    ensures guidance == ApiGuidanceOf(permissions, accessDenied)
  {
    guidance := ApiGuidance([], [], [], map[]);
    if ListingPermission in permissions {
      guidance := guidance.(recommendedApproaches := guidance.recommendedApproaches + [DirectProductQueries]);
      guidance := guidance.(exampleQueries := guidance.exampleQueries["product_query" := ProductQueryExample]);
    }
    if CartPermission in permissions {
      guidance := guidance.(recommendedApproaches := guidance.recommendedApproaches + [CartOperations]);
      guidance := guidance.(exampleQueries := guidance.exampleQueries["cart_create" := CartCreateExample]);
    }
    if ListingPermission !in permissions && ProductTypesPermission in permissions {
      guidance := guidance.(fallbackStrategies := guidance.fallbackStrategies + [ProductTypesFallback]);
    }
    ghost var base := guidance;
    var i := 0;
    while i < |accessDenied|
      invariant 0 <= i <= |accessDenied|
      invariant guidance == base.(operationsToAvoid := Repeat(AvoidDirectProductQueries, Count(accessDenied[..i], ListingPermission)))
    {
      assert accessDenied[..i + 1][..i] == accessDenied[..i];
      if accessDenied[i] == ListingPermission {
        guidance := guidance.(operationsToAvoid := guidance.operationsToAvoid + [AvoidDirectProductQueries]);
      }
      i := i + 1;
    }
    assert accessDenied[..i] == accessDenied;
  }

  /** The denials `shopify_discover` passes are always empty, so its guidance never lists
   *  an operation to avoid. */
  lemma NoDenialsNoAvoidance(permissions: seq<string>)
    ensures ApiGuidanceOf(permissions, []).operationsToAvoid == []
  {
  }

  // ------------------------------------------------------------------
  // tokens_ranked

  /** An entry of `tokens_ranked`. */
  datatype RankedToken = RankedToken(token: string, permissions: seq<string>)

  /** The sort key, `len(x["permissions"])`. */
  function Rank(e: RankedToken): nat
  {
    |e.permissions|
  }

  predicate SortedByRank(s: seq<RankedToken>)
  {
    forall i, j | 0 <= i < j < |s| :: Rank(s[i]) >= Rank(s[j])
  }

  /** The entries with rank `k`, in their order in `s`. */
  function WithRank(s: seq<RankedToken>, k: nat): seq<RankedToken>
  {
    if s == [] then [] else (if Rank(s[0]) == k then [s[0]] else []) + WithRank(s[1..], k)
  }

  /** Inserts `e` after every entry ranked at least as high. */
  function InsertRanked(sorted: seq<RankedToken>, e: RankedToken): (r: seq<RankedToken>)
    ensures multiset(r) == multiset(sorted) + multiset{e}
  {
    if sorted == [] then [e]
    else if Rank(sorted[0]) >= Rank(e) then
      assert sorted == [sorted[0]] + sorted[1..];
      [sorted[0]] + InsertRanked(sorted[1..], e)
    else [e] + sorted
  }

  /** `tokens_ranked.sort(key=lambda x: len(x["permissions"]), reverse=True)`: a stable sort
   *  by descending number of permissions, as insertion of each entry in turn. */
  function RankByPermissions(entries: seq<RankedToken>): (r: seq<RankedToken>)
    ensures multiset(r) == multiset(entries)
  {
    if entries == [] then []
    else
      var n := |entries| - 1;
      assert entries == entries[..n] + [entries[n]];
      InsertRanked(RankByPermissions(entries[..n]), entries[n])
  }

  lemma {:induction false} InsertRankedSorted(sorted: seq<RankedToken>, e: RankedToken)
    requires SortedByRank(sorted)
    ensures SortedByRank(InsertRanked(sorted, e))
  {
    if sorted != [] && Rank(sorted[0]) >= Rank(e) {
      var rest := InsertRanked(sorted[1..], e);
      InsertRankedSorted(sorted[1..], e);
      forall x | x in rest ensures Rank(x) <= Rank(sorted[0]) {
        assert x in multiset(rest);
        if x != e {
          assert x in multiset(sorted[1..]);
        }
      }
      assert forall j | 0 <= j < |rest| :: rest[j] in rest;
    }
  }

  /** The ranking is ordered by descending permission count. */
  lemma {:induction false} RankingIsSorted(entries: seq<RankedToken>)
    ensures SortedByRank(RankByPermissions(entries))
  {
    if entries != [] {
      var n := |entries| - 1;
      RankingIsSorted(entries[..n]);
      InsertRankedSorted(RankByPermissions(entries[..n]), entries[n]);
    }
  }

  lemma {:induction false} WithRankConcat(a: seq<RankedToken>, b: seq<RankedToken>, k: nat)
    ensures WithRank(a + b, k) == WithRank(a, k) + WithRank(b, k)
  {
    if a != [] {
      assert (a + b)[0] == a[0];
      assert (a + b)[1..] == a[1..] + b;
      WithRankConcat(a[1..], b, k);
      ConcatAssoc((if Rank(a[0]) == k then [a[0]] else []), WithRank(a[1..], k), WithRank(b, k));
    } else {
      assert a + b == b;
    }
  }

  lemma {:induction false} WithRankAbsent(s: seq<RankedToken>, k: nat)
    requires forall i | 0 <= i < |s| :: Rank(s[i]) < k
    ensures WithRank(s, k) == []
  {
    if s != [] {
      WithRankAbsent(s[1..], k);
    }
  }

  lemma WithRankCons(x: RankedToken, s: seq<RankedToken>, k: nat)
    ensures WithRank([x] + s, k) == (if Rank(x) == k then [x] else []) + WithRank(s, k)
  {
    assert ([x] + s)[0] == x;
    assert ([x] + s)[1..] == s;
  }

  lemma {:induction false} InsertRankedWithRank(sorted: seq<RankedToken>, e: RankedToken, k: nat)
    requires SortedByRank(sorted)
    ensures WithRank(InsertRanked(sorted, e), k) == WithRank(sorted, k) + (if Rank(e) == k then [e] else [])
  {
    if sorted != [] && Rank(sorted[0]) >= Rank(e) {
      SortedTail(sorted);
      InsertRankedWithRank(sorted[1..], e, k);
      InsertAfterHead(sorted, e, k);
    } else {
      InsertAtHead(sorted, e, k);
    }
  }

  lemma SortedTail(s: seq<RankedToken>)
    requires s != [] && SortedByRank(s)
    ensures SortedByRank(s[1..])
  {
  }

  /** `e` goes past the head: the head's contribution to rank `k` comes first either way. */
  lemma InsertAfterHead(sorted: seq<RankedToken>, e: RankedToken, k: nat)
    requires sorted != [] && Rank(sorted[0]) >= Rank(e)
    requires WithRank(InsertRanked(sorted[1..], e), k) == WithRank(sorted[1..], k) + (if Rank(e) == k then [e] else [])
    ensures WithRank(InsertRanked(sorted, e), k) == WithRank(sorted, k) + (if Rank(e) == k then [e] else [])
  {
    var head := if Rank(sorted[0]) == k then [sorted[0]] else [];
    WithRankCons(sorted[0], InsertRanked(sorted[1..], e), k);
    ConcatAssoc(head, WithRank(sorted[1..], k), if Rank(e) == k then [e] else []);
  }

  /** `e` goes in front of a list ranked strictly below it, so no entry of rank `Rank(e)` precedes it. */
  lemma InsertAtHead(sorted: seq<RankedToken>, e: RankedToken, k: nat)
    requires SortedByRank(sorted) && (sorted == [] || Rank(sorted[0]) < Rank(e))
    ensures WithRank(InsertRanked(sorted, e), k) == WithRank(sorted, k) + (if Rank(e) == k then [e] else [])
  {
    WithRankCons(e, sorted, k);
    if sorted == [] {
      assert [e] + [] == [e];
    } else if Rank(e) == k {
      assert forall i | 0 <= i < |sorted| :: Rank(sorted[i]) <= Rank(sorted[0]);
      WithRankAbsent(sorted, k);
    }
  }

  /** The sort is stable: the entries of each rank keep their relative order, which is
   *  the order in which the tokens were validated. */
  lemma {:induction false} RankingIsStable(entries: seq<RankedToken>, k: nat)
    ensures WithRank(RankByPermissions(entries), k) == WithRank(entries, k)
  {
    if entries != [] {
      var n := |entries| - 1;
      var init := entries[..n];
      var e := entries[n];
      var sortedInit := RankByPermissions(init);
      assert RankByPermissions(entries) == InsertRanked(sortedInit, e);
      RankingIsStable(init, k);
      RankingIsSorted(init);
      InsertRankedWithRank(sortedInit, e, k);
      assert entries == init + [e];
      WithRankConcat(init, [e], k);
      assert WithRank([e], k) == (if Rank(e) == k then [e] else []);
    }
  }
}
