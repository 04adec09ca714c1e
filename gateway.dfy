/**
 * The `shopify_storefront_graphql` tool: credential fallback, the dispatch on
 * `mode` (execute, test, introspect), the error analysis attached to a test
 * run, and the workflow guidance derived from the introspected components.
 *
 * Replies are the JSON documents the tool serialises, as records; the API is
 * the `Backend` oracle the client sends its requests to.
 */
module Gateway {
  import opened Wrappers
  import opened Text
  import opened Seqs
  import opened GraphqlClient

  // ------------------------------------------------------------------
  // analyze_errors_and_suggest

  const ProductsSuggestion := "Token lacks permissions to access products directly. Try using search instead."

  /** `{"suggestions": [...], "alternative_queries": [...]}`. */
  datatype ErrorAdvice = ErrorAdvice(suggestions: seq<string>, alternativeQueries: seq<string>)

  predicate IsDenial(message: string)
  {
    Contains(message, "Access denied")
  }

  /** Number of error messages that report a denial. */
  function DenialCount(messages: seq<string>): (n: nat)
    ensures n <= |messages|
    decreases |messages|
  {
    if |messages| == 0 then 0
    else DenialCount(messages[..|messages| - 1]) + (if IsDenial(messages[|messages| - 1]) then 1 else 0)
  }

  /** No denial is counted exactly when no message reports one. */
  lemma {:induction false} DenialCountZero(messages: seq<string>)
    ensures DenialCount(messages) == 0 <==> forall m | m in messages :: !IsDenial(m)
    decreases |messages|
  {
    if |messages| > 0 {
      var n := |messages| - 1;
      DenialCountZero(messages[..n]);
      assert messages == messages[..n] + [messages[n]];
    }
  }

  /** The advice for a failed test query: one suggestion per denial, and only when the
   *  query asks for `products`; never an alternative query. */
  function AdviceOf(query: string, messages: seq<string>): (a: ErrorAdvice)
    ensures a.alternativeQueries == []
    ensures forall s | s in a.suggestions :: s == ProductsSuggestion
    ensures |a.suggestions| == if Contains(query, "products") then DenialCount(messages) else 0
    decreases |messages|
  {
    if |messages| == 0 then ErrorAdvice([], [])
    else
      var n := |messages| - 1;
      var before := AdviceOf(query, messages[..n]);
      if IsDenial(messages[n]) && Contains(query, "products")
      then ErrorAdvice(before.suggestions + [ProductsSuggestion], [])
      else before
  }

  /** `analyze_errors_and_suggest`, over the messages of the error list. */
  method AnalyzeErrorsAndSuggest(query: string, messages: seq<string>) returns (advice: ErrorAdvice)
    ensures advice == AdviceOf(query, messages)
  {
    advice := ErrorAdvice([], []);
    for i := 0 to |messages|
      invariant advice == AdviceOf(query, messages[..i])
    {
      assert messages[..i + 1][..i] == messages[..i];
      if IsDenial(messages[i]) && Contains(query, "products") {
        advice := advice.(suggestions := advice.suggestions + [ProductsSuggestion]);
      }
    }
    assert messages[..|messages|] == messages;
  }

  // ------------------------------------------------------------------
  // generate_guidance_from_components

  /** `{"summary": ..., "recommended_workflow": [...], "warnings": [...]}`. */
  datatype WorkflowGuidance = WorkflowGuidance(summary: string, recommendedWorkflow: seq<string>, warnings: seq<string>)

  const ProductAccessSummary := "This token has good product access capabilities."
  const ProductWorkflow := ["1. Query products directly",
                            "2. Get variant IDs from product queries",
                            "3. Create cart with selected variants"]
  const SearchAccessSummary := "This token has limited access but can discover products via search."
  const SearchWorkflow := ["1. Query product types to discover categories",
                           "2. Use search with product types to find products",
                           "3. Extract variant IDs from search results"]
  const CartOnlySummary := "This token can only create carts but cannot access products directly."
  const LimitedDiscoveryWarning := "Product discovery is severely limited. You may need variant IDs from another source."

  predicate CanSearch(accessible: seq<string>)
  {
    "productTypes" in accessible && "search" in accessible
  }

  /** `generate_guidance_from_components`: the first capability that holds decides the
   *  guidance: direct product access, then discovery through product types and search,
   *  then cart creation alone; with none of them the guidance is empty. */
  function GuidanceFromComponents(accessible: seq<string>, inaccessible: seq<string>): (g: WorkflowGuidance)
    ensures "products" in accessible ==> g == WorkflowGuidance(ProductAccessSummary, ProductWorkflow, [])
    ensures "products" !in accessible && CanSearch(accessible) ==> g == WorkflowGuidance(SearchAccessSummary, SearchWorkflow, [])
    ensures "products" !in accessible && !CanSearch(accessible) && "cart_create" in accessible ==>
      g == WorkflowGuidance(CartOnlySummary, [], [LimitedDiscoveryWarning])
    ensures g.recommendedWorkflow != [] <==> "products" in accessible || CanSearch(accessible)
    ensures g.warnings != [] <==> "products" !in accessible && !CanSearch(accessible) && "cart_create" in accessible
    ensures g.warnings != [] ==> g.warnings == [LimitedDiscoveryWarning] && g.recommendedWorkflow == []
    ensures g.summary == "" <==> "products" !in accessible && !CanSearch(accessible) && "cart_create" !in accessible
    ensures g.summary == "" ==> g == WorkflowGuidance("", [], [])
  {
    if "products" in accessible then WorkflowGuidance(ProductAccessSummary, ProductWorkflow, [])
    else if CanSearch(accessible) then WorkflowGuidance(SearchAccessSummary, SearchWorkflow, [])
    else if "cart_create" in accessible && "products" !in accessible
    then WorkflowGuidance(CartOnlySummary, [], [LimitedDiscoveryWarning])
    else WorkflowGuidance("", [], [])
  }

  /** The guidance depends only on which components are accessible: not on their order
   *  or repetition, and not on the inaccessible list at all. */
  lemma GuidanceDependsOnAccessibleOnly(a1: seq<string>, i1: seq<string>, a2: seq<string>, i2: seq<string>)
    requires forall c :: c in a1 <==> c in a2
    ensures GuidanceFromComponents(a1, i1) == GuidanceFromComponents(a2, i2)
  {
    assert "products" in a1 <==> "products" in a2;
    assert CanSearch(a1) <==> CanSearch(a2);
    assert "cart_create" in a1 <==> "cart_create" in a2;
  }

  // ------------------------------------------------------------------
  // The introspection catalog

  datatype Component = Component(name: string, query: string)

  const TestComponents: seq<Component> := [
    Component("shop", "{shop{name}}"),
    Component("products", "{products(first:1){edges{node{id}}}}"),
    Component("collections", "{collections(first:1){edges{node{id}}}}"),
    Component("productTypes", "{productTypes(first:1){edges{node}}}"),
    Component("search", "{search(query:\"test\",types:PRODUCT,first:1){edges{node{__typename}}}}"),
    Component("cart_create", "mutation{cartCreate(input:{}){cart{id}}}")
  ]

  function ComponentNames(cs: seq<Component>): (names: seq<string>)
    ensures |names| == |cs|
    ensures forall i | 0 <= i < |cs| :: names[i] == cs[i].name
    decreases |cs|
  {
    if |cs| == 0 then [] else ComponentNames(cs[..|cs| - 1]) + [cs[|cs| - 1].name]
  }

  lemma CatalogNamesDistinct()
    ensures ComponentNames(TestComponents) == ["shop", "products", "collections", "productTypes", "search", "cart_create"]
    ensures NoDup(ComponentNames(TestComponents))
  {
    var names := ComponentNames(TestComponents);
    assert names == ["shop", "products", "collections", "productTypes", "search", "cart_create"];
  }

  /** Python truthiness of `data.get("errors")`: a non-empty error list. */
  predicate HasErrors(r: Response)
  {
    r.errors.ErrorList? && |r.errors.messages| > 0
  }

  /** A component is accessible when its query returned without a non-empty error list. */
  predicate IsAccessible(o: Outcome)
  {
    o.Returned? && !HasErrors(o.response)
  }

  /** The outcome of each catalog query, sent without variables by a client with these fields. */
  function ComponentOutcomes(host: Option<string>, token: Option<string>, apiVersion: string, backend: Backend): (os: seq<Outcome>)
    ensures |os| == |TestComponents|
    ensures forall i | 0 <= i < |os| :: os[i] == ExecuteOutcome(host, token, apiVersion, TestComponents[i].query, None, backend)
  {
    seq(|TestComponents|, i requires 0 <= i < |TestComponents| =>
      ExecuteOutcome(host, token, apiVersion, TestComponents[i].query, None, backend))
  }

  /** `want` for each accessible outcome, its negation for the others. */
  function AccessFlags(os: seq<Outcome>, want: bool): (flags: seq<bool>)
    ensures |flags| == |os|
    ensures forall i | 0 <= i < |os| :: flags[i] == (IsAccessible(os[i]) == want)
  {
    seq(|os|, i requires 0 <= i < |os| => IsAccessible(os[i]) == want)
  }

  /** The component names whose accessibility is `want`, in catalog order. */
  function Components(os: seq<Outcome>, want: bool): seq<string>
    requires |os| == |TestComponents|
  {
    Select(ComponentNames(TestComponents), AccessFlags(os, want))
  }

  /** Runs one catalog query and reports whether it was accessible. */
  method Probe(client: GraphQLClient, query: string, backend: Backend) returns (ok: bool)
    ensures ok == IsAccessible(ExecuteOutcome(client.host, client.token, client.apiVersion, query, None, backend))
  {
    var o := client.Execute(query, None, backend);
    ok := o.Returned? && !HasErrors(o.response);
  }

  /** The introspection loop of `shopify_storefront_graphql`. */
  method Introspect(client: GraphQLClient, backend: Backend) returns (accessible: seq<string>, inaccessible: seq<string>)
    ensures var os := ComponentOutcomes(client.host, client.token, client.apiVersion, backend);
      accessible == Components(os, true) && inaccessible == Components(os, false)
  {
    ghost var os := ComponentOutcomes(client.host, client.token, client.apiVersion, backend);
    ghost var names := ComponentNames(TestComponents);
    ghost var yes, no := AccessFlags(os, true), AccessFlags(os, false);
    accessible, inaccessible := [], [];
    for i := 0 to |TestComponents|
      invariant accessible == Select(names[..i], yes[..i])
      invariant inaccessible == Select(names[..i], no[..i])
    {
      var comp := TestComponents[i];
      var ok := Probe(client, comp.query, backend);
      SelectStep(names, yes, i);
      SelectStep(names, no, i);
      if ok {
        accessible := accessible + [comp.name];
      } else {
        inaccessible := inaccessible + [comp.name];
      }
    }
    assert names[..|TestComponents|] == names;
    assert yes[..|TestComponents|] == yes;
    assert no[..|TestComponents|] == no;
  }

  /** Every catalog component lands in exactly one of the two lists, each list is
   *  duplicate-free, and together they are a permutation of the catalog. */
  lemma IntrospectPartition(os: seq<Outcome>, c: string)
    requires |os| == |TestComponents|
    ensures c in ComponentNames(TestComponents) <==> c in Components(os, true) || c in Components(os, false)
    ensures !(c in Components(os, true) && c in Components(os, false))
    ensures NoDup(Components(os, true)) && NoDup(Components(os, false))
    ensures multiset(Components(os, true)) + multiset(Components(os, false)) == multiset(ComponentNames(TestComponents))
  {
    var names := ComponentNames(TestComponents);
    var yes, no := AccessFlags(os, true), AccessFlags(os, false);
    CatalogNamesDistinct();
    SelectSplit(names, yes, no, c);
    SelectNoDup(names, yes);
    SelectNoDup(names, no);
    SelectMultiset(names, yes, no);
  }

  /** A component is listed as accessible exactly when its own query was accessible. */
  lemma IntrospectAccessible(os: seq<Outcome>, i: nat)
    requires |os| == |TestComponents| && i < |os|
    ensures TestComponents[i].name in Components(os, true) <==> IsAccessible(os[i])
    ensures TestComponents[i].name in Components(os, false) <==> !IsAccessible(os[i])
  {
    var names := ComponentNames(TestComponents);
    CatalogNamesDistinct();
    var x := TestComponents[i].name;
    SelectMember(names, AccessFlags(os, true), x);
    SelectMember(names, AccessFlags(os, false), x);
    assert forall j | 0 <= j < |names| && names[j] == x :: j == i;
  }

  // ------------------------------------------------------------------
  // shopify_storefront_graphql

  const NetworkErrorSuggestion := "Network or server error occurred"

  /** The `guidance` of a test reply. */
  datatype TestGuidance = NoGuidance | Advice(advice: ErrorAdvice) | Suggestion(suggestion: string)

  /** The JSON document the tool returns. `ErrorReply` is `{"errors": [{"message": ...}]}`;
   *  `RawReply` is the response of an executed query, as received. */
  datatype GatewayReply =
    | ErrorReply(message: string)
    | RawReply(response: Response)
    | TestReply(success: bool, data: Option<string>, errors: Option<seq<string>>, guidance: TestGuidance)
    | IntrospectReply(accessible: seq<string>, inaccessible: seq<string>, workflowGuidance: WorkflowGuidance)

  /** `data.get("errors")`: the error list, absent when missing or null. */
  function ErrorsOf(r: Response): Option<seq<string>>
  {
    if r.errors.ErrorList? then Some(r.errors.messages) else None
  }

  /** The reply of test mode for the outcome of its query. */
  function TestReplyOf(query: string, o: Outcome): (r: GatewayReply)
    ensures r.TestReply?
    ensures r.success <==> o.Returned? && ErrorsOf(o.response).None?
    ensures r.success <==> r.errors.None?
    ensures o.Raised? ==> r == TestReply(false, None, Some([o.message]), Suggestion(NetworkErrorSuggestion))
    ensures o.Returned? ==> r.data == o.response.data && r.errors == ErrorsOf(o.response)
    ensures o.Returned? && r.errors.Some? ==> r.guidance == Advice(AdviceOf(query, r.errors.value))
    ensures r.success ==> r.guidance == NoGuidance
  {
    match o
    case Raised(message) => TestReply(false, None, Some([message]), Suggestion(NetworkErrorSuggestion))
    case Returned(response) =>
      match ErrorsOf(response)
      case None => TestReply(true, response.data, None, NoGuidance)
      case Some(messages) => TestReply(false, response.data, Some(messages), Advice(AdviceOf(query, messages)))
  }

  /** The test-mode block, after its query was executed. */
  method RunTest(query: string, o: Outcome) returns (reply: GatewayReply)
    ensures reply == TestReplyOf(query, o)
  {
    reply := TestReply(false, None, None, NoGuidance);
    match o {
      case Raised(message) =>
        reply := reply.(errors := Some([message]), guidance := Suggestion(NetworkErrorSuggestion));
      case Returned(response) =>
        reply := reply.(data := response.data, errors := ErrorsOf(response));
        if ErrorsOf(response).None? {
          reply := reply.(success := true);
        } else {
          var advice := AnalyzeErrorsAndSuggest(query, ErrorsOf(response).value);
          reply := reply.(guidance := Advice(advice));
        }
    }
  }

  predicate IsMode(mode: string)
  {
    mode == "execute" || mode == "test" || mode == "introspect"
  }

  /** What `shopify_storefront_graphql` returns. Host and token fall back to the
   *  environment and are checked before the mode; execute and test require a query;
   *  test sends its query without variables; introspect runs the catalog. */
  function GatewayOf(mode: string, host: Option<string>, token: Option<string>, query: Option<string>,
                     variables: Option<Variables>, apiVersion: string, env: Env, backend: Backend): (r: GatewayReply)
    ensures !Truthy(ResolveHost(host, env)) || !Truthy(ResolveToken(token, env)) ==> r == ErrorReply(MissingCredentials)
    ensures Truthy(ResolveHost(host, env)) && Truthy(ResolveToken(token, env)) ==>
              && (!IsMode(mode) ==> r == ErrorReply("Invalid mode: " + mode))
              && (mode == "execute" && !Truthy(query) ==> r == ErrorReply("Query is required for execute mode"))
              && (mode == "test" && !Truthy(query) ==> r == ErrorReply("Query is required for test mode"))
              && (mode == "introspect" ==> r.IntrospectReply?)
              && (mode == "test" && Truthy(query) ==> r.TestReply?)
    ensures r.RawReply? ==> mode == "execute"
  {
    var h := ResolveHost(host, env);
    var t := ResolveToken(token, env);
    if !Truthy(h) || !Truthy(t) then ErrorReply(MissingCredentials)
    else ModeReplyOf(mode, h, t, query, variables, apiVersion, backend)
  }

  /** The reply once host and token are known to be set. */
  function ModeReplyOf(mode: string, h: Option<string>, t: Option<string>, query: Option<string>,
                       variables: Option<Variables>, apiVersion: string, backend: Backend): GatewayReply
  {
    if mode == "execute" then
      if !Truthy(query) then ErrorReply("Query is required for execute mode")
      else ExecuteReplyOf(h, t, apiVersion, query.value, variables, backend)
    else if mode == "test" then
      if !Truthy(query) then ErrorReply("Query is required for test mode")
      else TestReplyOf(query.value, ExecuteOutcome(h, t, apiVersion, query.value, None, backend))
    else if mode == "introspect" then IntrospectReplyOf(h, t, apiVersion, backend)
    else ErrorReply("Invalid mode: " + mode)
  }

  /** Execute mode: the backend's exception message, or its response passed through. */
  function ExecuteReplyOf(h: Option<string>, t: Option<string>, apiVersion: string, query: string,
                          variables: Option<Variables>, backend: Backend): GatewayReply
  {
    match ExecuteOutcome(h, t, apiVersion, query, variables, backend)
    case Raised(message) => ErrorReply(message)
    case Returned(response) => RawReply(response)
  }

  /** Introspect mode: the catalogue split by accessibility, with the guidance drawn from it. */
  function IntrospectReplyOf(h: Option<string>, t: Option<string>, apiVersion: string, backend: Backend): GatewayReply
  {
    var os := ComponentOutcomes(h, t, apiVersion, backend);
    var accessible, inaccessible := Components(os, true), Components(os, false);
    IntrospectReply(accessible, inaccessible, GuidanceFromComponents(accessible, inaccessible))
  }

  method ExecuteMode(client: GraphQLClient, query: string, variables: Option<Variables>, backend: Backend)
    returns (reply: GatewayReply)
    ensures reply == ExecuteReplyOf(client.host, client.token, client.apiVersion, query, variables, backend)
  {
    var o := client.Execute(query, variables, backend);
    match o {
      case Raised(message) => reply := ErrorReply(message);
      case Returned(response) => reply := RawReply(response);
    }
  }

  method IntrospectMode(client: GraphQLClient, backend: Backend) returns (reply: GatewayReply)
    ensures reply == IntrospectReplyOf(client.host, client.token, client.apiVersion, backend)
  {
    var accessible, inaccessible := Introspect(client, backend);
    var guidance := GuidanceFromComponents(accessible, inaccessible);
    reply := IntrospectReply(accessible, inaccessible, guidance);
  }

  /** `shopify_storefront_graphql`. */
  method ShopifyStorefrontGraphql(mode: string, host: Option<string>, token: Option<string>, query: Option<string>,
                                  variables: Option<Variables>, apiVersion: string, env: Env, backend: Backend)
    returns (reply: GatewayReply)
    ensures reply == GatewayOf(mode, host, token, query, variables, apiVersion, env, backend)
  {
    var h := ResolveHost(host, env);
    var t := ResolveToken(token, env);
    if !Truthy(h) || !Truthy(t) {
      return ErrorReply(MissingCredentials);
    }
    var client := new GraphQLClient(h, t, apiVersion, env);
    reply := ModeReply(client, mode, query, variables, backend);
  }

  method ModeReply(client: GraphQLClient, mode: string, query: Option<string>, variables: Option<Variables>, backend: Backend)
    returns (reply: GatewayReply)
    ensures reply == ModeReplyOf(mode, client.host, client.token, query, variables, client.apiVersion, backend)
  {
    if mode == "execute" {
      if !Truthy(query) {
        return ErrorReply("Query is required for execute mode");
      }
      reply := ExecuteMode(client, query.value, variables, backend);
    } else if mode == "test" {
      if !Truthy(query) {
        return ErrorReply("Query is required for test mode");
      }
      var o := client.Execute(query.value, None, backend);
      reply := RunTest(query.value, o);
    } else if mode == "introspect" {
      reply := IntrospectMode(client, backend);
    } else {
      reply := ErrorReply("Invalid mode: " + mode);
    }
  }

  /** A test run sends its query without variables: the reply is the same whatever
   *  variables the caller passed. */
  lemma TestIgnoresVariables(host: Option<string>, token: Option<string>, query: Option<string>,
                             v1: Option<Variables>, v2: Option<Variables>, apiVersion: string, env: Env, backend: Backend)
    ensures GatewayOf("test", host, token, query, v1, apiVersion, env, backend)
         == GatewayOf("test", host, token, query, v2, apiVersion, env, backend)
  {
  }

  /** An executed query reaches the backend as the endpoint request carrying exactly the
   *  caller's query and (when given) variables, and its answer is passed through. */
  lemma ExecuteSendsRequest(host: Option<string>, token: Option<string>, query: Option<string>,
                            variables: Option<Variables>, apiVersion: string, env: Env, backend: Backend)
    requires Truthy(ResolveHost(host, env)) && Truthy(ResolveToken(token, env)) && Truthy(query)
    ensures var request := BuildRequest(ResolveHost(host, env).value, ResolveToken(token, env).value, apiVersion, query.value, variables);
      && request.url == Endpoint(ResolveHost(host, env).value, apiVersion)
      && request.payload.query == query.value
      && (request.payload.variables.Some? <==> HasVariables(variables))
      && match backend(request)
         case Raised(message) => GatewayOf("execute", host, token, query, variables, apiVersion, env, backend) == ErrorReply(message)
         case Returned(response) => GatewayOf("execute", host, token, query, variables, apiVersion, env, backend) == RawReply(response)
  {
  }

  /** When only cart creation is accessible — listing, product types and search are
   *  not — the guidance warns that product discovery is limited and recommends no
   *  listing-based workflow. */
  lemma CartOnlyWarns(host: Option<string>, token: Option<string>, apiVersion: string, env: Env, backend: Backend)
    requires Truthy(ResolveHost(host, env)) && Truthy(ResolveToken(token, env))
    requires var os := ComponentOutcomes(ResolveHost(host, env), ResolveToken(token, env), apiVersion, backend);
      IsAccessible(os[5]) && !IsAccessible(os[1]) && !IsAccessible(os[3])
    ensures var r := GatewayOf("introspect", host, token, None, None, apiVersion, env, backend);
      && "cart_create" in r.accessible && "products" in r.inaccessible
      && r.workflowGuidance == WorkflowGuidance(CartOnlySummary, [], [LimitedDiscoveryWarning])
  {
    var os := ComponentOutcomes(ResolveHost(host, env), ResolveToken(token, env), apiVersion, backend);
    IntrospectAccessible(os, 5);
    IntrospectAccessible(os, 1);
    IntrospectAccessible(os, 3);
  }
}
