# Shopify storefront MCP server — a Dafny model of its core

This project models the decision logic of the Shopify storefront MCP server:

- **Storefront discovery** (`discovery.py`):
  - deciding from response headers and page markup whether a site is a Shopify storefront;
  - choosing its canonical `*.myshopify.com` host;
  - scanning texts for Storefront access-token candidates;
  - validating each candidate against the Storefront API with a liveness query and eight permission probes;
  - ranking the valid tokens by the number of permissions;
  - deriving API guidance from a token's permissions.
- **The GraphQL gateway tool** (`main.py`):
  - falling back to environment credentials;
  - dispatching on the `execute`, `test` and `introspect` modes;
  - the error advice attached to a failed test;
  - the workflow guidance derived from the introspected components.
- **The Storefront GraphQL client** (`graphql_client.py`): where host and token come from, when a query is refused, and the endpoint, headers and payload of the request.
- **The `customer_data` tool** (`customer.py`): get, update and delete on the locally stored customer record, and whether the call writes the record back.

The network is an oracle. `GraphqlClient.Backend` answers each HTTP request the client builds with an `Outcome`: either an exception message or a decoded response. Page, asset and token-capture fetches are inputs too, as is the HTML parser's view of a page. Every regular expression the core uses is a hand-written scanner over the text, with ASCII character classes.

Modules, one per file:

| file | module | models |
|---|---|---|
| wrappers.dfy | Wrappers | `Option` |
| text.dfy | Text | ASCII lower-casing, substring search |
| seqs.dfy | Seqs | filtering, selection, counting over lists |
| discovery_patterns.dfy | DiscoveryPatterns | the regex constants of `discovery.py` |
| discovery.dfy | Discovery | `_is_shopify`, `_canonical_host`, `_token_candidates` |
| token_validation.dfy | TokenValidation | `_validate_token`, `generate_api_guidance`, the ranking sort |
| discovery_pipeline.dfy | DiscoveryPipeline | `discover_shopify`, `shopify_discover` |
| graphql_client.dfy | GraphqlClient | `GraphQLClient` and the environment constants |
| gateway.dfy | Gateway | `shopify_storefront_graphql` and its two guidance helpers |
| customer.dfy | Customer | `customer_data` |

### Behaviour worth knowing

The code behaves as follows in these cases, and the model does the same:

- An HTTP 430 answer gets no dedicated message. The gateway passes the exception text through (`Gateway.GatewayOf`).
- A probe counts as denied only when it raises. An error message such as "access denied" in a response does not make it a denial (`TokenValidation.ProbeClassification`).
- Introspection runs its own six-component catalogue, not the validation probes. Its output carries no example operations.
- `tokens_invalid` is a list, built in the arbitrary iteration order of the candidate set.
- Ranked entries carry no denial list. The guidance of `shopify_discover` is therefore always computed with no denials, and never lists an operation to avoid (`DiscoveryPipeline.GuidanceNeverAvoids`).
- Each entry of `HDR_PREFIXES` has U+2011 (non-breaking hyphen) after the `x`, not an ASCII hyphen. `Discovery.AsciiHeadersNeverHit` proves that no ASCII header name can trigger the header signal, so classification rests on the markup alone.
- The four mixed-case init patterns are searched in the lower-cased window without `re.I`, so they can never match. Only the `fetch(…"/api/…")` pattern can (`DiscoveryPatterns.LowerWindowMatchesOnlyFetch`).

## Model

| member | source | states |
|---|---|---|
| Discovery.EitherSignalSuffices | shopify_storefront_mcp_server/discovery.py:58-61 | a header prefix hit or an HTML marker hit each suffices, and a page is no storefront exactly when neither fires |
| Discovery.AsciiHeadersNeverHit | shopify_storefront_mcp_server/discovery.py:19-24 | header names made only of ASCII never match the U+2011 prefixes |
| Discovery.ShopifyThemeGlobalIsShopify | shopify_storefront_mcp_server/discovery.py:28 | a page with no headers whose only signal is `window.Shopify.theme` is a storefront |
| Discovery.PlainPageIsNotShopify | shopify_storefront_mcp_server/discovery.py:58-61 | a page with no headers and no marker is not a storefront |
| Discovery.FirstDomainHit | shopify_storefront_mcp_server/discovery.py:65-69 | a host found by the myshopify patterns in lower-case text is lower-case |
| Discovery.CanonicalHost | shopify_storefront_mcp_server/discovery.py:64-79 | the chosen host is always lower-case |
| Discovery.CanonicalHostPrecedence | shopify_storefront_mcp_server/discovery.py:64-79 | the rule order: the quoted domain, then the bare domain, then the `myshopify_domain` setting, then (when none of the three matches) the `Shopify.shop` assignment (suffix added if missing), then the loose domain scan, then the fallback |
| Discovery.CanonicalHostFallback | shopify_storefront_mcp_server/discovery.py:79 | with no rule matching anywhere, the host is the lower-cased fallback |
| Discovery.CanonicalHostNamesShopDomain | shopify_storefront_mcp_server/discovery.py:64-79 | unless a `myshopify_domain` setting supplies a raw value, the host either contains `.myshopify.com` or is the fallback |
| Discovery.TokenCandidates | shopify_storefront_mcp_server/discovery.py:82-115 | the nested loops build exactly the candidate list: per match, its group once when the ±100 window holds a context keyword, and once per init pattern found in the window |
| Discovery.EmitForMatch | shopify_storefront_mcp_server/discovery.py:109-114 | the appends for one match, including the loop over the init patterns |
| Discovery.CandidatesSplit | shopify_storefront_mcp_server/discovery.py:107-108 | the list is the concatenation of the three patterns' contributions, in pattern order |
| Discovery.EmitShape | shopify_storefront_mcp_server/discovery.py:110-114 | a match adds only its own group, as many times as its context and init hits, and nothing without either |
| Discovery.InitHitsInLowerWindow | shopify_storefront_mcp_server/discovery.py:99-104 | on a lower-case window at most one init pattern (the fetch pattern) matches |
| Discovery.EmitAtMostTwice | shopify_storefront_mcp_server/discovery.py:109-114 | a match is listed at most twice |
| Discovery.EmitMatchesOrigin | shopify_storefront_mcp_server/discovery.py:108-114 | a string is emitted for a pattern iff it is the group of one of its matches whose window qualifies |
| Discovery.CandidateOrigin | shopify_storefront_mcp_server/discovery.py:82-115 | a string is a candidate iff it is group 1 of some token-pattern match whose window holds a context keyword or init hit |
| Discovery.HexTokenListedTwice | shopify_storefront_mcp_server/discovery.py:33-34 | a 32-digit hex token in context is matched by both hex patterns, so it occurs at least twice in the list |
| DiscoveryPatterns.HexScan | shopify_storefront_mcp_server/discovery.py:33-34 | each reported match lies on word boundaries and is an all-hex run of the allowed length |
| DiscoveryPatterns.HexScanComplete | shopify_storefront_mcp_server/discovery.py:33-34 | every such run is reported, so the scan finds exactly the pattern's matches |
| DiscoveryPatterns.JwtScan | shopify_storefront_mcp_server/discovery.py:35 | each reported match is a quoted, JWT-shaped string of three segments |
| DiscoveryPatterns.FindAll | shopify_storefront_mcp_server/discovery.py:32-36 | every reported match is a match of its pattern, with a non-empty span inside the text |
| DiscoveryPatterns.LowerWindowMatchesOnlyFetch | shopify_storefront_mcp_server/discovery.py:99-104 | on a lower-case window only the fetch pattern can match |
| DiscoveryPatterns.Search | shopify_storefront_mcp_server/discovery.py:66 | a match `re.search` reports is the match at some position from the start on, and it reports none iff no position matches |
| DiscoveryPatterns.SearchFindsFirst | shopify_storefront_mcp_server/discovery.py:66 | `re.search` reports the leftmost match: when k is the first matching position, the search yields the match at k |
| DiscoveryPatterns.DomainAt | shopify_storefront_mcp_server/discovery.py:39-40 | a recognised domain ends in `.myshopify.com` |
| DiscoveryPatterns.LooseDomainAt | shopify_storefront_mcp_server/discovery.py:76 | the loose domain scan's group ends in `.myshopify.com` |
| DiscoveryPatterns.DomainSettingAt | shopify_storefront_mcp_server/discovery.py:41 | the `myshopify_domain` value found in lower-case text is lower-case |
| DiscoveryPatterns.ConfigMatchAt | shopify_storefront_mcp_server/discovery.py:233-235 | a config declaration's group is a brace-delimited object of at least three characters, with no `;` |
| DiscoveryPatterns.ConfigScan | shopify_storefront_mcp_server/discovery.py:237-239 | every group the scan reports is such an object |
| TokenValidation.ValidateToken | shopify_storefront_mcp_server/discovery.py:118-145 | the liveness query, then each of the eight probes in order, yields exactly the verdict of the outcomes its client's requests receive |
| TokenValidation.RunProbes | shopify_storefront_mcp_server/discovery.py:136-142 | the probe loop lists, in catalogue order, the probes whose answer grants the permission and, separately, those that raised |
| TokenValidation.ValidityIsLiveness | shopify_storefront_mcp_server/discovery.py:134-137 | a token is valid iff its liveness answer mentions `__schema`; an invalid token has empty lists |
| TokenValidation.ProbeClassification | shopify_storefront_mcp_server/discovery.py:138-142 | for a live token, a probe is a permission iff it returned an object without `errors`, and a denial iff it raised: never both, and an answer with `errors` is in neither list |
| TokenValidation.VerdictLists | shopify_storefront_mcp_server/discovery.py:136-142 | both lists are duplicate-free and name only catalogued probes |
| TokenValidation.ProbeNamesDistinct | shopify_storefront_mcp_server/discovery.py:122-131 | the eight probe names are distinct |
| TokenValidation.ListingGrantedCustomerDenied | shopify_storefront_mcp_server/discovery.py:134-142 | a live token whose listing probe succeeds and customer probe raises is valid, with the listing permission and the customer denial |
| TokenValidation.ApiGuidanceOf | shopify_storefront_mcp_server/discovery.py:148-161 | the approaches, examples and fallback each appear exactly under their permission condition, in rule order, with no other approaches, and there is one avoidance per listing denial |
| TokenValidation.GenerateApiGuidance | shopify_storefront_mcp_server/discovery.py:148-161 | the appending implementation builds exactly that guidance |
| TokenValidation.NoDenialsNoAvoidance | shopify_storefront_mcp_server/discovery.py:157-160 | with no denials there is no operation to avoid |
| TokenValidation.RankByPermissions | shopify_storefront_mcp_server/discovery.py:263 | the ranking is a permutation of the entries |
| TokenValidation.RankingIsSorted | shopify_storefront_mcp_server/discovery.py:263 | the ranking is ordered by descending permission count |
| TokenValidation.RankingIsStable | shopify_storefront_mcp_server/discovery.py:263 | entries with the same count keep their relative order |
| TokenValidation.InsertRanked | shopify_storefront_mcp_server/discovery.py:263 | one insertion step adds exactly the inserted entry |
| DiscoveryPipeline.CollectAssets | shopify_storefront_mcp_server/discovery.py:206-214 | the tag loop, with its skip and its break at the cap, builds exactly the specified asset list |
| DiscoveryPipeline.AssetCap | shopify_storefront_mcp_server/discovery.py:206-214 | at most max(cap, 1) assets, a prefix of all asset-looking sources, each resolved against the page URL |
| DiscoveryPipeline.ScanPage | shopify_storefront_mcp_server/discovery.py:216-239 | the page's candidates: the HTML, its JSON-LD scripts, meta contents over 20 characters, `data-` string attributes over 20 characters, and config objects |
| DiscoveryPipeline.ScanAssets | shopify_storefront_mcp_server/discovery.py:241-247 | each fetched asset adds its candidates, and each failed fetch adds its note |
| DiscoveryPipeline.ScanAllMember | shopify_storefront_mcp_server/discovery.py:216-245 | a string is pooled iff some scanned text yields it |
| DiscoveryPipeline.PoolCandidates | shopify_storefront_mcp_server/discovery.py:216-253 | the candidate set is the page, asset and captured candidates; notes are the asset errors, then the capture error |
| DiscoveryPipeline.ValidateCandidates | shopify_storefront_mcp_server/discovery.py:255-261 | each candidate lands in the valid list (with its ranked entry) iff its validation says valid, and in the invalid list otherwise; both lists are duplicate-free |
| DiscoveryPipeline.DiscoverShopify | shopify_storefront_mcp_server/discovery.py:186-264 | a failed fetch gives only its note; a non-storefront page gives the empty result; a storefront gives its canonical host, its split pool, the sorted ranking and the notes |
| DiscoveryPipeline.DiscoveryPartitionsPool | shopify_storefront_mcp_server/discovery.py:255-261 | every pooled candidate is in exactly one of the two lists, and nothing else is in either |
| DiscoveryPipeline.DiscoveryRanking | shopify_storefront_mcp_server/discovery.py:257-263 | the ranking holds one entry per valid token, sorted by descending permission count, ties in validation order |
| DiscoveryPipeline.RankedEntryPermissions | shopify_storefront_mcp_server/discovery.py:258 | each ranked entry is a valid token carrying the permissions its validation found |
| DiscoveryPipeline.ShopifyDiscover | shopify_storefront_mcp_server/discovery.py:268-278 | discovery with the default cap of 30, and `api_guidance` present iff a token is valid, one entry per ranked token in ranking order |
| DiscoveryPipeline.GuidanceEntries | shopify_storefront_mcp_server/discovery.py:271-277 | the loop appends one entry per ranked token, in ranking order, each with the guidance for that token's permissions and no denials |
| DiscoveryPipeline.GuidanceNeverAvoids | shopify_storefront_mcp_server/discovery.py:272-277 | each entry names its token, carries the guidance for its permissions with no denials, and lists nothing to avoid |
| GraphqlClient.ResolveHost | shopify_storefront_mcp_server/graphql_client.py:21 | the given host when non-empty, else the store name plus `.myshopify.com` when set, else none |
| GraphqlClient.ResolveToken | shopify_storefront_mcp_server/graphql_client.py:22 | the given token when non-empty, else the environment token |
| GraphqlClient.GraphQLClient.constructor | shopify_storefront_mcp_server/graphql_client.py:15-23 | the fields take the resolved host and token and the version as given |
| GraphqlClient.GraphQLClient.Execute | shopify_storefront_mcp_server/graphql_client.py:25-45 | missing host or token raises before any request; otherwise the backend's answer to the endpoint request with these headers and this payload |
| GraphqlClient.EndpointRoundTrip | shopify_storefront_mcp_server/graphql_client.py:40 | the endpoint URL determines host and API version |
| GraphqlClient.RequestHeaders | shopify_storefront_mcp_server/graphql_client.py:29-33 | exactly the token header, the JSON content type and the default headers |
| GraphqlClient.RequestPayload | shopify_storefront_mcp_server/graphql_client.py:34-36 | the query always; the variables exactly when they are non-empty |
| Gateway.AdviceOf | shopify_storefront_mcp_server/main.py:88-96 | one products suggestion per denial message, only when the query mentions products; never an alternative query |
| Gateway.AnalyzeErrorsAndSuggest | shopify_storefront_mcp_server/main.py:88-96 | the loop builds exactly that advice |
| Gateway.DenialCountZero | shopify_storefront_mcp_server/main.py:92 | no suggestion is counted iff no message contains `Access denied` |
| Gateway.GuidanceFromComponents | shopify_storefront_mcp_server/main.py:99-120 | first match wins: products access, then product types with search, then cart creation alone; each branch gives its own summary, workflow and warnings in full, and with none of them the guidance is empty |
| Gateway.GuidanceDependsOnAccessibleOnly | shopify_storefront_mcp_server/main.py:99-120 | the guidance depends only on which components are accessible, never on the inaccessible list |
| Gateway.CatalogNamesDistinct | shopify_storefront_mcp_server/main.py:57-64 | the six component names, in catalogue order, are distinct |
| Gateway.Introspect | shopify_storefront_mcp_server/main.py:69-77 | the loop lists, in catalogue order, the components whose query returned without errors as accessible and the rest as inaccessible |
| Gateway.IntrospectPartition | shopify_storefront_mcp_server/main.py:69-77 | every component is in exactly one list, each list is duplicate-free, and together they permute the catalogue |
| Gateway.IntrospectAccessible | shopify_storefront_mcp_server/main.py:70-77 | a component is inaccessible iff its query raised or returned a non-empty error list |
| Gateway.TestReplyOf | shopify_storefront_mcp_server/main.py:42-54 | success iff errors is absent or null; error advice when errors are present; on an exception, one message and the network-error suggestion |
| Gateway.RunTest | shopify_storefront_mcp_server/main.py:42-54 | the test block builds exactly that reply |
| Gateway.GatewayOf | shopify_storefront_mcp_server/main.py:14-85 | missing credentials give one error in every mode; an unknown mode, or execute or test without a query, gives its error; test and introspect give their replies |
| Gateway.ShopifyStorefrontGraphql | shopify_storefront_mcp_server/main.py:14-85 | the tool replies exactly as specified |
| Gateway.TestIgnoresVariables | shopify_storefront_mcp_server/main.py:44 | a test run's reply does not depend on the variables passed |
| Gateway.ExecuteSendsRequest | shopify_storefront_mcp_server/main.py:33-37 | execute sends the endpoint request with the caller's query and variables, and passes the answer or the exception message through |
| Gateway.CartOnlyWarns | shopify_storefront_mcp_server/main.py:115-119 | with cart creation accessible and listing and product types not, the guidance warns that discovery is limited and has no workflow |
| Customer.CarryStreet | shopify_storefront_mcp_server/customer.py:94-101 | a new address keeps its own keys and gains `address1` from the stored address's `street` exactly when it had none |
| Customer.CustomerDataOf | shopify_storefront_mcp_server/customer.py:72-122 | get never saves and answers the record or the field (`""` when absent); update saves iff some write applies, and saves the record after all writes; delete clears the record, removes only that field, or warns that it is missing; an unknown operation saves nothing |
| Customer.WriteCustomFields | shopify_storefront_mcp_server/customer.py:103-106 | the custom fields overwrite the record, and a write is made iff there is at least one |
| Customer.ApplyUpdates | shopify_storefront_mcp_server/customer.py:89-106 | the writes, made in order, give exactly the specified updated record, and `updates_made` holds iff some write applies |
| Customer.CustomerData | shopify_storefront_mcp_server/customer.py:72-122 | the tool replies and saves exactly as specified |
| Customer.UpdateLastWriteWins | shopify_storefront_mcp_server/customer.py:89-106 | writes apply in order: field, shipping, billing, custom fields, and each key holds its last write |
| Customer.ShippingInheritsStreet | shopify_storefront_mcp_server/customer.py:93-96 | a new shipping address without `address1` takes it from the stored `street` |
| Customer.DeleteRemovesOnlyField | shopify_storefront_mcp_server/customer.py:116-119 | deleting a present field removes that key alone and saves the rest |
| Customer.OperationCaseInsensitive | shopify_storefront_mcp_server/customer.py:83-112 | operation names differing only in ASCII case behave alike |

## Left out

- Network I/O is left out: `fetch_text`, `fetch_head`, `asyncio.gather`, the asset GETs, the POST in `execute` with `raise_for_status` and JSON decoding. Each becomes an input or the `Backend` oracle, and concurrency is not modelled.
- `capture_network_tokens` is an input, `Capture`: its tokens or its error message. It GETs the page again with the shared HTTP client and parses it with BeautifulSoup. In each `<script>` string it finds the three `fetch_patterns` (a `fetch(`, `url:` or `endpoint:` GraphQL URL). Within ±200 characters of each hit it runs the three token patterns with no context check. It appends every group 1 it finds.
- HTML parsing (BeautifulSoup) is an input, `ParsedPage`. It holds the `script`/`link` tags in document order, the JSON-LD script strings, the meta contents and each element's attributes.
- `urllib.parse.urljoin` is a parameter, `resolve`. `urlparse(url).netloc` is the input `netloc`.
- Lower-casing, `\w`, `\s` and `\b` are ASCII. On ASCII, `\s` is space, tab, line feed, carriage return, vertical tab, form feed and 0x1C-0x1F, as in Python. Python's Unicode case mapping and its non-ASCII character classes are not modelled.
- `json.dumps` serialisation is not modelled. Replies are records, a response's `errors` list is reduced to its messages (strings), and the liveness check's "`__schema` in the serialised response" is a flag of the response.
- Discovery.FirstDomainHit: it states lower-casing but not which pattern wins. `Discovery.CanonicalHostPrecedence` states the winner of the host choice, one clause per myshopify pattern. `DiscoveryPatterns.SearchFindsFirst` states that each pattern's match is the leftmost.
- A response whose `errors` is neither null nor a list is not modelled, for example an object or a string. In test mode the source could then raise inside `analyze_errors_and_suggest`. That raise falls into the test block's `except`, which gives the network-error reply (main.py:45-53).
- The model's `errors` list holds one string per entry. Entries of other shapes cannot be expressed. The source handles them as follows (main.py:91-92):
  - an entry that is not an object raises at `error.get(...)`;
  - a `message` that is `null`, a number or a boolean raises at `"Access denied" in msg`;
  - a `message` that is a list or an object does not raise. `in` is then a membership test, so `["Access denied"]` adds the products suggestion when the query mentions `products`;
  - an entry without `message` reads as `""`, contributes no suggestion, and is covered by one string per entry.

  In test mode each of these raises falls into the `except`, which gives the network-error reply (main.py:51-53).
- A response body that is not a JSON object is not modelled: `Response` is always an object. The source behaves differently on such a body:
  - in the permission probes (discovery.py:139), a list or string body makes `"errors" not in data` a membership test; a non-zero number raises, so the probe counts as denied; a falsy body grants nothing;
  - in test mode (main.py:45-50), `data.get` raises, and the `except` gives the network-error reply;
  - in introspect mode (main.py:72), `data.get` raises, and the component is marked inaccessible.
- Customer.CarryStreet: a stored address that is not a JSON object is treated as having no street. The source behaves differently, and the model does not follow it (customer.py:94, 99):
  - a stored `null` or number makes the source raise at the `"street" in …` test;
  - a stored string or list is tested for membership of `street`; when that holds and the new address has no `address1`, reading `…["street"]` raises.
- The `custom_fields` loop is modelled over a map, visited in an arbitrary order. Keys are distinct, so the order does not change the result.
- Aliasing is not modelled: the source also mutates the caller's address dictionary. `load_user_data`/`save_user_data` file I/O and the six `mcp.resource` getters are left out as I/O.
- The shared HTTP client, `.env` loading, `main()` and the plumbing files are left out. The environment read at import time is the `Env` input.
