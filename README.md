# fabricator, modelled in Dafny

fabricator is a small Python client for REST APIs. You build a tree of
`Fabricator` nodes: the root client, plus groups that add a URL prefix.
Each node has a routing table. Before the tree is started, asking a node for
an attribute named after an HTTP method (`client.get(...)`,
`client.post(...)`) registers an endpoint: a name, a path template, the
methods the endpoint accepts, its required parameters and optional
settings. Once a node or one of its ancestors is started, attribute lookup
resolves names instead, to endpoints and to groups. Calling an endpoint
goes through these steps, in order:

1. check the method and fix the verb it stands for;
2. check the required parameters;
3. bind the `:name` tokens of the path to the call's keyword arguments,
   removing each bound key from the arguments;
4. send what is left as a JSON body (for POST, PUT and PATCH) or as query
   parameters (for everything else);
5. resolve the auth handler and the headers, taking the endpoint's own or
   else the nearest ancestor's;
6. build the URL: substitute the bound values for the tokens, then prefix
   the base URLs, root first;
7. hand the request to the transport;
8. resolve the response handler the same way and apply it to the reply.

The library also ships three ready-made handlers: a success check, a
JSON-decoding handler and a pass-through auth handler.

The project's modules, one per file:

- `errors.dfy`: the library's exceptions as a datatype, plus `Result`,
  `Outcome` and `Option`.
- `strings.dfy`: ASCII `upper` and `lower`, Python's `str.join` and
  `str.replace`, and `quote_and_escape` with its round trip.
- `methods.dfy`: the `HTTPMethods` enum, its cross-form equality and the
  per-endpoint method check.
- `path_template.dfy`: the token scan that `re.findall('(:[A-z_]+)')`
  performs, and the token substitution.
- `binding.dfy`: the pure steps of a call, namely required parameters,
  token binding and the body-or-query choice.
- `resolution.dfy`: the "nearest value that is set" walk, as a function
  over a sequence.
- `registry.dfy`: the `Fabricator` and `FabricatorEndpoint` classes.
- `extras.dfy`: the handlers in `fabricator/extras.py`.
- `scenarios.dfy`: the repository's tests, replayed against the contracts.

## How nodes and endpoints are modelled

- `Fabricator` is a class, and the fields the source updates are `var`
  fields. Its parent and base URL are never reassigned, so they are
  `const`. Each node has a ghost list of its ancestors, and `Rooted()`
  states that this list is the chain of parents.
- The ancestor walks are while loops:
  - `_is_started` walks up the tree looking for a started node;
  - `_get_headers`, `_get_auth_handler` and `_get_response_handler` walk up
    for the nearest setting;
  - `_construct_url` walks up collecting the base URLs.

  Each loop is proved equal to a recursive ghost function over the
  ancestor chain. Lemmas then state what that function means: the nearest
  setting, the concatenation from root to leaf, or "some node on the chain
  was started".
- `register` changes the `methods` list it is given in place, so the list
  is an `array`. The contract states the array's contents afterwards,
  including after a failure part way through.
- Handlers, auth handlers and JSON values are opaque tokens (`Handler`) or
  type parameters. The call's keyword arguments are a `map<string, V>`,
  with `str()` passed in as a function.
- The model stops at the transport. `Request` is the value that
  `_make_request` hands to `requests.request`, together with the response
  handler that would be applied to the reply.

## Where the model follows the code rather than the documentation

- The method values given to `register` are looked up by value, which is
  case-sensitive: `"put"` is refused there. Only attribute lookup and the
  endpoint method check upper-case first.
- `register` and `group` do not check whether the tree has been started.
- `start` sets only its own node's flag. A node counts as started when it
  or any ancestor is flagged, so starting a group does not freeze the root.
- The token pattern `[A-z_]` is a range from `A` to `z`. It includes `[`,
  `\`, `]`, `^` and the backtick, and it excludes digits, so `:id2` yields
  the token `:id`.
- Tokens are substituted with plain `replace`, one after another. A token
  that is a prefix of a later token therefore rewrites part of the later
  one: `/:id/:idx` with `id=1` and `idx=2` becomes `/1/1x`. This is shown
  by `PathTemplate.PrefixTokenCollision`.

## Model

| member | source | states |
|---|---|---|
| Strings.Upper | fabricator/fabricator.py:158 | upper-casing keeps the length and maps each character to its ASCII upper case |
| Strings.Lower | fabricator/fabricator.py:307 | lower-casing keeps the length and maps each character to its ASCII lower case |
| Strings.JoinWith | fabricator/fabricator.py:307 | Python's `sep.join(parts)`: the parts in order with the separator between neighbours |
| Strings.LowerConcat | fabricator/fabricator.py:307 | lower-casing a concatenation lower-cases each piece |
| Strings.LowerJoinStep | fabricator/fabricator.py:307 | lower-casing a join from position k gives the lower-cased part there, the separator, then the lower-cased join of the rest |
| Strings.UpperIdempotent | fabricator/fabricator.py:158 | upper-casing an upper-cased string changes nothing |
| Strings.ReplaceAll | fabricator/fabricator.py:211 | Python's `str.replace` with every occurrence replaced, scanning left to right without overlap; characterised by the two rows below |
| Strings.ReplaceAbsent | fabricator/fabricator.py:211 | `replace` leaves a string without the pattern unchanged |
| Strings.ReplaceLeftmost | fabricator/fabricator.py:211 | `replace` rewrites the leftmost occurrence and continues after it |
| Strings.EscapeRoundTrip | fabricator/fabricator.py:23 | un-escaping the escaped text gives back the original for every string |
| Strings.EscapeHead | fabricator/fabricator.py:23 | escaping yields the empty string only for the empty string, and never starts with a bare quote |
| Strings.Escape | fabricator/fabricator.py:23 | the escaping inside `quote_and_escape`: `replace` of every `'` by `\'`; undone by `Unescape` for every string (`EscapeRoundTrip`) |
| Strings.QuoteAndEscape | fabricator/fabricator.py:23 | None gives the text `None`; a string gives quote, escaped text, quote, and the inner part un-escapes to the string |
| Strings.QuoteAndEscapeInjective | fabricator/fabricator.py:23 | different inputs always give different representations |
| Methods.All | fabricator/fabricator.py:100-102 | nine names, one per member, without repetition |
| Methods.Parse | fabricator/fabricator.py:76-89 | lookup succeeds exactly on the nine values, and the member found has that value |
| Methods.ParseName | fabricator/fabricator.py:76-89 | every member is found again from its own value |
| Methods.Eq | fabricator/fabricator.py:91-98 | `HTTPMethods.__eq__`: a member against a member compares identity, a member against a string compares the string with the member's value; characterised by `EqIsParse` |
| Methods.MethodIn | fabricator/fabricator.py:160 | the test `m in self.methods`: some listed member is `Eq` to the method; characterised in both directions by `MethodInIff` |
| Methods.EqIsParse | fabricator/fabricator.py:91-98 | a member equals a member only when it is that member, and equals a string exactly when lookup of that string yields it |
| Methods.MethodInIff | fabricator/fabricator.py:160 | `in` on a member list holds for a member iff it is listed, and for a string iff lookup of that string yields a listed member |
| Methods.CheckMethod | fabricator/fabricator.py:153-161 | any method passes when none are declared; otherwise a member passes iff declared; a string passes iff its upper case names a declared member; a failure carries the route's message |
| Methods.Verb | fabricator/fabricator.py:226-231 | the verb sent: a member's value, or a string upper-cased |
| Methods.Show | fabricator/fabricator.py:161 | the text `'{}'.format(m)` gives here and in `register`'s message at line 385: a plain value as it is, a member as `HTTPMethods.` followed by its name, which is how `str` prints a member of a plain `enum.Enum` |
| Methods.Normalize | fabricator/fabricator.py:157-158 | a string is upper-cased before the check and a member is left as it is; `CheckMethodIgnoresCase` shows the upper-casing makes case irrelevant |
| Methods.CheckMethodIgnoresCase | fabricator/fabricator.py:157-158 | a method string and its upper-cased form are accepted or refused alike |
| PathTemplate.IsTokenChar | fabricator/fabricator.py:243 | the character class `[A-z_]`: every character from `A` to `z`, which takes in `[`, `\`, `]`, `^`, `_` and the backtick |
| PathTemplate.RunEnd | fabricator/fabricator.py:243 | the greedy run of class characters ends at a non-class character or at the end |
| PathTemplate.TokensFrom | fabricator/fabricator.py:243 | every token found is a colon plus class characters and occurs in the path at or after the scan position; greediness, order and completeness are the two rows below |
| PathTemplate.MatchStarts | fabricator/fabricator.py:243 | the positions where `re.findall` starts a match: each starts a match, each lies past the end of the previous match, and every position from the scan start where a match can begin is among them |
| PathTemplate.TokensFromMatches | fabricator/fabricator.py:243 | the k-th token found is the whole maximal run of class characters after the colon at the k-th match start, one token per start |
| PathTemplate.MatchesAt | fabricator/fabricator.py:243 | the relation used by `TokensFromMatches`: equal lengths, each token the maximal run at its start |
| PathTemplate.ConsMatch | fabricator/fabricator.py:243 | proof helper: one more match in front keeps `MatchesAt` |
| PathTemplate.Tokens | fabricator/fabricator.py:243 | the `re.findall` result for a whole path, duplicates kept; characterised by `TokensFrom`, `TokensFromMatches` and `TokensEmptyIff` |
| PathTemplate.TokensFromEmptyIff | fabricator/fabricator.py:243 | the scan finds nothing iff no colon followed by a class character occurs from the scan position |
| PathTemplate.TokensEmptyIff | fabricator/fabricator.py:243 | a path has no tokens iff no colon in it is followed by a class character |
| PathTemplate.NoColonNoTokens | fabricator/fabricator.py:243 | a path without a colon has no tokens |
| PathTemplate.Substitute | fabricator/fabricator.py:204-211 | `_construct_url`'s loop: each bound token, in binding order, replaced everywhere in the path as it stands after the earlier replacements |
| PathTemplate.SubstituteWithoutColon | fabricator/fabricator.py:204-211 | substituting tokens into a path without a colon leaves it unchanged |
| PathTemplate.TodosTokens | fabricator/fabricator.py:243 | `/todos/:id` has exactly the token `:id` |
| PathTemplate.TodosSubstitute | fabricator/fabricator.py:204-211 | `/todos/:id` with `:id` bound to `1` becomes `/todos/1` |
| PathTemplate.DigitEndsToken | fabricator/fabricator.py:243 | a digit ends a token: `/v/:id2` has the token `:id` |
| PathTemplate.PrefixTokenCollision | fabricator/fabricator.py:204-211 | `/:id/:idx` has both tokens, yet substituting `1` and `2` gives `/1/1x` |
| PathTemplate.CollisionTokens | fabricator/fabricator.py:243 | `/:id/:idx` has the tokens `:id` and `:idx`, in that order |
| PathTemplate.CollisionFirstReplace | fabricator/fabricator.py:211 | replacing `:id` in `/:id/:idx` also rewrites the start of `:idx` |
| Binding.FirstMissing | fabricator/fabricator.py:237-239 | no name is reported iff every required name is supplied; otherwise the first unsupplied name in declaration order is reported |
| Binding.Key | fabricator/fabricator.py:245-249 | the keyword a token binds, `m[1:]`: the token without its leading colon |
| Binding.KeySet | fabricator/fabricator.py:245-250 | holds the key of every token and nothing else |
| Binding.BindTokens | fabricator/fabricator.py:244-250 | the token loop: tokens in order, each reading and deleting its key, failing at the first key missing from what is left; characterised by the rows below |
| Binding.PrependAllStep | fabricator/fabricator.py:244-250 | proof helper for `BindPathParams`: adding bound pairs one at a time is the same as adding them in one batch |
| Binding.PrependNothing | fabricator/fabricator.py:242 | proof helper for `BindPathParams`: no pairs in front change nothing |
| Binding.BindStep | fabricator/fabricator.py:245-250 | proof helper for `BindPathParams`: binding the first token moves its pair to the bound ones and its key out of the arguments |
| Binding.BindTokensOkIff | fabricator/fabricator.py:244-250 | binding succeeds iff every token's key is supplied and no key repeats |
| Binding.BindTokensContents | fabricator/fabricator.py:244-250 | a successful binding pairs each token, in order, with its key's value, and leaves exactly the other arguments |
| Binding.BindTokensErr | fabricator/fabricator.py:244-246 | a failed binding names the first token whose key is absent from what the earlier tokens left; every earlier token found its key |
| Binding.UsedUp | fabricator/fabricator.py:250 | proof helper: the keys left after n tokens are those left after the first, minus the next n - 1 |
| Binding.RepeatedTokenFails | fabricator/fabricator.py:245-250 | a path with the same token twice always fails to bind |
| Binding.IsBodyMethod | fabricator/fabricator.py:254 | the test `method in (POST, PUT, PATCH)` on the verb string |
| Binding.IsBodyMethodValues | fabricator/fabricator.py:254 | the body methods are exactly POST, PUT and PATCH |
| Binding.ChoosePayload | fabricator/fabricator.py:252-258 | leftover arguments become nothing when empty, otherwise the JSON body for POST/PUT/PATCH and the query for every other method, passed on whole |
| Resolution.FirstSome | fabricator/fabricator.py:168-172 | nothing is found iff no entry is set; what is found is an entry before which nothing is set |
| Resolution.FirstSomeNearest | fabricator/fabricator.py:168-172 | the first set entry is the one found |
| Registry.MethodListFromAll | fabricator/fabricator.py:306-308 | the list quoted in the usage error is `', '.join(HTTPMethods.all()).lower()` |
| Registry.LowerNamesHead | fabricator/fabricator.py:307 | proof helper: the first five member names, lower-cased |
| Registry.LowerNamesTail | fabricator/fabricator.py:307 | proof helper: the last four member names, lower-cased |
| Registry.Fabricator.constructor | fabricator/fabricator.py:281-295 | a fresh node with the given settings, an empty routing table and not started |
| Registry.Fabricator.IsStarted | fabricator/fabricator.py:353-361 | the walk answers whether the node or an ancestor is flagged |
| Registry.Fabricator.Start | fabricator/fabricator.py:347-351 | the node is flagged; ancestors are unaffected; every node below it counts as started |
| Registry.Fabricator.AddHeader | fabricator/fabricator.py:318-323 | a node without headers gets a one-entry map; otherwise the entry is added or overwritten |
| Registry.Fabricator.SetHandler | fabricator/fabricator.py:325-326 | the default response handler is replaced |
| Registry.Fabricator.SetAuthHandler | fabricator/fabricator.py:328-329 | the auth handler is replaced |
| Registry.Fabricator.Group | fabricator/fabricator.py:331-345 | a fresh child node with the prefix as base URL, entered under the name, nothing else in the table changed |
| Registry.Fabricator.GetAttr | fabricator/fabricator.py:298-316 | before start, only an HTTP method name in any case succeeds and gives the register shortcut, otherwise the usage error; after start, succeeds iff the name is in the table and gives that entry, otherwise the not-implemented error |
| Registry.Fabricator.Register | fabricator/fabricator.py:364-398 | a null list is a type error; values are converted in place up to the first invalid one, which fails with its message and leaves the table alone; otherwise a fresh endpoint with the slash-prefixed path and the converted methods is entered under the name |
| Registry.Fabricator.RegisterShortcutCall | fabricator/fabricator.py:308-310 | without a `methods` keyword the shortcut always registers, with that one method; a caller's `methods` keyword replaces the bound list, and the call then has exactly `register`'s outcome for it (type error for None, in-place conversion, failure at the first invalid value, registration otherwise) |
| Registry.AncestorsRooted | fabricator/fabricator.py:287 | every ancestor is itself rooted on the rest of the chain, and no node is its own ancestor |
| Registry.FrozenIff | fabricator/fabricator.py:353-361 | a node counts as started iff it or some ancestor is flagged |
| Registry.FrozenFromChain | fabricator/fabricator.py:353-361 | a flagged ancestor makes the node count as started |
| Registry.FirstInvalid | fabricator/fabricator.py:376-385 | every value before the index names a member, and the value at the index (if any) names none |
| Registry.FirstInvalidAt | fabricator/fabricator.py:376-385 | that index is the only one with this property |
| Registry.ToMember | fabricator/fabricator.py:378-382 | a member stands for itself (the `isinstance` skip); a plain value is looked up by value with `HTTPMethods(m)`, and none is found exactly when that lookup raises |
| Registry.Converted | fabricator/fabricator.py:376-383 | entries before k are replaced by their members, later ones unchanged |
| Registry.Members | fabricator/fabricator.py:376-383 | the members of a valid list, each equal to its original value |
| Registry.NormalizePath | fabricator/fabricator.py:387-388 | the result starts with a slash, equals the path when it already did, and otherwise is the path prefixed with one |
| Registry.NormalizePathLeadingSlash | fabricator/fabricator.py:387-388 | normalizing is idempotent and agrees with slash-prefixing |
| Registry.Endpoint.constructor | fabricator/fabricator.py:122-141 | an endpoint holding exactly the given settings |
| Registry.Endpoint.GetAttr | fabricator/fabricator.py:143-145 | succeeds iff the name passes the method check, giving the call bound to that method string; otherwise the not-implemented error |
| Registry.Endpoint.GetResponseHandler | fabricator/fabricator.py:163-174 | the walk yields the resolved response handler |
| Registry.Endpoint.GetAuthHandler | fabricator/fabricator.py:176-187 | the walk yields the resolved auth handler |
| Registry.Endpoint.GetHeaders | fabricator/fabricator.py:189-200 | the walk yields the resolved headers |
| Registry.Endpoint.ConstructUrl | fabricator/fabricator.py:202-220 | the URL is the cumulative base URL followed by the path with the bound values substituted |
| Registry.Endpoint.MissingRequired | fabricator/fabricator.py:236-239 | the loop reports the first unsupplied required name |
| Registry.Endpoint.BindPathParams | fabricator/fabricator.py:241-250 | the loop gives exactly the binding of the path's tokens |
| Registry.Endpoint.Assemble | fabricator/fabricator.py:252-265 | verb, URL, payload, auth handler, headers and handler are the resolved ones |
| Registry.Endpoint.Pipeline | fabricator/fabricator.py:222-265 | the specification of `_make_request`: the first error among method check, required parameters and token binding, else the request with the resolved settings; characterised by `PipelineOkIff` and `PipelineRequest` |
| Registry.Endpoint.MakeRequest | fabricator/fabricator.py:222-266 | the request, or the first error of the pipeline |
| Registry.Endpoint.Call | fabricator/fabricator.py:147-151 | a `self` keyword is a TypeError; then no methods gives IndexError; then a `method` keyword is a TypeError; otherwise the pipeline with the first method, which never fails the method check and sends that method's value |
| Registry.Endpoint.CallBound | fabricator/fabricator.py:143-145 | calling the partial: a `self` keyword is a TypeError; a `method` keyword replaces the bound name and is removed from the arguments; otherwise the pipeline with the bound name, sending it upper-cased |
| Registry.MethodTokenUnbound | fabricator/fabricator.py:145 | through the partial, an endpoint whose path has the token `:method` fails on every call |
| Registry.Stringify | fabricator/fabricator.py:205-209 | each bound value is converted with `str`, keys and order kept |
| Registry.BaseUrl | fabricator/fabricator.py:213-218 | the base URL built by the walk up the parents: each ancestor's fragment put in front of those below it; `BaseUrlRootToLeaf` states it root first |
| Registry.AlongIndex | fabricator/fabricator.py:168-172 | the settings met walking up are those of the chain's nodes, position by position |
| Registry.HeadersResolution | fabricator/fabricator.py:189-200 | headers are the endpoint's own, else the nearest ancestor's map, else empty |
| Registry.AuthResolution | fabricator/fabricator.py:176-187 | the auth handler is the endpoint's own, else the nearest ancestor's, else the pass-through |
| Registry.HandlerResolution | fabricator/fabricator.py:163-174 | the response handler is the endpoint's own, else the nearest ancestor's default, else the pass-through |
| Registry.JoinSnoc | fabricator/fabricator.py:216-218 | proof helper for `BaseUrlRootToLeaf`: joining with one more fragment appends it |
| Registry.JoinIsJoinWith | fabricator/fabricator.py:216-218 | the fragment concatenation is `''.join` of the fragments |
| Registry.RootToLeaf | fabricator/fabricator.py:216-218 | one fragment per node of the chain |
| Registry.BaseUrlRootToLeaf | fabricator/fabricator.py:213-218 | the base URL is the concatenation of the chain's fragments from the root down |
| Registry.PipelineOkIff | fabricator/fabricator.py:222-250 | a call gets through iff the method passes, every required name is supplied, and every token key is supplied without repetition |
| Registry.PipelineRequest | fabricator/fabricator.py:226-265 | a request that gets through carries the method value, the base URL plus the substituted path, and as payload the arguments minus the token keys |
| Errors.RequestMessage | fabricator/fabricator.py:31-58 | the message of a request error: its own for `FabricatorRequestError`, `Authentication failed` for the auth error |
| Extras.CheckOk | fabricator/extras.py:18-28 | a good response passes unchanged; 401 and 403 give the auth error; every other failure gives the request error naming the URL, with status and body |
| Extras.JsonDecode | fabricator/extras.py:5-15 | failures of the check propagate; otherwise the decoded body, or the raw body when decoding fails, with the status code |
| Extras.NoAuth | fabricator/extras.py:30-34 | the request is returned untouched |
| Scenarios.BadMethodScenario | tests/test_fabricator.py:24-27 | before start, `client.notahttpmethod` is the usage error |
| Scenarios.ShortcutOverrideScenario | fabricator/fabricator.py:308-310 | `client.get(..., methods=["POST"])` registers a POST endpoint and converts the caller's list in place |
| Scenarios.ShortcutBadOverrideScenario | fabricator/fabricator.py:376-385 | `client.get(..., methods=["bad"])` fails with `method bad is not valid` and registers nothing |
| Scenarios.RequiredParamScenario | tests/test_fabricator.py:62-76 | the `post` shortcut registers `create`; after start a call with `value` sends it as the body, one without fails naming `value` |
| Scenarios.MultipleMethodsScenario | tests/test_fabricator.py:141-158 | direct registration with PUT and PATCH; after start both are callable by name and reach `/todos/1` |
| Scenarios.SharedHeaderScenario | tests/test_fabricator.py:106-122 | a header added to the root is sent by its endpoint |
| Scenarios.EndpointHeaderScenario | tests/test_fabricator.py:125-138 | headers given at registration are sent by the endpoint |
| Scenarios.ResponseHandlerScenario | tests/test_fabricator.py:161-178 | the root's default response handler is the one named in the request |
| Scenarios.GroupScenario | tests/test_fabricator.py:91-102 | an endpoint registered in a group resolves, after the root starts, to the root URL, the group prefix, then its path |
| Scenarios.PlainRootSettings | tests/test_fabricator.py:10-13 | an endpoint under a bare client resolves every setting to its default |
| Scenarios.CreateRequests | tests/test_fabricator.py:46-76 | POST `/todos` with `value` sends it as the JSON body; without `value` it fails naming `value` |
| Scenarios.UpdateRequests | tests/test_fabricator.py:141-158 | `put` and `patch` are both reachable, and a call with `id` and `value` goes to `/todos/1` with `value` in the body |
| Scenarios.UpdateBinding | tests/test_fabricator.py:141-158 | the `:id` token takes `id` and leaves `value` |
| Scenarios.HealthRequest | tests/test_fabricator.py:106-178 | GET `/__health` carries the endpoint's headers, else the root's, and the root's default handler |
| Scenarios.GroupRequest | tests/test_fabricator.py:91-102 | a group endpoint's URL is the root URL, the group prefix, then its path |

## Left out

- The transport: `requests.request`, the reply it returns and the
  application of the response handler to it. The model ends with the
  `Request` value and names the handler that would receive the reply.
- `make_auth_handler`: the `AuthBase` wrapper class and its instantiation.
  The model returns the resolved handler itself.
- JSON decoding: `FabricatorRequestError.json` and `resp.json()`. The JSON
  decoder is a parameter of `Extras.JsonDecode`.
- The `__str__` and `__repr__` of the exceptions. Only `quote_and_escape`,
  which they use, is modelled.
- Python's attribute machinery. `__getattr__` is a method taking the name,
  and the `functools.partial` it returns is a value (`RegisterShortcut`,
  `Str(item)`). Calling that value is `RegisterShortcutCall` or
  `Endpoint.CallBound`.
- Positional arguments: `__call__` accepts and ignores them, and one given
  to the endpoint partial would clash with `method`. The register shortcut
  takes its arguments as parameters, so a fourth positional value that
  clashes with its bound `methods` is not modelled either. The model passes
  keyword arguments only.
- Registry.Endpoint.Call, Registry.Endpoint.CallBound: the `TypeError`
  texts are those of recent Python 3 versions; older versions word them
  differently.
- Registry.Endpoint.CallBound: a `method` keyword whose value is neither a
  string nor a member is read through the `asMethod` parameter, so the
  `FabricatorException` for it is not modelled.
- Strings.Upper: only ASCII letters are upper-cased, not the full Unicode
  mapping of `str.upper`.
- Strings.Lower: likewise only ASCII letters are lower-cased.
- Methods.All: the list is the `dir()` order of Python's `Enum`. Other
  Python versions may list extra names, and that would change the usage
  error's text.
- The `FabricatorUsageError` raised when `str()` of a URL parameter fails.
  `str` is a total function parameter here.
- The `FabricatorException` for a method argument that is neither a string
  nor a member. `MethodArg` admits only those two forms.
- Registry.Fabricator.Register: the `methods=None` default gives
  `TypeError`, whose message is not modelled precisely, and only the
  in-place conversion of a fresh or caller-owned array is modelled. Aliasing
  between that array and the endpoint's list is not: the endpoint keeps a
  copy.
- Registry.Fabricator.AddHeader: when a header map passed to a group or an
  endpoint is shared with the caller, later updates through the caller are
  not modelled. Maps are values here.
- Keyword-argument order and the order of query parameters: the arguments
  are a map.
- Response bodies are text (`string`), not bytes.
- `fabricator/exc.py`, `setup.py` and the example scripts are not part of
  this model.
