/** Client code written against the contracts alone, following the
    repository's own test scenarios. */
module Scenarios {
  import opened Errors
  import opened Strings
  import opened Methods
  import opened PathTemplate
  import opened Binding
  import opened Registry

  /** The base URL the tests give the client. */
  const BaseUrlOfTests := "http://localhost"

  /** A root client with nothing set but its base URL. */
  ghost predicate PlainRoot(n: Fabricator)
    reads n
  {
    n.parent == null && n.ancestors == [] && n.baseUrl == BaseUrlOfTests
    && n.headers.None? && n.authHandler.None? && n.defaultHandler.None?
  }

  /** An endpoint with nothing of its own set, directly under a plain root,
      resolves every setting to its default and its base URL to the root's. */
  lemma PlainRootSettings(e: Endpoint)
    requires e.Valid() && PlainRoot(e.parent)
    requires e.headers.None? && e.authHandler.None? && e.handler.None?
    ensures BaseUrl(e.parent) == BaseUrlOfTests
    ensures e.ResolvedAuth() == Noop && e.ResolvedHandler() == Noop && e.ResolvedHeaders() == map[]
  {
    assert HeadersAlong(e.parent) == [None];
    assert AuthAlong(e.parent) == [None];
    assert HandlersAlong(e.parent) == [None];
  }

  /** The `create` endpoint of the tests: POST /todos, `value` required,
      nothing else set, directly under a plain root. A call with `value`
      posts it as the JSON body; a call without it is refused. */
  lemma CreateRequests<V>(e: Endpoint, v: V, str: V -> string)
    requires e.Valid() && PlainRoot(e.parent)
    requires e.path == "/todos" && e.methods == [POST] && e.requiredParams == ["value"]
    requires e.headers.None? && e.authHandler.None? && e.handler.None?
    ensures e.Pipeline(Tag(POST), map["value" := v], str)
         == Ok(Request("POST", BaseUrlOfTests + "/todos", Json(map["value" := v]), Noop, map[], Noop))
    ensures e.Pipeline(Tag(POST), map["otherparam" := v], str) == Err(ParamValidationError("value"))
  {
    var kw := map["value" := v];
    NoColonNoTokens("/todos");
    PlainRootSettings(e);
    assert CheckMethod([POST], "/todos", Tag(POST)) == Pass;
    assert FirstMissing(["value"], kw.Keys) == None;
    assert BindTokens([], kw) == Ok(Bound([], kw));
    assert Substitute("/todos", Stringify([], str)) == "/todos";
    assert ChoosePayload("POST", kw) == Json(kw);
    assert "value" !in map["otherparam" := v];
  }

  /** Before start, a name that is no HTTP method is a usage error. */
  method BadMethodScenario() {
    var client := new Fabricator(BaseUrlOfTests, None, None, None, null);
    var attr := client.GetAttr("notahttpmethod");
    assert |Upper("notahttpmethod")| == 14;
    assert attr == Err(UsageError(RegistrationHint));
  }

  /** A `methods` keyword given to the `get` shortcut wins over the bound
      GET: `["POST"]` registers a POST endpoint. */
  method ShortcutOverrideScenario() {
    var client := new Fabricator(BaseUrlOfTests, None, None, None, null);
    var ms := new MethodArg[1];
    ms[0] := Str("POST");
    assert ms[..] == [Str("POST")];
    var done := client.RegisterShortcutCall(GET, Some(ms), "x", "/x", None, None, None, []);
    assert FirstInvalid([Str("POST")]) == 1 by { assert [Str("POST")][1..] == []; }
    assert Members([Str("POST")]) == [POST];
    assert done == Pass && client.endpoints["x"].endpoint.methods == [POST];
    assert ms[..] == [Tag(POST)];
  }

  /** With `methods=["bad"]` the shortcut fails and registers nothing. */
  method ShortcutBadOverrideScenario() {
    var client := new Fabricator(BaseUrlOfTests, None, None, None, null);
    var bad := new MethodArg[1];
    bad[0] := Str("bad");
    assert bad[..] == [Str("bad")];
    var done := client.RegisterShortcutCall(GET, Some(bad), "y", "/y", None, None, None, []);
    assert FirstInvalid([Str("bad")]) == 0;
    assert done == Fail(NotImplementedError("method " + Show(Str("bad")) + " is not valid"));
    assert "y" !in client.endpoints;
  }

  /** A POST endpoint with a required parameter, registered through the
      `post` shortcut and called after start with and without it. */
  method RequiredParamScenario() {
    var client := new Fabricator(BaseUrlOfTests, None, None, None, null);
    PostShortcut(client);
    var done := client.RegisterShortcutCall(POST, None, "create", "/todos", None, None, None, ["value"]);
    StartAndCallCreate(client);
  }

  /** Before start, `post` on a node is the POST register shortcut. */
  method PostShortcut(client: Fabricator)
    requires client.Rooted() && PlainRoot(client) && !client.started
  {
    var attr := client.GetAttr("post");
    assert Upper("post") == "POST";
    assert attr == Ok(RegisterShortcut(POST));
  }

  /** Start the client holding the `create` endpoint and look it up. */
  method StartAndCallCreate(client: Fabricator)
    requires client.Rooted() && PlainRoot(client)
    requires client.Registered("create", "/todos", None, [POST], None, None, ["value"])
    modifies client`started
  {
    client.Start();
    var found := client.GetAttr("create");
    CallCreate(found.value.child.endpoint);
  }

  /** The started `create` endpoint, called with and without `value`. */
  method CallCreate(e: Endpoint)
    requires e.Valid() && PlainRoot(e.parent)
    requires e.path == "/todos" && e.methods == [POST] && e.requiredParams == ["value"]
    requires e.headers.None? && e.authHandler.None? && e.handler.None?
  {
    CreateRequests(e, "TEST VALUE", (v: string) => v);
    var sent := e.Call(map["value" := "TEST VALUE"], (v: string) => v);
    assert sent.Ok? && sent.value.payload == Json(map["value" := "TEST VALUE"]);
    var refused := e.Call(map["otherparam" := "TEST VALUE"], (v: string) => v);
    assert refused == Err(ParamValidationError("value"));
  }

  /** The `update` endpoint of the tests: PUT and PATCH on /todos/:id,
      directly under a plain root. Either method is reachable by name, and a
      call with `id` and `value` puts the id into the path and sends the
      rest as the JSON body. */
  lemma UpdateRequests(e: Endpoint, verb: string, str: string -> string)
    requires e.Valid() && PlainRoot(e.parent)
    requires e.path == "/todos/:id" && e.methods == [PUT, PATCH] && e.requiredParams == []
    requires e.headers.None? && e.authHandler.None? && e.handler.None?
    requires verb == "put" || verb == "patch"
    requires str("1") == "1"
    ensures e.GetAttr(verb) == Ok(Str(verb))
    ensures e.Pipeline(Str(verb), map["id" := "1", "value" := "Thing to do"], str)
         == Ok(Request(Upper(verb), BaseUrlOfTests + "/todos/1", Json(map["value" := "Thing to do"]),
                       Noop, map[], Noop))
  {
    var kw := map["id" := "1", "value" := "Thing to do"];
    var rest := map["value" := "Thing to do"];
    assert Upper("put") == "PUT" && Upper("patch") == "PATCH";
    assert CheckMethod([PUT, PATCH], "/todos/:id", Str(verb)) == Pass;
    UpdateBinding(str);
    PlainRootSettings(e);
    assert "value" in rest && rest != map[];
    assert Upper(verb) in ["POST", "PUT", "PATCH"];
    assert ChoosePayload(Upper(verb), rest) == Json(rest);
  }

  /** The path token of /todos/:id takes the `id` argument and leaves the
      rest; its text goes into the path. */
  lemma UpdateBinding(str: string -> string)
    requires str("1") == "1"
    ensures BindTokens(Tokens("/todos/:id"), map["id" := "1", "value" := "Thing to do"])
         == Ok(Bound([(":id", "1")], map["value" := "Thing to do"]))
    ensures Substitute("/todos/:id", Stringify([(":id", "1")], str)) == "/todos/1"
  {
    var kw := map["id" := "1", "value" := "Thing to do"];
    var rest := map["value" := "Thing to do"];
    TodosTokens();
    assert Key(":id") == "id";
    assert kw - {"id"} == rest;
    assert [":id"][0] == ":id" && [":id"][1..] == [];
    assert "id" in kw && kw["id"] == "1";
    assert BindTokens([], rest) == Ok(Bound([], rest));
    assert [(":id", "1")] + [] == [(":id", "1")];
    assert Stringify([(":id", "1")], str) == [(":id", "1")];
    TodosSubstitute();
  }

  /** Direct registration with the method values "PUT" and "PATCH", which
      `register` turns into members in place; after start both methods of
      the endpoint are reachable. */
  method MultipleMethodsScenario() {
    var client := new Fabricator(BaseUrlOfTests, None, None, None, null);
    var methods := new MethodArg[2];
    methods[0] := Str("PUT");
    methods[1] := Str("PATCH");
    FirstInvalidAt([Str("PUT"), Str("PATCH")], 2);
    assert Members([Str("PUT"), Str("PATCH")]) == [PUT, PATCH];
    var done := client.Register("update", "/todos/:id", None, methods, None, None, []);
    assert done == Pass;
    assert methods[..] == [Tag(PUT), Tag(PATCH)];
    StartAndCallUpdate(client);
  }

  /** Start the client holding the `update` endpoint and look it up. */
  method StartAndCallUpdate(client: Fabricator)
    requires client.Rooted() && PlainRoot(client)
    requires client.Registered("update", "/todos/:id", None, [PUT, PATCH], None, None, [])
    modifies client`started
  {
    client.Start();
    var found := client.GetAttr("update");
    var e := found.value.child.endpoint;
    CallUpdate(e);
  }

  /** Both methods of the started `update` endpoint, called by name. */
  method CallUpdate(e: Endpoint)
    requires e.Valid() && PlainRoot(e.parent)
    requires e.path == "/todos/:id" && e.methods == [PUT, PATCH] && e.requiredParams == []
    requires e.headers.None? && e.authHandler.None? && e.handler.None?
  {
    CallUpdateWith(e, "put");
    CallUpdateWith(e, "patch");
  }

  /** `update.put(...)` or `update.patch(...)` with `id` and `value`: the
      id goes into the path and the value into the JSON body. */
  method CallUpdateWith(e: Endpoint, verb: string)
    requires e.Valid() && PlainRoot(e.parent)
    requires e.path == "/todos/:id" && e.methods == [PUT, PATCH] && e.requiredParams == []
    requires e.headers.None? && e.authHandler.None? && e.handler.None?
    requires verb == "put" || verb == "patch"
  {
    var str := (v: string) => v;
    UpdateRequests(e, verb, str);
    var bound := e.GetAttr(verb);
    assert bound.Ok?;
    var kwargs := map["id" := "1", "value" := "Thing to do"];
    var sent := e.CallBound(verb, kwargs, str, (v: string) => Str(v));
    assert sent == e.Pipeline(Str(verb), kwargs, str);
    assert sent.Ok? && sent.value.url == BaseUrlOfTests + "/todos/1";
    assert sent.value.payload == Json(map["value" := "Thing to do"]);
  }

  /** The `health` endpoint of the tests: GET /__health directly under a
      root client, with no parameters. Headers come from the endpoint, else
      the root; the response handler from the root's default. */
  lemma HealthRequest<V>(e: Endpoint, str: V -> string)
    requires e.Valid() && e.parent.parent == null && e.parent.ancestors == []
    requires e.parent.baseUrl == BaseUrlOfTests && e.parent.authHandler.None?
    requires e.path == "/__health" && e.methods == [GET] && e.requiredParams == []
    requires e.authHandler.None? && e.handler.None?
    ensures e.Pipeline(Tag(GET), map[], str)
         == Ok(Request("GET", BaseUrlOfTests + "/__health", NoPayload, Noop,
                       if e.headers.Some? then e.headers.value
                       else if e.parent.headers.Some? then e.parent.headers.value
                       else map[],
                       if e.parent.defaultHandler.Some? then e.parent.defaultHandler.value else Noop))
  {
    NoColonNoTokens("/__health");
    assert BaseUrl(e.parent) == BaseUrlOfTests;
    assert HeadersAlong(e.parent) == [e.parent.headers];
    assert AuthAlong(e.parent) == [None];
    assert HandlersAlong(e.parent) == [e.parent.defaultHandler];
    assert CheckMethod([GET], "/__health", Tag(GET)) == Pass;
    assert FirstMissing([], {}) == None;
    assert Substitute("/__health", Stringify([], str)) == "/__health";
  }

  /** A header added to the root client is sent by its endpoints. */
  method SharedHeaderScenario() {
    var client := new Fabricator(BaseUrlOfTests, None, None, None, null);
    client.AddHeader("X-CUSTOM", "1");
    var done := client.RegisterShortcutCall(GET, None, "health", "/__health", None, None, None, []);
    client.Start();
    var e := client.endpoints["health"].endpoint;
    HealthRequest(e, (v: string) => v);
    var sent := e.Call(map[], (v: string) => v);
    assert sent.Ok? && sent.value.headers == map["X-CUSTOM" := "1"];
  }

  /** Headers given at registration are sent by the endpoint. */
  method EndpointHeaderScenario() {
    var client := new Fabricator(BaseUrlOfTests, None, None, None, null);
    var done := client.RegisterShortcutCall(GET, None, "health", "/__health", None, None,
                                            Some(map["X-CUSTOM" := "1"]), []);
    client.Start();
    var e := client.endpoints["health"].endpoint;
    HealthRequest(e, (v: string) => v);
    var sent := e.Call(map[], (v: string) => v);
    assert sent.Ok? && sent.value.headers == map["X-CUSTOM" := "1"];
  }

  /** A default response handler set on the root client receives the
      responses of its endpoints. */
  method ResponseHandlerScenario() {
    var client := new Fabricator(BaseUrlOfTests, None, None, None, null);
    client.SetHandler(Some(Named("custom_handler")));
    var done := client.RegisterShortcutCall(GET, None, "health", "/__health", None, None, None, []);
    client.Start();
    var e := client.endpoints["health"].endpoint;
    HealthRequest(e, (v: string) => v);
    var sent := e.Call(map[], (v: string) => v);
    assert sent.Ok? && sent.value.handler == Named("custom_handler");
  }

  /** An endpoint of a group: its URL is the root's, then the group's
      prefix, then its own path. */
  lemma GroupRequest<V>(e: Endpoint, str: V -> string)
    requires e.Valid() && e.parent.parent != null && PlainRoot(e.parent.parent)
    requires e.parent.baseUrl == "/test" && e.parent.headers.None?
    requires e.parent.authHandler.None? && e.parent.defaultHandler.None?
    requires e.path == "/" && e.methods == [GET] && e.requiredParams == []
    requires e.headers.None? && e.authHandler.None? && e.handler.None?
    ensures e.Pipeline(Tag(GET), map[], str)
         == Ok(Request("GET", BaseUrlOfTests + "/test" + "/", NoPayload, Noop, map[], Noop))
  {
    NoColonNoTokens("/");
    var g := e.parent;
    var root := g.parent;
    assert g.ancestors == [root] && root.Rooted();
    assert BaseUrl(root) == BaseUrlOfTests;
    assert HeadersAlong(root) == [None];
    assert AuthAlong(root) == [None];
    assert HandlersAlong(root) == [None];
    assert BaseUrl(g) == BaseUrlOfTests + "/test";
    assert HeadersAlong(g) == [None, None];
    assert AuthAlong(g) == [None, None];
    assert HandlersAlong(g) == [None, None];
    assert CheckMethod([GET], "/", Tag(GET)) == Pass;
    assert FirstMissing([], {}) == None;
    assert Substitute("/", Stringify([], str)) == "/";
  }

  /** A group registered under the root: after the root starts, the group
      is a member of the root and its endpoint a member of the group. */
  method GroupScenario() {
    var client := new Fabricator(BaseUrlOfTests, None, None, None, null);
    var group := client.Group("test", "/test", None, None, None);
    assert group.parent == client;
    var done := group.RegisterShortcutCall(GET, None, "test", "/", None, None, None, []);
    assert "test" in group.endpoints;
    client.Start();
    var g := client.GetAttr("test");
    assert g == Ok(Member(Group(group)));
    var found := group.GetAttr("test");
    CallGroupEndpoint(found.value.child.endpoint);
  }

  /** The started endpoint of the group, called without arguments. */
  method CallGroupEndpoint(e: Endpoint)
    requires e.Valid() && e.parent.parent != null && PlainRoot(e.parent.parent)
    requires e.parent.baseUrl == "/test" && e.parent.headers.None?
    requires e.parent.authHandler.None? && e.parent.defaultHandler.None?
    requires e.path == "/" && e.methods == [GET] && e.requiredParams == []
    requires e.headers.None? && e.authHandler.None? && e.handler.None?
  {
    GroupRequest(e, (v: string) => v);
    var sent := e.Call(map[], (v: string) => v);
    assert sent.Ok? && sent.value.url == BaseUrlOfTests + "/test" + "/";
  }
}
