/** The node tree (`Fabricator`) and its endpoints (`FabricatorEndpoint`):
    registration, the two-mode attribute resolver, the started flag, the
    nearest-ancestor resolution of settings and the request pipeline up to
    the transport call. */
module Registry {
  import opened Errors
  import opened Strings
  import opened Methods
  import opened PathTemplate
  import opened Binding
  import opened Resolution

  /** A response or auth handler, by identity: the identity pass-through
      used when none is set, or a caller-supplied function. */
  datatype Handler = Noop | Named(id: string)

  /** An entry of a node's routing table. */
  datatype Child = Group(node: Fabricator) | Route(endpoint: Endpoint)

  /** What attribute lookup on a node yields: before start, `register`
      bound to one method; after start, an entry of the routing table. */
  datatype Attribute = RegisterShortcut(verb: HttpMethod) | Member(child: Child)

  /** The UsageError text for an unknown name before start. */
  const RegistrationHint: string := "Endpoint registrations use the methods \"" + MethodList + "\""

  /** The member names, comma-separated and lower-cased, grouped to the
      right the way the join builds them; see `MethodListFromAll`. */
  const MethodList: string :=
    "connect" + ", " + ("delete" + ", " + ("get" + ", " + ("head" + ", " + ("options" + ", " +
    ("patch" + ", " + ("post" + ", " + ("put" + ", " + "trace")))))))

  /** Proof helper: the first five member names, lower-cased. `n` is
      `All()`, passed in to keep the literal folded. */
  lemma LowerNamesHead(n: seq<string>)
    requires n == All()
    ensures Lower(n[0]) == "connect"
    ensures Lower(n[1]) == "delete"
    ensures Lower(n[2]) == "get"
    ensures Lower(n[3]) == "head"
    ensures Lower(n[4]) == "options"
  {
  }

  /** Proof helper: the last four member names, lower-cased. `n` is
      `All()`, passed in to keep the literal folded. */
  lemma LowerNamesTail(n: seq<string>)
    requires n == All()
    ensures Lower(n[5]) == "patch"
    ensures Lower(n[6]) == "post"
    ensures Lower(n[7]) == "put"
    ensures Lower(n[8]) == "trace"
  {
  }

  /** The list in the hint is `', '.join(HTTPMethods.all()).lower()`. */
  lemma MethodListFromAll()
    ensures MethodList == Lower(JoinWith(", ", All()))
  {
    var n := All();
    LowerNamesHead(n);
    LowerNamesTail(n);
    assert Lower(", ") == ", ";
    assert n[8..] == ["TRACE"];
    LowerJoinStep(", ", n, 7);
    LowerJoinStep(", ", n, 6);
    LowerJoinStep(", ", n, 5);
    LowerJoinStep(", ", n, 4);
    LowerJoinStep(", ", n, 3);
    LowerJoinStep(", ", n, 2);
    LowerJoinStep(", ", n, 1);
    LowerJoinStep(", ", n, 0);
    assert n[0..] == n;
  }

  class Fabricator {
    /** `_parent` and `_base_url` are set once, at construction. */
    const parent: Fabricator?
    const baseUrl: string
    var authHandler: Option<Handler>
    var headers: Option<map<string, string>>
    var defaultHandler: Option<Handler>
    var endpoints: map<string, Child>
    var started: bool
    /** The chain of parents, nearest first, up to the root. */
    ghost const ancestors: seq<Fabricator>

    ghost predicate Linked() {
      if parent == null then ancestors == [] else ancestors == [parent] + parent.ancestors
    }

    /** Every node from this one up to the root records its parents. */
    ghost predicate Rooted()
      decreases |ancestors|
    {
      Linked() && (parent != null ==> parent.Rooted())
    }

    constructor (baseUrl: string, authHandler: Option<Handler>, headers: Option<map<string, string>>,
                 handler: Option<Handler>, parent: Fabricator?)
      requires parent != null ==> parent.Rooted()
      ensures Rooted()
      ensures this.parent == parent && this.baseUrl == baseUrl
      ensures this.authHandler == authHandler && this.headers == headers
      ensures this.defaultHandler == handler
      ensures endpoints == map[] && !started
    {
      this.parent := parent;
      this.baseUrl := baseUrl;
      this.authHandler := authHandler;
      this.headers := headers;
      this.defaultHandler := handler;
      endpoints := map[];
      started := false;
      ancestors := if parent == null then [] else [parent] + parent.ancestors;
    }

    /** Some node on the chain from this one to the root, itself included,
        has been started. */
    ghost predicate Frozen()
      requires Rooted()
      reads this, set a | a in ancestors
      decreases |ancestors|
    {
      started || (parent != null && parent.Frozen())
    }

    /** `_is_started`: walk up the parents looking for a started node. */
    method IsStarted() returns (b: bool)
      requires Rooted()
      ensures b == Frozen()
    {
      var current: Fabricator? := this;
      while current != null
        invariant current != null ==> current.Rooted()
        invariant Frozen() == (current != null && current.Frozen())
        decreases if current == null then 0 else |current.ancestors| + 1
      {
        if current.started {
          return true;
        }
        current := current.parent;
      }
      return false;
    }

    /** `start`: sets this node's own flag. This node and every node below
        it are then frozen; the nodes above it are as they were. */
    method Start()
      requires Rooted()
      modifies this`started
      ensures started
      ensures Frozen()
      ensures forall a :: a in ancestors ==> a.Rooted() && a.Frozen() == old(a.Frozen())
      ensures forall n: Fabricator :: n.Rooted() && this in n.ancestors ==> n.Frozen()
    {
      AncestorsRooted(this);
      started := true;
      forall n: Fabricator | n.Rooted() && this in n.ancestors ensures n.Frozen() {
        FrozenFromChain(n, this);
      }
    }

    /** `add_header`: creates the header map or updates it in place. */
    method AddHeader(name: string, value: string)
      modifies this`headers
      ensures old(headers).None? ==> headers == Some(map[name := value])
      ensures old(headers).Some? ==> headers == Some(old(headers).value[name := value])
    {
      if headers.None? {
        headers := Some(map[name := value]);
        return;
      }
      headers := Some(headers.value[name := value]);
    }

    /** `set_handler`. */
    method SetHandler(h: Option<Handler>)
      modifies this`defaultHandler
      ensures defaultHandler == h
    {
      defaultHandler := h;
    }

    /** `set_auth_handler`. */
    method SetAuthHandler(h: Option<Handler>)
      modifies this`authHandler
      ensures authHandler == h
    {
      authHandler := h;
    }

    /** `group`: a new node below this one, entered in the routing table
        under `name` (replacing any entry of that name). There is no check
        that the tree has not been started. */
    method Group(name: string, prefix: string, authHandler: Option<Handler>,
                 headers: Option<map<string, string>>, handler: Option<Handler>)
      returns (g: Fabricator)
      requires Rooted()
      modifies this`endpoints
      ensures fresh(g) && g.Rooted() && g.parent == this && g.ancestors == [this] + ancestors
      ensures g.baseUrl == prefix && g.authHandler == authHandler && g.headers == headers
      ensures g.defaultHandler == handler && g.endpoints == map[] && !g.started
      ensures endpoints == old(endpoints)[name := Child.Group(g)]
    {
      g := new Fabricator(prefix, authHandler, headers, handler, this);
      endpoints := endpoints[name := Child.Group(g)];
    }

    /** `__getattr__`: before start only an HTTP method name is accepted
        (in any case) and yields `register` bound to that method; after
        start the name is looked up in the routing table. */
    method GetAttr(name: string) returns (r: Result<Attribute>)
      requires Rooted()
      ensures !Frozen() ==> (r.Ok? <==> Upper(name) in All())
      ensures !Frozen() && r.Ok? ==> r.value.RegisterShortcut? && Name(r.value.verb) == Upper(name)
      ensures !Frozen() && r.Err? ==> r.error == UsageError(RegistrationHint)
      ensures Frozen() ==> (r.Ok? <==> name in endpoints)
      ensures Frozen() && r.Ok? ==> r.value == Member(endpoints[name])
      ensures Frozen() && r.Err? ==>
                r.error == NotImplementedError("There is no method with the name \"" + name + "\"")
    {
      var isStarted := IsStarted();
      if !isStarted {
        var upper := Upper(name);
        if upper !in All() {
          return Err(UsageError(RegistrationHint));
        }
        return Ok(RegisterShortcut(Parse(upper).value));
      }
      if name !in endpoints {
        return Err(NotImplementedError("There is no method with the name \"" + name + "\""));
      }
      return Ok(Member(endpoints[name]));
    }

    /** `register`: each plain value in `methods` is replaced, in place, by
        the member it names; the first value that names none raises
        NotImplementedError and nothing is registered. Otherwise the path
        gets a leading `/` if it lacks one and the endpoint is entered under
        `name`. There is no check that the tree has not been started. */
    method Register(name: string, path: string, handler: Option<Handler>, methods: array?<MethodArg>,
                    authHandler: Option<Handler>, headers: Option<map<string, string>>,
                    requiredParams: seq<string>)
      returns (r: Outcome)
      requires Rooted()
      modifies this`endpoints, methods
      ensures methods == null ==> r.Fail? && r.error.TypeError? && endpoints == old(endpoints)
      ensures methods != null ==>
                var s := old(methods[..]);
                var k := FirstInvalid(s);
                && methods[..] == Converted(s, k)
                && (k < |s| ==> r == Fail(NotImplementedError("method " + Show(s[k]) + " is not valid"))
                                && endpoints == old(endpoints))
                && (k == |s| ==> r == Pass && Registered(name, NormalizePath(path), handler, Members(s),
                                                         authHandler, headers, requiredParams)
                                 && fresh(endpoints[name].endpoint)
                                 && endpoints == old(endpoints)[name := endpoints[name]])
    {
      if methods == null {
        return Fail(TypeError("'NoneType' object is not iterable"));
      }
      ghost var s := methods[..];
      var i := 0;
      while i < methods.Length
        invariant 0 <= i <= methods.Length
        invariant forall j :: 0 <= j < i ==> ToMember(s[j]).Some?
        invariant methods[..] == Converted(s, i)
        invariant endpoints == old(endpoints)
      {
        var m := methods[i];
        if m.Tag? {
          i := i + 1;
          continue;
        }
        var t := Parse(m.text);
        if t.None? {
          FirstInvalidAt(s, i);
          return Fail(NotImplementedError("method " + Show(m) + " is not valid"));
        }
        methods[i] := Tag(t.value);
        i := i + 1;
      }
      FirstInvalidAt(s, i);
      var p := NormalizePath(path);
      var ms := methods[..];
      assert ms == Converted(s, |s|);
      var e := new Endpoint(this, name, p, handler, Tags(ms), authHandler, headers, requiredParams);
      endpoints := endpoints[name := Route(e)];
      r := Pass;
    }

    /** The routing table holds, under `name`, an endpoint of this node with
        exactly these settings. */
    ghost predicate Registered(name: string, path: string, handler: Option<Handler>,
                               methods: seq<HttpMethod>, authHandler: Option<Handler>,
                               headers: Option<map<string, string>>, requiredParams: seq<string>)
      reads this
    {
      && name in endpoints && endpoints[name].Route?
      && var e := endpoints[name].endpoint;
      && e.parent == this && e.name == name && e.path == path && e.handler == handler
      && e.methods == methods && e.authHandler == authHandler && e.headers == headers
      && e.requiredParams == requiredParams && e.Valid()
    }

    /** Calling the shortcut that `GetAttr` returns before start: the
        partial binds `methods` to a one-element list, but only as a default.
        Without a `methods` keyword the endpoint gets that one method; a
        caller's `methods` keyword (`methodsKw`) replaces it, and the call
        is then `register` with that list. */
    method RegisterShortcutCall(verb: HttpMethod, methodsKw: Option<array?<MethodArg>>, name: string,
                                path: string, handler: Option<Handler>, authHandler: Option<Handler>,
                                headers: Option<map<string, string>>, requiredParams: seq<string>)
      returns (r: Outcome)
      requires Rooted()
      modifies this`endpoints, if methodsKw.Some? && methodsKw.value != null then {methodsKw.value} else {}
      ensures methodsKw.None? ==>
                && r == Pass
                && Registered(name, NormalizePath(path), handler, [verb], authHandler, headers, requiredParams)
                && fresh(endpoints[name].endpoint)
                && endpoints == old(endpoints)[name := endpoints[name]]
      ensures methodsKw.Some? && methodsKw.value == null ==>
                r.Fail? && r.error.TypeError? && endpoints == old(endpoints)
      ensures methodsKw.Some? && methodsKw.value != null ==>
                var methods := methodsKw.value;
                var s := old(methods[..]);
                var k := FirstInvalid(s);
                && methods[..] == Converted(s, k)
                && (k < |s| ==> r == Fail(NotImplementedError("method " + Show(s[k]) + " is not valid"))
                                && endpoints == old(endpoints))
                && (k == |s| ==> r == Pass && Registered(name, NormalizePath(path), handler, Members(s),
                                                         authHandler, headers, requiredParams)
                                 && fresh(endpoints[name].endpoint)
                                 && endpoints == old(endpoints)[name := endpoints[name]])
    {
      if methodsKw.Some? {
        r := Register(name, path, handler, methodsKw.value, authHandler, headers, requiredParams);
        return;
      }
      var methods := new MethodArg[1];
      methods[0] := Tag(verb);
      assert FirstInvalid(methods[..]) == 1 by { assert methods[..][1..] == []; }
      r := Register(name, path, handler, methods, authHandler, headers, requiredParams);
      assert Members([Tag(verb)]) == [verb];
    }
  }

  /** Every node above a rooted node is rooted, and records the rest of the
      chain as its own parents. */
  lemma {:induction false} AncestorsRooted(n: Fabricator)
    requires n.Rooted()
    ensures forall i :: 0 <= i < |n.ancestors| ==>
              n.ancestors[i].Rooted() && n.ancestors[i].ancestors == n.ancestors[i + 1..]
    ensures n !in n.ancestors
    decreases |n.ancestors|
  {
    if n.parent != null {
      var p := n.parent;
      AncestorsRooted(p);
      forall i | 0 <= i < |n.ancestors|
        ensures n.ancestors[i].Rooted() && n.ancestors[i].ancestors == n.ancestors[i + 1..]
      {
        if i > 0 { assert n.ancestors[i] == p.ancestors[i - 1]; }
      }
    }
  }

  /** A node is frozen exactly when some node on its chain to the root,
      itself included, has its flag set. */
  lemma {:induction false} FrozenIff(n: Fabricator)
    requires n.Rooted()
    ensures n.Frozen() <==> (n.started || exists i :: 0 <= i < |n.ancestors| && n.ancestors[i].started)
    decreases |n.ancestors|
  {
    if n.parent != null {
      FrozenIff(n.parent);
      if exists i :: 0 <= i < |n.ancestors| && n.ancestors[i].started {
        var i :| 0 <= i < |n.ancestors| && n.ancestors[i].started;
        if i > 0 { assert n.parent.ancestors[i - 1].started; }
      }
      if n.parent.started {
        assert n.ancestors[0].started;
      }
      if exists i :: 0 <= i < |n.parent.ancestors| && n.parent.ancestors[i].started {
        var i :| 0 <= i < |n.parent.ancestors| && n.parent.ancestors[i].started;
        assert n.ancestors[i + 1].started;
      }
    }
  }

  /** A started node freezes every node that has it on its chain. */
  lemma FrozenFromChain(n: Fabricator, a: Fabricator)
    requires n.Rooted() && a in n.ancestors && a.started
    ensures n.Frozen()
  {
    FrozenIff(n);
  }

  /** A method value as a member, if it names one: members stand for
      themselves, plain values go through lookup by value. */
  function ToMember(a: MethodArg): Option<HttpMethod> {
    match a
    case Tag(t) => Some(t)
    case Str(v) => Parse(v)
  }

  /** The index of the first value that names no member, or the length. */
  function FirstInvalid(s: seq<MethodArg>): (k: nat)
    ensures k <= |s|
    ensures forall j :: 0 <= j < k ==> ToMember(s[j]).Some?
    ensures k < |s| ==> ToMember(s[k]).None?
    decreases |s|
  {
    if s == [] then 0
    else if ToMember(s[0]).None? then 0
    else
      var k := FirstInvalid(s[1..]);
      assert forall j :: 1 <= j < |s| ==> s[j] == s[1..][j - 1];
      1 + k
  }

  /** The first invalid index is determined by the values before it. */
  lemma {:induction false} FirstInvalidAt(s: seq<MethodArg>, i: nat)
    requires i <= |s|
    requires forall j :: 0 <= j < i ==> ToMember(s[j]).Some?
    requires i < |s| ==> ToMember(s[i]).None?
    ensures FirstInvalid(s) == i
  {
    var k := FirstInvalid(s);
  }

  /** The method list after its first k values have been replaced by
      their members. */
  function Converted(s: seq<MethodArg>, k: nat): (c: seq<MethodArg>)
    requires k <= |s|
    requires forall j :: 0 <= j < k ==> ToMember(s[j]).Some?
    ensures |c| == |s|
    ensures forall j :: 0 <= j < |s| ==> c[j] == (if j < k then Tag(ToMember(s[j]).value) else s[j])
  {
    seq(|s|, j requires 0 <= j < |s| => if j < k then Tag(ToMember(s[j]).value) else s[j])
  }

  /** The members a fully valid method list names, in order. */
  function Members(s: seq<MethodArg>): (ms: seq<HttpMethod>)
    requires forall j :: 0 <= j < |s| ==> ToMember(s[j]).Some?
    ensures |ms| == |s|
    ensures forall j :: 0 <= j < |s| ==> Eq(ms[j], s[j])
  {
    seq(|s|, j requires 0 <= j < |s| => ToMember(s[j]).value)
  }

  /** The members held by a list of tags. */
  function Tags(s: seq<MethodArg>): seq<HttpMethod>
    requires forall j :: 0 <= j < |s| ==> s[j].Tag?
  {
    seq(|s|, j requires 0 <= j < |s| => s[j].tag)
  }

  /** The path as registered: a leading `/` is added when missing. */
  function NormalizePath(path: string): (p: string)
    ensures |p| > 0 && p[0] == '/'
    ensures |path| > 0 && path[0] == '/' ==> p == path
    ensures p == path || p == "/" + path
  {
    if |path| > 0 && path[0] == '/' then path else "/" + path
  }

  /** `x` and `/x` register the same path, and normalizing twice changes
      nothing more. */
  lemma NormalizePathLeadingSlash(path: string)
    ensures NormalizePath("/" + path) == "/" + path
    ensures NormalizePath(path) == NormalizePath("/" + path) || (|path| > 0 && path[0] == '/')
    ensures NormalizePath(NormalizePath(path)) == NormalizePath(path)
  {
  }

  class Endpoint {
    const parent: Fabricator
    const name: string
    const path: string
    const handler: Option<Handler>
    const methods: seq<HttpMethod>
    const authHandler: Option<Handler>
    const headers: Option<map<string, string>>
    const requiredParams: seq<string>

    ghost predicate Valid() {
      parent.Rooted()
    }

    constructor (parent: Fabricator, name: string, path: string, handler: Option<Handler>,
                 methods: seq<HttpMethod>, authHandler: Option<Handler>,
                 headers: Option<map<string, string>>, requiredParams: seq<string>)
      requires parent.Rooted()
      ensures Valid()
      ensures this.parent == parent && this.name == name && this.path == path
      ensures this.handler == handler && this.methods == methods
      ensures this.authHandler == authHandler && this.headers == headers
      ensures this.requiredParams == requiredParams
    {
      this.parent := parent;
      this.name := name;
      this.path := path;
      this.handler := handler;
      this.methods := methods;
      this.authHandler := authHandler;
      this.headers := headers;
      this.requiredParams := requiredParams;
    }
  
    /** `__getattr__` on an endpoint: the name must pass the method check;
        it then yields the dispatcher bound to that name. */
    function GetAttr(item: string): (r: Result<MethodArg>)
      ensures r.Ok? <==> (methods == [] ||
                          (Parse(Upper(item)).Some? && Parse(Upper(item)).value in methods))
      ensures r.Ok? ==> r.value == Str(item)
      ensures r.Err? ==> r.error.NotImplementedError?
    {
      match CheckMethod(methods, path, Str(item))
      case Fail(e) => Err(e)
      case Pass => Ok(Str(item))
    }

    /** The header map a request carries: the endpoint's own, else the
        nearest ancestor's, else an empty map. */
    ghost function ResolvedHeaders(): map<string, string>
      requires Valid()
      reads parent, set a | a in parent.ancestors
    {
      if headers.Some? then headers.value
      else match FirstSome(HeadersAlong(parent))
        case Some(h) => h
        case None => map[]
    }

    /** The auth handler: the endpoint's own, else the nearest ancestor's,
        else the identity. */
    ghost function ResolvedAuth(): Handler
      requires Valid()
      reads parent, set a | a in parent.ancestors
    {
      if authHandler.Some? then authHandler.value
      else match FirstSome(AuthAlong(parent))
        case Some(h) => h
        case None => Noop
    }

    /** The response handler: the endpoint's own, else the nearest
        ancestor's default, else the identity. */
    ghost function ResolvedHandler(): Handler
      requires Valid()
      reads parent, set a | a in parent.ancestors
    {
      if handler.Some? then handler.value
      else match FirstSome(HandlersAlong(parent))
        case Some(h) => h
        case None => Noop
    }

    /** `_get_response_handler`. */
    method GetResponseHandler() returns (h: Handler)
      requires Valid()
      ensures h == ResolvedHandler()
    {
      if handler.Some? {
        return handler.value;
      }
      var current: Fabricator? := parent;
      var found: Option<Handler> := None;
      while found.None? && current != null
        invariant current != null ==> current.Rooted()
        invariant FirstSome(HandlersAlong(parent)) ==
                    if found.Some? then found else FirstSome(HandlersAlong(current))
        decreases if current == null then 0 else |current.ancestors| + 1
      {
        found := current.defaultHandler;
        current := current.parent;
      }
      h := if found.Some? then found.value else Noop;
    }

    /** `_get_auth_handler` (without the AuthBase wrapping). */
    method GetAuthHandler() returns (h: Handler)
      requires Valid()
      ensures h == ResolvedAuth()
    {
      if authHandler.Some? {
        return authHandler.value;
      }
      var current: Fabricator? := parent;
      var found: Option<Handler> := None;
      while found.None? && current != null
        invariant current != null ==> current.Rooted()
        invariant FirstSome(AuthAlong(parent)) ==
                    if found.Some? then found else FirstSome(AuthAlong(current))
        decreases if current == null then 0 else |current.ancestors| + 1
      {
        found := current.authHandler;
        current := current.parent;
      }
      h := if found.Some? then found.value else Noop;
    }

    /** `_get_headers`. */
    method GetHeaders() returns (h: map<string, string>)
      requires Valid()
      ensures h == ResolvedHeaders()
    {
      if headers.Some? {
        return headers.value;
      }
      var current: Fabricator? := parent;
      var found: Option<map<string, string>> := None;
      while found.None? && current != null
        invariant current != null ==> current.Rooted()
        invariant FirstSome(HeadersAlong(parent)) ==
                    if found.Some? then found else FirstSome(HeadersAlong(current))
        decreases if current == null then 0 else |current.ancestors| + 1
      {
        found := current.headers;
        current := current.parent;
      }
      h := if found.Some? then found.value else map[];
    }

    /** `_construct_url`: substitute the bound values into the path, each
        token replaced everywhere by the value's text, then put the base URL
        fragments of the ancestors in front, root first. */
    method ConstructUrl<V>(urlParams: seq<(string, V)>, str: V -> string) returns (url: string)
      requires Valid()
      ensures url == BaseUrl(parent) + Substitute(path, Stringify(urlParams, str))
    {
      var p := path;
      var i := 0;
      while i < |urlParams|
        invariant 0 <= i <= |urlParams|
        invariant Substitute(path, Stringify(urlParams, str)) == Substitute(p, Stringify(urlParams[i..], str))
      {
        var (k, v) := urlParams[i];
        assert Stringify(urlParams[i..], str) == [(k, str(v))] + Stringify(urlParams[i + 1..], str);
        p := ReplaceAll(p, k, str(v));
        i := i + 1;
      }
      var current: Fabricator? := parent;
      var base := "";
      while current != null
        invariant current != null ==> current.Rooted()
        invariant BaseUrl(parent) == BaseUrl(current) + base
        decreases if current == null then 0 else |current.ancestors| + 1
      {
        base := current.baseUrl + base;
        current := current.parent;
      }
      url := base + p;
    }

    /** What `_make_request` hands to the transport, or the error it raises
        first: method check, required parameters in declaration order, path
        tokens in order of appearance, then the body-versus-query split. */
    ghost function Pipeline<V>(m: MethodArg, kwargs: map<string, V>, str: V -> string): Result<Request<V>>
      requires Valid()
      reads parent, set a | a in parent.ancestors
    {
      match CheckMethod(methods, path, m)
      case Fail(e) => Err(e)
      case Pass =>
        match FirstMissing(requiredParams, kwargs.Keys)
        case Some(p) => Err(ParamValidationError(p))
        case None =>
          match BindTokens(Tokens(path), kwargs)
          case Err(e) => Err(e)
          case Ok(b) =>
            Ok(Request(Verb(m), BaseUrl(parent) + Substitute(path, Stringify(b.urlParams, str)),
                       ChoosePayload(Verb(m), b.leftover), ResolvedAuth(), ResolvedHeaders(),
                       ResolvedHandler()))
    }

    /** The required-parameter loop of `_make_request`: the first name, in
        declaration order, that the call does not supply. */
    method MissingRequired<V>(kwargs: map<string, V>) returns (missing: Option<string>)
      ensures missing == FirstMissing(requiredParams, kwargs.Keys)
    {
      var i := 0;
      while i < |requiredParams|
        invariant 0 <= i <= |requiredParams|
        invariant forall j :: 0 <= j < i ==> requiredParams[j] in kwargs
      {
        if requiredParams[i] !in kwargs {
          return Some(requiredParams[i]);
        }
        i := i + 1;
      }
      return None;
    }

    /** The path-token loop of `_make_request`: record each token's value
        and delete its key from the arguments. */
    method BindPathParams<V>(kwargs: map<string, V>) returns (r: Result<Bound<V>>)
      ensures r == BindTokens(Tokens(path), kwargs)
    {
      var tokens := Tokens(path);
      var urlParams: seq<(string, V)> := [];
      var kw := kwargs;
      var t := 0;
      PrependNothing(BindTokens(tokens, kw));
      while t < |tokens|
        invariant 0 <= t <= |tokens|
        invariant BindTokens(tokens, kwargs) == PrependAll(urlParams, BindTokens(tokens[t..], kw))
      {
        var key := Key(tokens[t]);
        assert tokens[t..][0] == tokens[t];
        if key !in kw {
          return Err(ParamValidationError(tokens[t]));
        }
        BindStep(urlParams, tokens[t..], kw);
        assert tokens[t..][1..] == tokens[t + 1..];
        urlParams := urlParams + [(tokens[t], kw[key])];
        kw := kw - {key};
        t := t + 1;
      }
      assert tokens[t..] == [];
      assert urlParams + [] == urlParams;
      return Ok(Bound(urlParams, kw));
    }

    /** `_make_request` up to the transport call. */
    method MakeRequest<V>(m: MethodArg, kwargs: map<string, V>, str: V -> string) returns (r: Result<Request<V>>)
      requires Valid()
      ensures r == Pipeline(m, kwargs, str)
    {
      var check := CheckMethod(methods, path, m);
      if check.Fail? {
        return Err(check.error);
      }
      var missing := MissingRequired(kwargs);
      if missing.Some? {
        return Err(ParamValidationError(missing.value));
      }
      var bound := BindPathParams(kwargs);
      if bound.Err? {
        return Err(bound.error);
      }
      var req := Assemble(m, bound.value, str);
      return Ok(req);
    }

    /** The tail of `_make_request` once the arguments are bound: the body
        or query, the auth handler, the headers, the URL and the handler. */
    method Assemble<V>(m: MethodArg, b: Bound<V>, str: V -> string) returns (req: Request<V>)
      requires Valid()
      ensures req == Request(Verb(m), BaseUrl(parent) + Substitute(path, Stringify(b.urlParams, str)),
                             ChoosePayload(Verb(m), b.leftover), ResolvedAuth(), ResolvedHeaders(),
                             ResolvedHandler())
    {
      var verb := Verb(m);
      var payload := ChoosePayload(verb, b.leftover);
      var auth := GetAuthHandler();
      var hdrs := GetHeaders();
      var url := ConstructUrl(b.urlParams, str);
      var h := GetResponseHandler();
      req := Request(verb, url, payload, auth, hdrs, h);
    }

    /** `__call__`: dispatch with the first declared method. A `self`
        keyword clashes with the bound instance, an endpoint without methods
        raises IndexError, and a `method` keyword clashes with the method
        `__call__` passes itself. */
    method Call<V>(kwargs: map<string, V>, str: V -> string) returns (r: Result<Request<V>>)
      requires Valid()
      ensures "self" in kwargs ==> r == Err(TypeError(CallSelfClash))
      ensures "self" !in kwargs && methods == [] ==> r == Err(IndexError("list index out of range"))
      ensures "self" !in kwargs && methods != [] && "method" in kwargs ==>
                r == Err(TypeError(MethodKeywordClash))
      ensures "self" !in kwargs && methods != [] && "method" !in kwargs ==>
                r == Pipeline(Tag(methods[0]), kwargs, str)
      ensures r.Err? ==> !r.error.NotImplementedError?
      ensures r.Ok? ==> methods != [] && r.value.verb == Name(methods[0])
    {
      if "self" in kwargs {
        return Err(TypeError(CallSelfClash));
      }
      if |methods| == 0 {
        return Err(IndexError("list index out of range"));
      }
      if "method" in kwargs {
        return Err(TypeError(MethodKeywordClash));
      }
      r := MakeRequest(Tag(methods[0]), kwargs, str);
      if BindTokens(Tokens(path), kwargs).Err? {
        BindTokensErr(Tokens(path), kwargs);
      }
    }

    /** Calling the partial that `__getattr__` returns for `item`: its
        `method=item` is only a default, so a caller's `method` keyword
        takes its place (and is no longer an argument); a `self` keyword
        clashes with the bound instance. `asMethod` reads a keyword value
        as a method argument. */
    method CallBound<V>(item: string, kwargs: map<string, V>, str: V -> string, asMethod: V -> MethodArg)
      returns (r: Result<Request<V>>)
      requires Valid()
      ensures "self" in kwargs ==> r == Err(TypeError(BoundSelfClash))
      ensures "self" !in kwargs && "method" !in kwargs ==> r == Pipeline(Str(item), kwargs, str)
      ensures "self" !in kwargs && "method" in kwargs ==>
                r == Pipeline(asMethod(kwargs["method"]), kwargs - {"method"}, str)
      ensures r.Ok? ==> "method" !in kwargs ==> r.value.verb == Upper(item)
    {
      if "self" in kwargs {
        return Err(TypeError(BoundSelfClash));
      }
      if "method" in kwargs {
        r := MakeRequest(asMethod(kwargs["method"]), kwargs - {"method"}, str);
      } else {
        r := MakeRequest(Str(item), kwargs, str);
      }
    }
  }

  /** The TypeError texts of the three keyword clashes. */
  const CallSelfClash := "FabricatorEndpoint.__call__() got multiple values for argument 'self'"
  const MethodKeywordClash := "FabricatorEndpoint._make_request() got multiple values for keyword argument 'method'"
  const BoundSelfClash := "FabricatorEndpoint._make_request() got multiple values for argument 'self'"

  /** Through the partial, a path token named `method` can never be bound:
      the keyword that would supply it is taken as the method, so every
      such call fails. */
  lemma MethodTokenUnbound<V>(e: Endpoint, m: MethodArg, kwargs: map<string, V>, str: V -> string)
    requires e.Valid() && ":method" in Tokens(e.path)
    ensures e.Pipeline(m, kwargs - {"method"}, str).Err?
  {
    var ts := Tokens(e.path);
    var i :| 0 <= i < |ts| && ts[i] == ":method";
    assert Key(ts[i]) == "method";
    PipelineOkIff(e, m, kwargs - {"method"}, str);
  }

  /** The request handed to the transport: method, absolute URL, body or
      query, auth handler, headers; and the handler the response goes to. */
  datatype Request<V> = Request(verb: string, url: string, payload: Payload<V>, auth: Handler,
                                headers: map<string, string>, handler: Handler)

  /** `str(v)` applied to every bound value. */
  function Stringify<V>(ps: seq<(string, V)>, str: V -> string): (r: seq<(string, string)>)
    ensures |r| == |ps|
    ensures forall i :: 0 <= i < |ps| ==> r[i] == (ps[i].0, str(ps[i].1))
  {
    seq(|ps|, i requires 0 <= i < |ps| => (ps[i].0, str(ps[i].1)))
  }

  /** The node and its ancestors, nearest first. */
  ghost function Chain(n: Fabricator): seq<Fabricator> {
    [n] + n.ancestors
  }

  /** The header maps met walking up from n. */
  ghost function HeadersAlong(n: Fabricator?): seq<Option<map<string, string>>>
    requires n != null ==> n.Rooted()
    reads if n == null then {} else {n} + set a | a in n.ancestors
    decreases if n == null then 0 else |n.ancestors| + 1
  {
    if n == null then [] else [n.headers] + HeadersAlong(n.parent)
  }

  /** The auth handlers met walking up from n. */
  ghost function AuthAlong(n: Fabricator?): seq<Option<Handler>>
    requires n != null ==> n.Rooted()
    reads if n == null then {} else {n} + set a | a in n.ancestors
    decreases if n == null then 0 else |n.ancestors| + 1
  {
    if n == null then [] else [n.authHandler] + AuthAlong(n.parent)
  }

  /** The default response handlers met walking up from n. */
  ghost function HandlersAlong(n: Fabricator?): seq<Option<Handler>>
    requires n != null ==> n.Rooted()
    reads if n == null then {} else {n} + set a | a in n.ancestors
    decreases if n == null then 0 else |n.ancestors| + 1
  {
    if n == null then [] else [n.defaultHandler] + HandlersAlong(n.parent)
  }

  /** The cumulative base URL: the fragments from the root down to n. */
  ghost function BaseUrl(n: Fabricator?): string
    requires n != null ==> n.Rooted()
    decreases if n == null then 0 else |n.ancestors| + 1
  {
    if n == null then "" else BaseUrl(n.parent) + n.baseUrl
  }

  /** The settings met walking up from n are those of the nodes of its
      chain, position by position. */
  lemma {:induction false} AlongIndex(n: Fabricator)
    requires n.Rooted()
    ensures |HeadersAlong(n)| == |AuthAlong(n)| == |HandlersAlong(n)| == |Chain(n)|
    ensures forall i :: 0 <= i < |Chain(n)| ==>
              && HeadersAlong(n)[i] == Chain(n)[i].headers
              && AuthAlong(n)[i] == Chain(n)[i].authHandler
              && HandlersAlong(n)[i] == Chain(n)[i].defaultHandler
    decreases |n.ancestors|
  {
    if n.parent != null {
      AlongIndex(n.parent);
      assert Chain(n) == [n] + Chain(n.parent);
    }
  }

  /** Headers resolve to the endpoint's own map, else to the map of the
      nearest ancestor that has one, else to the empty map. */
  lemma HeadersResolution(e: Endpoint)
    requires e.Valid()
    ensures e.headers.Some? ==> e.ResolvedHeaders() == e.headers.value
    ensures e.headers.None? ==>
              forall i :: 0 <= i < |Chain(e.parent)| && Chain(e.parent)[i].headers.Some? &&
                          (forall j :: 0 <= j < i ==> Chain(e.parent)[j].headers.None?) ==>
                            e.ResolvedHeaders() == Chain(e.parent)[i].headers.value
    ensures e.headers.None? && (forall i :: 0 <= i < |Chain(e.parent)| ==> Chain(e.parent)[i].headers.None?) ==>
              e.ResolvedHeaders() == map[]
  {
    AlongIndex(e.parent);
    var s := HeadersAlong(e.parent);
    forall i | 0 <= i < |s| && s[i].Some? && (forall j :: 0 <= j < i ==> s[j].None?)
      ensures FirstSome(s) == s[i]
    {
      FirstSomeNearest(s, i);
    }
  }

  /** The auth handler resolves to the endpoint's own, else to that of the
      nearest ancestor that has one, else to the identity. */
  lemma AuthResolution(e: Endpoint)
    requires e.Valid()
    ensures e.authHandler.Some? ==> e.ResolvedAuth() == e.authHandler.value
    ensures e.authHandler.None? ==>
              forall i :: 0 <= i < |Chain(e.parent)| && Chain(e.parent)[i].authHandler.Some? &&
                          (forall j :: 0 <= j < i ==> Chain(e.parent)[j].authHandler.None?) ==>
                            e.ResolvedAuth() == Chain(e.parent)[i].authHandler.value
    ensures e.authHandler.None? && (forall i :: 0 <= i < |Chain(e.parent)| ==> Chain(e.parent)[i].authHandler.None?) ==>
              e.ResolvedAuth() == Noop
  {
    AlongIndex(e.parent);
    var s := AuthAlong(e.parent);
    forall i | 0 <= i < |s| && s[i].Some? && (forall j :: 0 <= j < i ==> s[j].None?)
      ensures FirstSome(s) == s[i]
    {
      FirstSomeNearest(s, i);
    }
  }

  /** The response handler resolves to the endpoint's own, else to the
      default of the nearest ancestor that has one, else to the identity. */
  lemma HandlerResolution(e: Endpoint)
    requires e.Valid()
    ensures e.handler.Some? ==> e.ResolvedHandler() == e.handler.value
    ensures e.handler.None? ==>
              forall i :: 0 <= i < |Chain(e.parent)| && Chain(e.parent)[i].defaultHandler.Some? &&
                          (forall j :: 0 <= j < i ==> Chain(e.parent)[j].defaultHandler.None?) ==>
                            e.ResolvedHandler() == Chain(e.parent)[i].defaultHandler.value
    ensures e.handler.None? && (forall i :: 0 <= i < |Chain(e.parent)| ==> Chain(e.parent)[i].defaultHandler.None?) ==>
              e.ResolvedHandler() == Noop
  {
    AlongIndex(e.parent);
    var s := HandlersAlong(e.parent);
    forall i | 0 <= i < |s| && s[i].Some? && (forall j :: 0 <= j < i ==> s[j].None?)
      ensures FirstSome(s) == s[i]
    {
      FirstSomeNearest(s, i);
    }
  }

  /** Concatenation of a list of fragments, front to back. */
  function Join(frags: seq<string>): string
    decreases |frags|
  {
    if frags == [] then "" else frags[0] + Join(frags[1..])
  }

  lemma {:induction false} JoinSnoc(frags: seq<string>, x: string)
    ensures Join(frags + [x]) == Join(frags) + x
    decreases |frags|
  {
    if frags == [] {
      assert [x][1..] == [];
    } else {
      assert (frags + [x])[1..] == frags[1..] + [x];
      JoinSnoc(frags[1..], x);
    }
  }

  /** Join is `''.join`, the separator-free case of JoinWith. */
  lemma {:induction false} JoinIsJoinWith(frags: seq<string>)
    ensures Join(frags) == JoinWith("", frags)
    decreases |frags|
  {
    if |frags| == 1 {
      assert frags[1..] == [];
    } else if |frags| > 1 {
      JoinIsJoinWith(frags[1..]);
    }
  }

  /** The base URL fragments of a chain, root first. */
  ghost function RootToLeaf(n: Fabricator): (frags: seq<string>)
    ensures |frags| == |Chain(n)|
  {
    var c := Chain(n);
    seq(|c|, k requires 0 <= k < |c| => c[|c| - 1 - k].baseUrl)
  }

  /** The cumulative base URL is the fragments of the chain joined from
      the root down to the node. */
  lemma {:induction false} BaseUrlRootToLeaf(n: Fabricator)
    requires n.Rooted()
    ensures BaseUrl(n) == Join(RootToLeaf(n))
    decreases |n.ancestors|
  {
    if n.parent == null {
      assert RootToLeaf(n) == [n.baseUrl];
      assert [n.baseUrl][1..] == [];
    } else {
      BaseUrlRootToLeaf(n.parent);
      assert Chain(n) == [n] + Chain(n.parent);
      assert RootToLeaf(n) == RootToLeaf(n.parent) + [n.baseUrl];
      JoinSnoc(RootToLeaf(n.parent), n.baseUrl);
    }
  }

  /** A call gets through to the transport exactly when the method is
      accepted, every required parameter is supplied, every path token's
      key is supplied and no two tokens share a key. */
  lemma PipelineOkIff<V>(e: Endpoint, m: MethodArg, kwargs: map<string, V>, str: V -> string)
    requires e.Valid()
    ensures e.Pipeline(m, kwargs, str).Ok? <==>
              && CheckMethod(e.methods, e.path, m).Pass?
              && (forall i :: 0 <= i < |e.requiredParams| ==> e.requiredParams[i] in kwargs)
              && (forall i :: 0 <= i < |Tokens(e.path)| ==> Key(Tokens(e.path)[i]) in kwargs)
              && DistinctKeys(Tokens(e.path))
  {
    BindTokensOkIff(Tokens(e.path), kwargs);
  }

  /** What reaches the transport: the verb, the URL with the bound values
      substituted, and as body or query exactly the arguments that no path
      token consumed. */
  lemma PipelineRequest<V>(e: Endpoint, m: MethodArg, kwargs: map<string, V>, str: V -> string)
    requires e.Valid()
    requires e.Pipeline(m, kwargs, str).Ok?
    ensures var req := e.Pipeline(m, kwargs, str).value;
            var tokens := Tokens(e.path);
            var rest := kwargs - KeySet(tokens);
            && req.verb == Verb(m)
            && (forall i :: 0 <= i < |tokens| ==> Key(tokens[i]) in kwargs)
            && req.url == BaseUrl(e.parent) + Substitute(e.path,
                 seq(|tokens|, i requires 0 <= i < |tokens| && Key(tokens[i]) in kwargs =>
                                 (tokens[i], str(kwargs[Key(tokens[i])]))))
            && (req.payload.NoPayload? <==> rest == map[])
            && (req.payload.Json? <==> rest != map[] && Verb(m) in ["POST", "PUT", "PATCH"])
            && (req.payload.Json? ==> req.payload.body == rest)
            && (req.payload.Params? ==> req.payload.query == rest)
  {
    var tokens := Tokens(e.path);
    BindTokensContents(tokens, kwargs);
    var b := BindTokens(tokens, kwargs).value;
    assert Stringify(b.urlParams, str)
        == seq(|tokens|, i requires 0 <= i < |tokens| && Key(tokens[i]) in kwargs =>
                             (tokens[i], str(kwargs[Key(tokens[i])])));
  }
}
