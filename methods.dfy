/** The closed set of HTTP methods (`HTTPMethods`), its cross-form equality
    and the per-endpoint method check (`_check_method`). */
module Methods {
  import opened Errors
  import opened Strings

  datatype HttpMethod = GET | POST | PUT | PATCH | DELETE | OPTIONS | HEAD | CONNECT | TRACE

  /** The enum member's value: its name in upper case. */
  function Name(t: HttpMethod): string {
    match t
    case GET => "GET"
    case POST => "POST"
    case PUT => "PUT"
    case PATCH => "PATCH"
    case DELETE => "DELETE"
    case OPTIONS => "OPTIONS"
    case HEAD => "HEAD"
    case CONNECT => "CONNECT"
    case TRACE => "TRACE"
  }

  /** `HTTPMethods.all()`: the nine member names, in the sorted order
      `dir()` lists them. */
  function All(): (r: seq<string>)
    ensures |r| == 9
    ensures forall t: HttpMethod :: Name(t) in r
    ensures forall i, j :: 0 <= i < j < |r| ==> r[i] != r[j]
  {
    ["CONNECT", "DELETE", "GET", "HEAD", "OPTIONS", "PATCH", "POST", "PUT", "TRACE"]
  }

  /** `HTTPMethods(s)`: lookup by value, which is exact (case-sensitive). */
  function Parse(s: string): (r: Option<HttpMethod>)
    ensures r.Some? <==> s in All()
    ensures r.Some? ==> Name(r.value) == s
  {
    if s == "GET" then Some(GET)
    else if s == "POST" then Some(POST)
    else if s == "PUT" then Some(PUT)
    else if s == "PATCH" then Some(PATCH)
    else if s == "DELETE" then Some(DELETE)
    else if s == "OPTIONS" then Some(OPTIONS)
    else if s == "HEAD" then Some(HEAD)
    else if s == "CONNECT" then Some(CONNECT)
    else if s == "TRACE" then Some(TRACE)
    else None
  }

  /** Lookup by value finds every member from its own value. */
  lemma ParseName(t: HttpMethod)
    ensures Parse(Name(t)) == Some(t)
  {
  }

  /** A method as a caller may spell it: an enum member or a plain value. */
  datatype MethodArg = Tag(tag: HttpMethod) | Str(text: string)

  /** `HTTPMethods.__eq__`: a member equals itself and its exact value. */
  predicate Eq(t: HttpMethod, other: MethodArg) {
    match other
    case Tag(u) => t == u
    case Str(s) => Name(t) == s
  }

  /** The two forms of equality agree: a plain value equals a member
      exactly when lookup by that value yields the member. */
  lemma EqIsParse(t: HttpMethod, other: MethodArg)
    ensures Eq(t, other) <==> (match other
                               case Tag(u) => u == t
                               case Str(s) => Parse(s) == Some(t))
  {
    if other.Str? && Eq(t, other) { ParseName(t); }
  }

  /** `m in methods` on a list of members, which compares with Eq. */
  predicate MethodIn(m: MethodArg, methods: seq<HttpMethod>) {
    exists i :: 0 <= i < |methods| && Eq(methods[i], m)
  }

  /** The method string handed to the transport: a member's value, or a
      plain value upper-cased. */
  function Verb(m: MethodArg): string {
    match m
    case Tag(t) => Name(t)
    case Str(s) => Upper(s)
  }

  /** The text `format` gives a method in an error message. */
  function Show(m: MethodArg): string {
    match m
    case Tag(t) => "HTTPMethods." + Name(t)
    case Str(s) => s
  }

  /** A plain value is upper-cased before it is compared. */
  function Normalize(m: MethodArg): MethodArg {
    match m
    case Tag(t) => Tag(t)
    case Str(s) => Str(Upper(s))
  }

  /** `_check_method`: an endpoint with no declared methods accepts any
      method; otherwise the (upper-cased) method must be one it declares. */
  function CheckMethod(methods: seq<HttpMethod>, path: string, m: MethodArg): (r: Outcome)
    ensures m.Tag? ==> (r.Pass? <==> methods == [] || m.tag in methods)
    ensures m.Str? ==> (r.Pass? <==>
                          (methods == [] ||
                           (Parse(Upper(m.text)).Some? && Parse(Upper(m.text)).value in methods)))
    ensures r.Fail? ==> r.error == NotImplementedError(
                          Show(Normalize(m)) + " is not a valid method for the " + path + " route")
  {
    var n := Normalize(m);
    MethodInIff(n, methods);
    if methods != [] && !MethodIn(n, methods) then
      Fail(NotImplementedError(Show(n) + " is not a valid method for the " + path + " route"))
    else
      Pass
  }

  /** Membership by Eq: a member is in the list when it is listed, a plain
      value when lookup by that value yields a listed member. */
  lemma MethodInIff(m: MethodArg, methods: seq<HttpMethod>)
    ensures m.Tag? ==> (MethodIn(m, methods) <==> m.tag in methods)
    ensures m.Str? ==> (MethodIn(m, methods) <==> Parse(m.text).Some? && Parse(m.text).value in methods)
  {
    if MethodIn(m, methods) {
      var i :| 0 <= i < |methods| && Eq(methods[i], m);
      EqIsParse(methods[i], m);
    }
    if m.Str? && Parse(m.text).Some? && Parse(m.text).value in methods {
      var i :| 0 <= i < |methods| && methods[i] == Parse(m.text).value;
      assert Eq(methods[i], m);
    }
    if m.Tag? && m.tag in methods {
      var i :| 0 <= i < |methods| && methods[i] == m.tag;
      assert Eq(methods[i], m);
    }
  }

  /** The method check ignores case: a value and its upper-cased form
      are accepted or refused alike. */
  lemma CheckMethodIgnoresCase(methods: seq<HttpMethod>, path: string, s: string)
    ensures CheckMethod(methods, path, Str(s)) == CheckMethod(methods, path, Str(Upper(s)))
  {
    UpperIdempotent(s);
  }
}
