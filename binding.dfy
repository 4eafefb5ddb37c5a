/** The pure steps of the request pipeline: the required-parameter check,
    the binding of path tokens to keyword arguments, and the choice between
    a request body and query parameters for what is left. */
module Binding {
  import opened Errors
  import opened Methods

  /** The first name of `required`, in declaration order, that is not a
      key of the call's keyword arguments. */
  function FirstMissing(required: seq<string>, keys: set<string>): (r: Option<string>)
    ensures r.None? <==> forall i :: 0 <= i < |required| ==> required[i] in keys
    ensures r.Some? ==> exists i :: 0 <= i < |required| && required[i] == r.value
                                    && r.value !in keys
                                    && forall j :: 0 <= j < i ==> required[j] in keys
    decreases |required|
  {
    if required == [] then None
    else if required[0] !in keys then Some(required[0])
    else
      var r := FirstMissing(required[1..], keys);
      assert forall i :: 1 <= i < |required| ==> required[i] == required[1..][i - 1];
      assert r.Some? ==> exists i :: 0 <= i < |required| && required[i] == r.value
                                    && r.value !in keys
                                    && forall j :: 0 <= j < i ==> required[j] in keys by {
        if r.Some? {
          var i :| 0 <= i < |required[1..]| && required[1..][i] == r.value
                   && r.value !in keys
                   && forall j :: 0 <= j < i ==> required[1..][j] in keys;
          assert forall j :: 0 <= j < i + 1 ==> required[j] in keys by {
            forall j | 0 <= j < i + 1 ensures required[j] in keys {
              if j > 0 { assert required[j] == required[1..][j - 1]; }
            }
          }
        }
      }
      r
  }

  /** The keyword a token binds: the token without its first character
      (Python's `m[1:]`). */
  function Key(t: string): string {
    if t == [] then [] else t[1..]
  }

  /** What a successful binding produces: the bound (token, value) pairs in
      order of appearance and the keyword arguments that are left. */
  datatype Bound<V> = Bound(urlParams: seq<(string, V)>, leftover: map<string, V>)

  /** The path-token loop: each token's key must be present, its value is
      recorded and the key is deleted, so a token seen twice fails on its
      second occurrence. */
  function BindTokens<V>(tokens: seq<string>, kwargs: map<string, V>): Result<Bound<V>>
    decreases |tokens|
  {
    if tokens == [] then Ok(Bound([], kwargs))
    else
      var k := Key(tokens[0]);
      if k !in kwargs then Err(ParamValidationError(tokens[0]))
      else Prepend((tokens[0], kwargs[k]), BindTokens(tokens[1..], kwargs - {k}))
  }

  /** Puts one more bound pair in front of a successful binding. */
  function Prepend<V>(p: (string, V), r: Result<Bound<V>>): Result<Bound<V>> {
    match r
    case Ok(b) => Ok(Bound([p] + b.urlParams, b.leftover))
    case Err(e) => Err(e)
  }

  /** Puts already bound pairs in front of a successful binding. */
  function PrependAll<V>(ps: seq<(string, V)>, r: Result<Bound<V>>): Result<Bound<V>> {
    match r
    case Ok(b) => Ok(Bound(ps + b.urlParams, b.leftover))
    case Err(e) => Err(e)
  }

  /** Binding one more pair first is the same as appending it to the
      pairs already bound. */
  lemma PrependAllStep<V>(ps: seq<(string, V)>, p: (string, V), r: Result<Bound<V>>)
    ensures PrependAll(ps, Prepend(p, r)) == PrependAll(ps + [p], r)
  {
    if r.Ok? {
      assert ps + ([p] + r.value.urlParams) == (ps + [p]) + r.value.urlParams;
    }
  }

  /** Proof helper: putting no pairs in front changes nothing. */
  lemma PrependNothing<V>(r: Result<Bound<V>>)
    ensures PrependAll([], r) == r
  {
    if r.Ok? {
      assert [] + r.value.urlParams == r.value.urlParams;
    }
  }

  /** Proof helper for the token loop: binding the first token moves its
      pair to the bound ones and its key out of the arguments. */
  lemma BindStep<V>(ps: seq<(string, V)>, tokens: seq<string>, kwargs: map<string, V>)
    requires tokens != [] && Key(tokens[0]) in kwargs
    ensures PrependAll(ps, BindTokens(tokens, kwargs))
         == PrependAll(ps + [(tokens[0], kwargs[Key(tokens[0])])],
                       BindTokens(tokens[1..], kwargs - {Key(tokens[0])}))
  {
    var k := Key(tokens[0]);
    PrependAllStep(ps, (tokens[0], kwargs[k]), BindTokens(tokens[1..], kwargs - {k}));
  }

  /** The keys of the tokens are pairwise distinct. */
  predicate DistinctKeys(tokens: seq<string>) {
    forall i, j :: 0 <= i < j < |tokens| ==> Key(tokens[i]) != Key(tokens[j])
  }

  /** The keys the tokens bind. */
  function KeySet(tokens: seq<string>): (ks: set<string>)
    ensures forall i :: 0 <= i < |tokens| ==> Key(tokens[i]) in ks
    ensures forall k :: k in ks ==> exists i :: 0 <= i < |tokens| && Key(tokens[i]) == k
    decreases |tokens|
  {
    if tokens == [] then {} else {Key(tokens[0])} + KeySet(tokens[1..])
  }

  /** Binding succeeds exactly when every token's key is present and no two
      tokens share a key. */
  lemma {:induction false} BindTokensOkIff<V>(tokens: seq<string>, kwargs: map<string, V>)
    ensures BindTokens(tokens, kwargs).Ok? <==>
              (forall i :: 0 <= i < |tokens| ==> Key(tokens[i]) in kwargs) && DistinctKeys(tokens)
    decreases |tokens|
  {
    if tokens != [] {
      var k := Key(tokens[0]);
      var rest := tokens[1..];
      assert forall i :: 1 <= i < |tokens| ==> tokens[i] == rest[i - 1];
      if k in kwargs {
        var kw' := kwargs - {k};
        BindTokensOkIff(rest, kw');
        if BindTokens(rest, kw').Ok? {
          forall i | 1 <= i < |tokens| ensures Key(tokens[i]) != k && Key(tokens[i]) in kwargs {
            assert Key(rest[i - 1]) in kw';
          }
        }
      }
    }
  }

  /** A successful binding pairs each token, in order, with the caller's
      value for its key, and leaves the arguments minus the bound keys. */
  lemma {:induction false} BindTokensContents<V>(tokens: seq<string>, kwargs: map<string, V>)
    requires BindTokens(tokens, kwargs).Ok?
    ensures var b := BindTokens(tokens, kwargs).value;
            && |b.urlParams| == |tokens|
            && (forall i :: 0 <= i < |tokens| ==>
                  Key(tokens[i]) in kwargs && b.urlParams[i] == (tokens[i], kwargs[Key(tokens[i])]))
            && b.leftover == kwargs - KeySet(tokens)
    decreases |tokens|
  {
    if tokens != [] {
      var k := Key(tokens[0]);
      var rest := tokens[1..];
      var kw' := kwargs - {k};
      BindTokensContents(rest, kw');
      var b := BindTokens(rest, kw').value;
      forall i | 1 <= i < |tokens|
        ensures Key(tokens[i]) in kwargs && BindTokens(tokens, kwargs).value.urlParams[i] == (tokens[i], kwargs[Key(tokens[i])])
      {
        assert tokens[i] == rest[i - 1];
        assert Key(rest[i - 1]) in kw' && b.urlParams[i - 1] == (rest[i - 1], kw'[Key(rest[i - 1])]);
      }
      assert kwargs - KeySet(tokens) == kw' - KeySet(rest);
    }
  }

  /** On failure the error names the first token, in order of appearance,
      whose key is absent once the keys of the tokens before it have been
      used up; every earlier token found its key. */
  lemma {:induction false} BindTokensErr<V>(tokens: seq<string>, kwargs: map<string, V>)
    requires BindTokens(tokens, kwargs).Err?
    ensures exists i :: 0 <= i < |tokens| &&
              BindTokens(tokens, kwargs).error == ParamValidationError(tokens[i]) &&
              Key(tokens[i]) !in kwargs - KeySet(tokens[..i]) &&
              forall j :: 0 <= j < i ==> Key(tokens[j]) in kwargs - KeySet(tokens[..j])
    decreases |tokens|
  {
    var k := Key(tokens[0]);
    var rest := tokens[1..];
    if k !in kwargs {
      assert tokens[..0] == [];
    } else {
      var kw' := kwargs - {k};
      BindTokensErr(rest, kw');
      var i :| 0 <= i < |rest| &&
               BindTokens(rest, kw').error == ParamValidationError(rest[i]) &&
               Key(rest[i]) !in kw' - KeySet(rest[..i]) &&
               forall j :: 0 <= j < i ==> Key(rest[j]) in kw' - KeySet(rest[..j]);
      UsedUp(tokens, kwargs, i + 1);
      assert tokens[i + 1] == rest[i];
      forall j | 0 <= j < i + 1 ensures Key(tokens[j]) in kwargs - KeySet(tokens[..j]) {
        if j == 0 {
          assert tokens[..0] == [];
        } else {
          UsedUp(tokens, kwargs, j);
          assert tokens[j] == rest[j - 1];
        }
      }
    }
  }

  /** What is left after the first n tokens, counted from the second token
      on the arguments without the first token's key. */
  lemma UsedUp<V>(tokens: seq<string>, kwargs: map<string, V>, n: int)
    requires 1 <= n <= |tokens|
    ensures kwargs - KeySet(tokens[..n]) == (kwargs - {Key(tokens[0])}) - KeySet(tokens[1..][..n - 1])
  {
    assert tokens[..n][1..] == tokens[1..][..n - 1];
    assert KeySet(tokens[..n]) == {Key(tokens[0])} + KeySet(tokens[1..][..n - 1]);
  }

  /** A token that appears twice always fails binding. */
  lemma RepeatedTokenFails<V>(tokens: seq<string>, kwargs: map<string, V>, i: int, j: int)
    requires 0 <= i < j < |tokens| && tokens[i] == tokens[j]
    ensures BindTokens(tokens, kwargs).Err?
  {
    BindTokensOkIff(tokens, kwargs);
  }

  /** `method in (POST, PUT, PATCH)`, with the member equality. */
  predicate IsBodyMethod(verb: string) {
    MethodIn(Str(verb), [POST, PUT, PATCH])
  }

  /** Only the exact values POST, PUT and PATCH send a body. */
  lemma IsBodyMethodValues(verb: string)
    ensures IsBodyMethod(verb) <==> verb in ["POST", "PUT", "PATCH"]
  {
    if IsBodyMethod(verb) {
      var i :| 0 <= i < 3 && Eq([POST, PUT, PATCH][i], Str(verb));
      assert i == 0 || i == 1 || i == 2;
    }
    var body := [POST, PUT, PATCH];
    if verb == "POST" { assert Eq(body[0], Str(verb)); }
    if verb == "PUT" { assert Eq(body[1], Str(verb)); }
    if verb == "PATCH" { assert Eq(body[2], Str(verb)); }
  }

  /** Where leftover keyword arguments go in the outgoing request. */
  datatype Payload<V> = NoPayload | Json(body: map<string, V>) | Params(query: map<string, V>)

  /** The body-versus-query choice: no leftovers give neither; otherwise a
      body for POST, PUT and PATCH and query parameters for any other method.
      Either way the leftovers are passed on whole. */
  function ChoosePayload<V>(verb: string, leftover: map<string, V>): (p: Payload<V>)
    ensures p.NoPayload? <==> leftover == map[]
    ensures p.Json? <==> leftover != map[] && verb in ["POST", "PUT", "PATCH"]
    ensures p.Json? ==> p.body == leftover
    ensures p.Params? ==> p.query == leftover
  {
    IsBodyMethodValues(verb);
    if leftover == map[] then NoPayload
    else if IsBodyMethod(verb) then Json(leftover)
    else Params(leftover)
  }
}
