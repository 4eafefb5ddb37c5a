/** Path templates: the parameter tokens found by the regular expression
    `(:[A-z_]+)` and the substitution of their values into the path. */
module PathTemplate {
  import opened Strings

  /** The class `[A-z_]`: every character from 'A' to 'z'. That range has
      no digits, and besides the letters and '_' it holds '[', '\', ']',
      '^' and the backtick. */
  predicate IsTokenChar(c: char) {
    'A' <= c <= 'z'
  }

  /** A token: a colon followed by one or more characters of the class. */
  predicate IsToken(t: string) {
    |t| >= 2 && t[0] == ':' && forall k :: 1 <= k < |t| ==> IsTokenChar(t[k])
  }

  /** A match of the expression can begin at index j of s. */
  predicate StartsAt(s: string, j: int) {
    0 <= j && j + 1 < |s| && s[j] == ':' && IsTokenChar(s[j + 1])
  }

  /** t occurs in s at some index from i on. */
  predicate OccursFrom(s: string, t: string, i: int) {
    exists j :: i <= j <= |s| && OccursAt(s, t, j)
  }

  /** The end of the longest run of class characters from index j. */
  function RunEnd(s: string, j: nat): (e: nat)
    requires j <= |s|
    ensures j <= e <= |s|
    ensures forall k :: j <= k < e ==> IsTokenChar(s[k])
    ensures e == |s| || !IsTokenChar(s[e])
    decreases |s| - j
  {
    if j < |s| && IsTokenChar(s[j]) then RunEnd(s, j + 1) else j
  }

  /** `re.findall` from index i: scan left to right; at a colon followed by
      a class character take the longest match and resume after it,
      otherwise move on by one character. */
  function TokensFrom(s: string, i: nat): (r: seq<string>)
    requires i <= |s|
    ensures forall k :: 0 <= k < |r| ==> IsToken(r[k])
    ensures forall k :: 0 <= k < |r| ==> OccursFrom(s, r[k], i)
    decreases |s| - i
  {
    if i + 1 >= |s| then []
    else if StartsAt(s, i) then
      var e := RunEnd(s, i + 1);
      var rest := TokensFrom(s, e);
      var r := [s[i..e]] + rest;
      assert forall k :: 0 <= k < |r| ==> OccursFrom(s, r[k], i) by {
        forall k | 0 <= k < |r| ensures OccursFrom(s, r[k], i) {
          if k == 0 {
            assert OccursAt(s, r[0], i);
          } else {
            assert r[k] == rest[k - 1];
            assert OccursFrom(s, rest[k - 1], e);
            var j :| e <= j <= |s| && OccursAt(s, rest[k - 1], j);
            assert i <= j;
          }
        }
      }
      r
    else TokensFrom(s, i + 1)
  }

  /** The positions at which `re.findall` starts a match, scanning from
      index i: increasing, each past the end of the previous match, and
      covering every position from i where a match can begin. */
  function MatchStarts(s: string, i: nat): (ps: seq<nat>)
    requires i <= |s|
    ensures forall k :: 0 <= k < |ps| ==> i <= ps[k] && StartsAt(s, ps[k])
    ensures forall k :: 0 <= k < |ps| - 1 ==> ps[k] < |s| && RunEnd(s, ps[k] + 1) <= ps[k + 1]
    ensures forall j :: i <= j && StartsAt(s, j) ==> j in ps
    decreases |s| - i
  {
    if i + 1 >= |s| then []
    else if StartsAt(s, i) then
      var e := RunEnd(s, i + 1);
      var rest := MatchStarts(s, e);
      assert forall j :: i < j < e ==> !StartsAt(s, j) by {
        forall j | i < j < e ensures !StartsAt(s, j) {
          assert IsTokenChar(s[j]);
        }
      }
      [i] + rest
    else MatchStarts(s, i + 1)
  }

  /** ts are the matches at the starts ps: each token is the whole run of
      class characters following the colon at its start. */
  ghost predicate MatchesAt(s: string, ts: seq<string>, ps: seq<nat>) {
    |ts| == |ps| &&
    forall k :: 0 <= k < |ps| ==> ps[k] < |s| && ts[k] == s[ps[k]..RunEnd(s, ps[k] + 1)]
  }

  /** The scan yields, for each match start in order, the longest run of
      class characters after the colon there: tokens are greedy, in order
      of appearance, and none is skipped. */
  lemma {:induction false} TokensFromMatches(s: string, i: nat)
    requires i <= |s|
    ensures MatchesAt(s, TokensFrom(s, i), MatchStarts(s, i))
    decreases |s| - i
  {
    if i + 1 >= |s| {
      assert TokensFrom(s, i) == [] && MatchStarts(s, i) == [];
    } else if StartsAt(s, i) {
      var e := RunEnd(s, i + 1);
      TokensFromMatches(s, e);
      var ts, ps := TokensFrom(s, e), MatchStarts(s, e);
      assert TokensFrom(s, i) == [s[i..e]] + ts;
      assert MatchStarts(s, i) == [i] + ps;
      ConsMatch(s, i, s[i..e], ts, ps);
    } else {
      TokensFromMatches(s, i + 1);
      assert TokensFrom(s, i) == TokensFrom(s, i + 1);
      assert MatchStarts(s, i) == MatchStarts(s, i + 1);
    }
  }

  /** Proof helper: prepending the match t at p keeps every token the
      maximal run after its own match start. */
  lemma ConsMatch(s: string, p: nat, t: string, ts: seq<string>, ps: seq<nat>)
    requires p < |s| && t == s[p..RunEnd(s, p + 1)] && MatchesAt(s, ts, ps)
    ensures MatchesAt(s, [t] + ts, [p] + ps)
  {
    var qs, us := [p] + ps, [t] + ts;
    forall k | 0 <= k < |qs|
      ensures qs[k] < |s| && us[k] == s[qs[k]..RunEnd(s, qs[k] + 1)]
    {
      if k > 0 {
        assert qs[k] == ps[k - 1] && us[k] == ts[k - 1];
      }
    }
  }

  /** The tokens of a path, in order of appearance (duplicates kept). */
  function Tokens(path: string): seq<string> {
    TokensFrom(path, 0)
  }

  /** The scan finds nothing exactly when no match can begin in the
      scanned part. */
  lemma {:induction false} TokensFromEmptyIff(s: string, i: nat)
    requires i <= |s|
    ensures TokensFrom(s, i) == [] <==> forall j :: i <= j ==> !StartsAt(s, j)
    decreases |s| - i
  {
    if i + 1 >= |s| {
    } else if StartsAt(s, i) {
    } else {
      TokensFromEmptyIff(s, i + 1);
    }
  }

  /** A path has parameter tokens exactly when a colon in it is followed by
      a class character. */
  lemma TokensEmptyIff(path: string)
    ensures Tokens(path) == [] <==> forall j :: 0 <= j ==> !StartsAt(path, j)
  {
    TokensFromEmptyIff(path, 0);
  }

  /** A path without a colon has no tokens. */
  lemma NoColonNoTokens(path: string)
    requires forall k :: 0 <= k < |path| ==> path[k] != ':'
    ensures Tokens(path) == []
  {
    TokensEmptyIff(path);
  }

  /** `_construct_url`'s substitution: the bound (token, text) pairs are
      applied in order, each replacing every occurrence of its token. */
  function Substitute(path: string, params: seq<(string, string)>): string
    decreases |params|
  {
    if params == [] then path
    else Substitute(ReplaceAll(path, params[0].0, params[0].1), params[1..])
  }

  /** A path without a colon is left as it is by substituting tokens. */
  lemma {:induction false} SubstituteWithoutColon(path: string, params: seq<(string, string)>)
    requires forall k :: 0 <= k < |path| ==> path[k] != ':'
    requires forall n :: 0 <= n < |params| ==> IsToken(params[n].0)
    ensures Substitute(path, params) == path
    decreases |params|
  {
    if params != [] {
      var pat := params[0].0;
      assert forall i :: 0 <= i < |path| ==> !OccursAt(path, pat, i);
      ReplaceAbsent(path, pat, params[0].1);
      SubstituteWithoutColon(path, params[1..]);
    }
  }

  /** `/todos/:id` has the single token `:id`. */
  lemma TodosTokens()
    ensures Tokens("/todos/:id") == [":id"]
  {
    var s := "/todos/:id";
    assert RunEnd(s, 10) == 10;
    assert RunEnd(s, 8) == 10;
    assert TokensFrom(s, 10) == [];
    assert s[7..10] == ":id";
    assert TokensFrom(s, 7) == [":id"];
    assert TokensFrom(s, 6) == [":id"];
    assert TokensFrom(s, 5) == [":id"];
    assert TokensFrom(s, 4) == [":id"];
    assert TokensFrom(s, 3) == [":id"];
    assert TokensFrom(s, 2) == [":id"];
    assert TokensFrom(s, 1) == [":id"];
  }

  /** Binding `:id` to `1` in `/todos/:id` gives `/todos/1`. */
  lemma TodosSubstitute()
    ensures Substitute("/todos/:id", [(":id", "1")]) == "/todos/1"
  {
    var a := "/todos/";
    var s := a + ":id" + "";
    assert s == "/todos/:id";
    forall i | 0 <= i < |a| ensures !OccursAt(s, ":id", i) {
      assert s[i] == a[i];
    }
    ReplaceLeftmost(a, ":id", "", "1");
    assert ReplaceAll("", ":id", "1") == "";
  }

  /** A digit ends a token: in `/v/:id2` the token is `:id`. */
  lemma DigitEndsToken()
    ensures Tokens("/v/:id2") == [":id"]
  {
    var s := "/v/:id2";
    assert RunEnd(s, 6) == 6;
    assert RunEnd(s, 4) == 6;
    assert TokensFrom(s, 6) == [];
    assert s[3..6] == ":id";
    assert TokensFrom(s, 3) == [":id"];
    assert TokensFrom(s, 2) == [":id"];
    assert TokensFrom(s, 1) == [":id"];
  }

  /** Tokens are replaced as plain text, one after another: a token that
      begins another token (`:id` and `:idx`) also rewrites the start of
      the longer one, so the longer token's value never reaches the URL. */
  lemma PrefixTokenCollision()
    ensures Tokens("/:id/:idx") == [":id", ":idx"]
    ensures Substitute("/:id/:idx", [(":id", "1"), (":idx", "2")]) == "/1/1x"
  {
    CollisionTokens();
    CollisionFirstReplace();
    var once := "/1/1x";
    forall i | 0 <= i < |once| ensures !OccursAt(once, ":idx", i) {
      if i + 4 <= |once| {
        assert once[i..i + 4][0] == once[i];
      }
    }
    ReplaceAbsent(once, ":idx", "2");
    assert [(":id", "1"), (":idx", "2")][1..] == [(":idx", "2")];
    assert [(":idx", "2")][1..] == [];
  }

  /** The scan of `/:id/:idx`. */
  lemma CollisionTokens()
    ensures Tokens("/:id/:idx") == [":id", ":idx"]
  {
    var p := "/:id/:idx";
    assert RunEnd(p, 9) == 9;
    assert RunEnd(p, 6) == 9;
    assert TokensFrom(p, 9) == [];
    assert p[5..9] == ":idx";
    assert TokensFrom(p, 5) == [":idx"];
    assert TokensFrom(p, 4) == [":idx"];
    assert RunEnd(p, 4) == 4;
    assert RunEnd(p, 2) == 4;
    assert p[1..4] == ":id";
    assert TokensFrom(p, 1) == [":id", ":idx"];
  }

  /** Replacing `:id` in `/:id/:idx` also hits the start of `:idx`. */
  lemma CollisionFirstReplace()
    ensures ReplaceAll("/:id/:idx", ":id", "1") == "/1/1x"
  {
    var a, b := "/", "/:idx";
    assert a + ":id" + b == "/:id/:idx";
    forall i | 0 <= i < |a| ensures !OccursAt(a + ":id" + b, ":id", i) {
      assert (a + ":id" + b)[i] == '/';
    }
    ReplaceLeftmost(a, ":id", b, "1");
    var c, d := "/", "x";
    assert c + ":id" + d == b;
    forall i | 0 <= i < |c| ensures !OccursAt(c + ":id" + d, ":id", i) {
      assert (c + ":id" + d)[i] == '/';
    }
    ReplaceLeftmost(c, ":id", d, "1");
    ReplaceAbsent(d, ":id", "1");
  }
}
