/** The string primitives the client relies on: Python's `str.upper`
    (ASCII letters only), `str.replace` (replace every occurrence, left to
    right, without overlap) and the `quote_and_escape` helper used by the
    exception representations. */
module Strings {
  import opened Errors

  function UpperChar(c: char): char {
    if 'a' <= c <= 'z' then (c as int - 32) as char else c
  }

  /** `s.upper()`, on the ASCII range. */
  function Upper(s: string): (r: string)
    ensures |r| == |s|
    ensures forall i :: 0 <= i < |s| ==> r[i] == UpperChar(s[i])
  {
    seq(|s|, i requires 0 <= i < |s| => UpperChar(s[i]))
  }

  function LowerChar(c: char): char {
    if 'A' <= c <= 'Z' then (c as int + 32) as char else c
  }

  /** `s.lower()`, on the ASCII range. */
  function Lower(s: string): (r: string)
    ensures |r| == |s|
    ensures forall i :: 0 <= i < |s| ==> r[i] == LowerChar(s[i])
  {
    seq(|s|, i requires 0 <= i < |s| => LowerChar(s[i]))
  }

  /** `sep.join(parts)`: the parts in order with `sep` between neighbours. */
  function JoinWith(sep: string, parts: seq<string>): string
    decreases |parts|
  {
    if parts == [] then []
    else if |parts| == 1 then parts[0]
    else parts[0] + sep + JoinWith(sep, parts[1..])
  }

  /** Lower-casing works piece by piece. */
  lemma LowerConcat(a: string, b: string)
    ensures Lower(a + b) == Lower(a) + Lower(b)
  {
    var l, r := Lower(a + b), Lower(a) + Lower(b);
    forall i | 0 <= i < |l|
      ensures l[i] == r[i]
    {
      if i < |a| {
        assert (a + b)[i] == a[i];
      } else {
        assert (a + b)[i] == b[i - |a|];
      }
    }
    assert l == r;
  }

  /** Joining from position k, lower-cased: the part there, the separator,
      then the join of the rest. */
  lemma LowerJoinStep(sep: string, parts: seq<string>, k: nat)
    requires k + 1 < |parts|
    ensures Lower(JoinWith(sep, parts[k..]))
         == Lower(parts[k]) + Lower(sep) + Lower(JoinWith(sep, parts[k + 1..]))
  {
    assert parts[k..][1..] == parts[k + 1..];
    LowerConcat(parts[k] + sep, JoinWith(sep, parts[k + 1..]));
    LowerConcat(parts[k], sep);
  }

  /** Upper-casing twice changes nothing more. */
  lemma UpperIdempotent(s: string)
    ensures Upper(Upper(s)) == Upper(s)
  {
  }

  /** `pat` occurs in `s` starting at index `i`. */
  predicate OccursAt(s: string, pat: string, i: int) {
    0 <= i && i + |pat| <= |s| && s[i..i + |pat|] == pat
  }

  /** `s.replace(pat, rep)`: every occurrence of `pat`, scanning from the
      left and never overlapping, is replaced by `rep`. An empty `pat`
      inserts `rep` before every character and at the end. */
  function ReplaceAll(s: string, pat: string, rep: string): string
    decreases |s|
  {
    if pat == [] then
      if s == [] then rep else rep + [s[0]] + ReplaceAll(s[1..], pat, rep)
    else if |s| < |pat| then s
    else if s[..|pat|] == pat then rep + ReplaceAll(s[|pat|..], pat, rep)
    else [s[0]] + ReplaceAll(s[1..], pat, rep)
  }

  /** A string in which the pattern never occurs comes back unchanged. */
  lemma {:induction false} ReplaceAbsent(s: string, pat: string, rep: string)
    requires pat != []
    requires forall i :: 0 <= i < |s| ==> !OccursAt(s, pat, i)
    ensures ReplaceAll(s, pat, rep) == s
    decreases |s|
  {
    if |s| >= |pat| {
      assert !OccursAt(s, pat, 0);
      var t := s[1..];
      forall i | 0 <= i < |t| ensures !OccursAt(t, pat, i) {
        assert !OccursAt(s, pat, i + 1);
        if i + |pat| <= |t| {
          assert s[i + 1..i + 1 + |pat|] == t[i..i + |pat|];
        }
      }
      ReplaceAbsent(t, pat, rep);
    }
  }

  /** The leftmost occurrence is the first one replaced: when `pat`
      occurs nowhere before index `|a|` of `a + pat + b`, the result is `a`,
      then `rep`, then the replacement of the rest. */
  lemma {:induction false} ReplaceLeftmost(a: string, pat: string, b: string, rep: string)
    requires pat != []
    requires forall i :: 0 <= i < |a| ==> !OccursAt(a + pat + b, pat, i)
    ensures ReplaceAll(a + pat + b, pat, rep) == a + rep + ReplaceAll(b, pat, rep)
    decreases |a|
  {
    var s := a + pat + b;
    if a == [] {
      assert s == pat + b;
      assert s[..|pat|] == pat;
      assert s[|pat|..] == b;
    } else {
      assert !OccursAt(s, pat, 0);
      var a' := a[1..];
      var t := a' + pat + b;
      assert s[1..] == t;
      assert ReplaceAll(s, pat, rep) == [a[0]] + ReplaceAll(t, pat, rep);
      forall i | 0 <= i < |a'| ensures !OccursAt(t, pat, i) {
        assert !OccursAt(s, pat, i + 1);
        if i + |pat| <= |t| {
          assert s[i + 1..i + 1 + |pat|] == t[i..i + |pat|];
        }
      }
      ReplaceLeftmost(a', pat, b, rep);
      assert [a[0]] + a' == a;
    }
  }

  /** The escaping step of `quote_and_escape`: every `'` becomes `\'`. */
  function Escape(s: string): string {
    ReplaceAll(s, "'", "\\'")
  }

  /** The inverse of Escape: every `\'` becomes `'` again. */
  function Unescape(s: string): string {
    ReplaceAll(s, "\\'", "'")
  }

  /** Escaping a non-empty string yields its first character, or `\'`. */
  lemma EscapeUnfold(s: string)
    requires s != []
    ensures Escape(s) == (if s[0] == '\'' then "\\'" else [s[0]]) + Escape(s[1..])
  {
    assert s[..1] == [s[0]];
  }

  /** An escaped string never begins with a bare quote. */
  lemma EscapeHead(s: string)
    ensures Escape(s) == [] <==> s == []
    ensures Escape(s) != [] ==> Escape(s)[0] != '\''
  {
    if s != [] { EscapeUnfold(s); }
  }

  /** Escaping loses nothing: Unescape undoes it on every string. */
  lemma {:induction false} EscapeRoundTrip(s: string)
    ensures Unescape(Escape(s)) == s
    decreases |s|
  {
    if s != [] {
      EscapeUnfold(s);
      var rest := Escape(s[1..]);
      EscapeHead(s[1..]);
      EscapeRoundTrip(s[1..]);
      if s[0] == '\'' {
        var e := "\\'" + rest;
        assert e[..2] == "\\'";
        assert e[2..] == rest;
      } else {
        var e := [s[0]] + rest;
        if |e| >= 2 {
          assert e[1] == rest[0];
          assert e[..2] != "\\'";
          assert e[1..] == rest;
        } else {
          assert rest == [];
        }
      }
      assert [s[0]] + s[1..] == s;
    }
  }

  /** `quote_and_escape`: None becomes the text None; any other string is
      escaped and wrapped in single quotes. */
  function QuoteAndEscape(s: Option<string>): (r: string)
    ensures s.None? ==> r == "None"
    ensures s.Some? ==> |r| >= 2 && r[0] == '\'' && r[|r| - 1] == '\''
                        && Unescape(r[1..|r| - 1]) == s.value
  {
    match s
    case None => "None"
    case Some(v) =>
      var r := "'" + Escape(v) + "'";
      EscapeRoundTrip(v);
      assert r[1..|r| - 1] == Escape(v);
      r
  }

  /** Distinct inputs give distinct representations. */
  lemma QuoteAndEscapeInjective(a: Option<string>, b: Option<string>)
    requires QuoteAndEscape(a) == QuoteAndEscape(b)
    ensures a == b
  {
    var r := QuoteAndEscape(a);
    if a.Some? && b.Some? {
      assert Unescape(r[1..|r| - 1]) == a.value == b.value;
    }
  }
}
