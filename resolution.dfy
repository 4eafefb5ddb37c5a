/** The nearest-ancestor rule shared by headers, auth handler and response
    handler: walk outward and stop at the first value that is set. */
module Resolution {
  import opened Errors

  /** The first value that is set, scanning from the front. */
  function FirstSome<T>(s: seq<Option<T>>): (r: Option<T>)
    ensures r.None? <==> forall i :: 0 <= i < |s| ==> s[i].None?
    ensures r.Some? ==> exists i :: 0 <= i < |s| && s[i] == r && forall j :: 0 <= j < i ==> s[j].None?
    decreases |s|
  {
    if s == [] then None
    else if s[0].Some? then s[0]
    else
      var r := FirstSome(s[1..]);
      assert forall i :: 1 <= i < |s| ==> s[i] == s[1..][i - 1];
      assert r.Some? ==> exists i :: 0 <= i < |s| && s[i] == r && forall j :: 0 <= j < i ==> s[j].None? by {
        if r.Some? {
          var i :| 0 <= i < |s[1..]| && s[1..][i] == r && forall j :: 0 <= j < i ==> s[1..][j].None?;
          forall j | 0 <= j < i + 1 ensures s[j].None? {
            if j > 0 { assert s[j] == s[1..][j - 1]; }
          }
        }
      }
      r
  }

  /** The value found is unique: it is the one at the nearest set position. */
  lemma FirstSomeNearest<T>(s: seq<Option<T>>, i: int)
    requires 0 <= i < |s| && s[i].Some?
    requires forall j :: 0 <= j < i ==> s[j].None?
    ensures FirstSome(s) == s[i]
  {
    var r := FirstSome(s);
    var k :| 0 <= k < |s| && s[k] == r && forall j :: 0 <= j < k ==> s[j].None?;
    assert !(k < i) && !(i < k);
  }
}
