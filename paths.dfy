/** Route paths. Registration joins the box prefix with the route the way Go's
    `path.Join` does; `Clean` is simplified to the separator rules (see README). */
module Paths {

  /** No two consecutive separators. */
  ghost predicate NoDoubleSlash(s: string)
  {
    forall i :: 0 <= i < |s| - 1 ==> !(s[i] == '/' && s[i + 1] == '/')
  }

  lemma NoDoubleSlashTail(s: string)
    requires |s| > 0 && NoDoubleSlash(s)
    ensures NoDoubleSlash(s[1..])
  {
    forall i | 0 <= i < |s[1..]| - 1
      ensures !(s[1..][i] == '/' && s[1..][i + 1] == '/')
    {
      assert s[1..][i] == s[i + 1] && s[1..][i + 1] == s[i + 2];
    }
  }

  /** The characters of a path other than '/', in order. */
  function Segments(s: string): string
    decreases |s|
  {
    if s == "" then "" else (if s[0] == '/' then "" else [s[0]]) + Segments(s[1..])
  }

  /** Removing the last character, a '/', keeps the other characters. */
  lemma {:induction false} SegmentsDropSlash(s: string)
    requires |s| > 0 && s[|s| - 1] == '/'
    ensures Segments(s[..|s| - 1]) == Segments(s)
    decreases |s|
  {
    if |s| > 1 {
      var t := s[..|s| - 1];
      assert t[0] == s[0] && t[1..] == s[1..][..|s[1..]| - 1];
      SegmentsDropSlash(s[1..]);
    }
  }

  /** Replaces every run of '/' by a single '/'. */
  function Collapse(s: string): (r: string)
    ensures |r| <= |s|
    ensures NoDoubleSlash(r)
    ensures |s| > 0 ==> |r| > 0 && r[0] == s[0] && r[|r| - 1] == s[|s| - 1]
    decreases |s|
  {
    if |s| < 2 then s
    else if s[0] == '/' && s[1] == '/' then Collapse(s[1..])
    else [s[0]] + Collapse(s[1..])
  }

  /** Collapsing keeps every character other than '/', in order. */
  lemma {:induction false} CollapseKeepsSegments(s: string)
    ensures Segments(Collapse(s)) == Segments(s)
    decreases |s|
  {
    if |s| >= 2 {
      CollapseKeepsSegments(s[1..]);
      if s[0] == '/' && s[1] == '/' {
        assert Segments(s) == "" + Segments(s[1..]);
      } else {
        var r := [s[0]] + Collapse(s[1..]);
        assert r[0] == s[0] && r[1..] == Collapse(s[1..]);
      }
    }
  }

  /** A path that already has no double separator is left as it is. */
  lemma {:induction false} CollapseKeepsClean(s: string)
    requires NoDoubleSlash(s)
    ensures Collapse(s) == s
    decreases |s|
  {
    if |s| >= 2 {
      NoDoubleSlashTail(s);
      CollapseKeepsClean(s[1..]);
      assert !(s[0] == '/' && s[1] == '/');
    }
  }

  /** The separator rules of `path.Clean`: runs of '/' collapse, a trailing '/'
      goes (except on the root), and the empty path becomes ".". */
  function Clean(s: string): (r: string)
    ensures r != ""
    ensures NoDoubleSlash(r)
    ensures r == "/" || r[|r| - 1] != '/'
    ensures s != "" ==> (r[0] == '/' <==> s[0] == '/')
    ensures s == "" ==> r == "."
  {
    if s == "" then "."
    else
      var c := Collapse(s);
      if |c| > 1 && c[|c| - 1] == '/' then
        assert c[|c| - 2] != '/';
        c[..|c| - 1]
      else c
  }

  /** Cleaning a non-empty path keeps every character other than '/', in order. */
  lemma CleanKeepsSegments(s: string)
    requires s != ""
    ensures Segments(Clean(s)) == Segments(s)
  {
    var c := Collapse(s);
    CollapseKeepsSegments(s);
    if |c| > 1 && c[|c| - 1] == '/' {
      SegmentsDropSlash(c);
    }
  }

  /** Cleaning a clean path changes nothing. */
  lemma CleanIdempotent(s: string)
    ensures Clean(Clean(s)) == Clean(s)
  {
    var r := Clean(s);
    CollapseKeepsClean(r);
  }

  /** `path.Join(prefix, route)`: the empty elements before the first non-empty one
      are skipped, the rest are joined by '/' and the result is cleaned; all empty
      gives "". */
  function Join(prefix: string, route: string): (r: string)
    ensures r == "" <==> prefix == "" && route == ""
    ensures r != "" ==> NoDoubleSlash(r) && (r == "/" || r[|r| - 1] != '/')
    ensures prefix != "" ==> (r[0] == '/' <==> prefix[0] == '/')
    ensures prefix == "" && route != "" ==> (r[0] == '/' <==> route[0] == '/')
  {
    if prefix != "" then Clean(prefix + "/" + route)
    else if route != "" then Clean(route)
    else ""
  }

  /** A joined path is its own clean form, so joining it again onto nothing keeps it. */
  lemma JoinIsClean(prefix: string, route: string)
    requires prefix != "" || route != ""
    ensures Join("", Join(prefix, route)) == Join(prefix, route)
  {
    if prefix != "" {
      CleanIdempotent(prefix + "/" + route);
    } else {
      CleanIdempotent(route);
    }
  }

  /** An absolute path in clean form other than the root: a leading '/', no
      double separator, no trailing '/'. */
  ghost predicate IsCleanRoute(s: string)
  {
    |s| > 1 && s[0] == '/' && NoDoubleSlash(s) && s[|s| - 1] != '/'
  }

  lemma GlueOne(a: string, c: string)
    requires |a| == 1 && a[0] != '/'
    requires |c| > 1 && c[0] == '/' && c[1] == '/' && NoDoubleSlash(c[1..])
    ensures Collapse(a + c) == a + c[1..]
  {
    assert (a + c)[0] == a[0] && (a + c)[1..] == c;
    CollapseKeepsClean(c[1..]);
    assert Collapse(c) == c[1..];
  }

  /** Gluing a path that does not end in '/' onto one that starts with "//"
      loses only the doubled separator. */
  lemma {:induction false} CollapseGlue(a: string, c: string)
    requires |a| > 0 && NoDoubleSlash(a) && a[|a| - 1] != '/'
    requires |c| > 1 && c[0] == '/' && c[1] == '/' && NoDoubleSlash(c[1..])
    ensures Collapse(a + c) == a + c[1..]
    decreases |a|
  {
    var s := a + c;
    if |a| == 1 {
      GlueOne(a, c);
    } else {
      assert s[0] == a[0] && s[1] == a[1] && s[1..] == a[1..] + c;
      NoDoubleSlashTail(a);
      CollapseGlue(a[1..], c);
      assert Collapse(s) == [a[0]] + Collapse(s[1..]);
      assert [a[0]] + (a[1..] + c[1..]) == a + c[1..];
    }
  }

  /** A subrouter prefix and a route, both in clean form, join by plain
      concatenation: `/api` and `/users` give `/api/users`. */
  lemma JoinConcat(prefix: string, route: string)
    requires prefix == "" || IsCleanRoute(prefix)
    requires IsCleanRoute(route)
    ensures Join(prefix, route) == prefix + route
  {
    if prefix == "" {
      CollapseKeepsClean(route);
      assert prefix + route == route;
    } else {
      assert prefix + "/" + route == prefix + ("/" + route) && ("/" + route)[1..] == route;
      CollapseGlue(prefix, "/" + route);
    }
  }
}
