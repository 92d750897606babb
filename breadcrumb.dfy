/** The breadcrumb trail above the pages: Home, then one crumb for every
    leading part of the current path that names a known page. */
module Breadcrumbs {
  import opened Common
  import opened Text

  datatype CrumbInfo = CrumbInfo(title: string, icon: string)

  datatype Crumb = Crumb(path: string, title: string, icon: string)

  /** `breadcrumbMap`: the pages that have a crumb. */
  const BreadcrumbMap: map<string, CrumbInfo> := map[
    "/" := CrumbInfo("Home", "Home"),
    "/ipo-listings" := CrumbInfo("IPO Listings", "TrendingUp"),
    "/ipo-application" := CrumbInfo("IPO Application", "FileText"),
    "/client-dashboard" := CrumbInfo("Client Dashboard", "BarChart3"),
    "/subbroker-dashboard" := CrumbInfo("Subbroker Dashboard", "BarChart3"),
    "/client-management" := CrumbInfo("Client Management", "Users"),
    "/allotment-status" := CrumbInfo("Allotment Status", "CheckCircle")
  ]

  const HomeCrumb: Crumb := Crumb("/", "Home", "Home")

  // ---------------------------------------------------------------------
  // Path segments

  predicate NoSlash(part: string) {
    forall j :: 0 <= j < |part| ==> part[j] != '/'
  }

  /** `s.split('/')`: the pieces between the slashes, empty ones included. */
  function Split(s: string): (r: seq<string>)
    ensures |r| >= 1
    ensures forall i :: 0 <= i < |r| ==> NoSlash(r[i])
    decreases |s|
  {
    match IndexOfChar(s, '/')
    case None => [s]
    case Some(k) => [s[..k]] + Split(s[k + 1..])
  }

  /** `parts.join('/')`. */
  function Join(parts: seq<string>): string
    requires |parts| >= 1
  {
    if |parts| == 1 then parts[0] else parts[0] + "/" + Join(parts[1..])
  }

  /** Splitting loses nothing: joining the pieces gives the path back. */
  lemma {:induction false} JoinSplit(s: string)
    ensures Join(Split(s)) == s
    decreases |s|
  {
    match IndexOfChar(s, '/')
    case None =>
    case Some(k) =>
      JoinSplit(s[k + 1..]);
      assert Split(s)[1..] == Split(s[k + 1..]);
      assert s == s[..k] + "/" + s[k + 1..];
  }

  /** `parts.filter(segment => segment)`: the non-empty parts, in order. */
  function NonEmptyParts(parts: seq<string>): seq<string> {
    if parts == [] then []
    else (if parts[0] != "" then [parts[0]] else []) + NonEmptyParts(parts[1..])
  }

  /** `pathname.split('/').filter(segment => segment)`. */
  function Segments(pathname: string): seq<string> {
    NonEmptyParts(Split(pathname))
  }

  /** Dropping the empty parts keeps the others, and only them. */
  lemma {:induction false} NonEmptyPartsKeep(parts: seq<string>)
    ensures forall i :: 0 <= i < |NonEmptyParts(parts)| ==> NonEmptyParts(parts)[i] != "" && NonEmptyParts(parts)[i] in parts
  {
    if parts != [] {
      NonEmptyPartsKeep(parts[1..]);
    }
  }

  /** The segments are the non-empty pieces between slashes: none is empty
      and none holds a slash, so repeated and trailing slashes leave no
      trace. */
  lemma SegmentsWellFormed(pathname: string)
    ensures forall i :: 0 <= i < |Segments(pathname)| ==> Segments(pathname)[i] != ""
    ensures forall i :: 0 <= i < |Segments(pathname)| ==> NoSlash(Segments(pathname)[i])
  {
    var parts := Split(pathname);
    NonEmptyPartsKeep(parts);
    var r := Segments(pathname);
    forall i | 0 <= i < |r|
      ensures r[i] != "" && NoSlash(r[i])
    {
      var k :| 0 <= k < |parts| && parts[k] == r[i];
    }
  }

  /** `currentPath` once the remaining segments have been appended to
      `prefix`, a slash before each. */
  function PathFrom(prefix: string, rest: seq<string>): string
    decreases |rest|
  {
    if rest == [] then prefix else PathFrom(prefix + "/" + rest[0], rest[1..])
  }

  /** The crumbs the loop pushes while it appends the remaining segments to
      `prefix`: one for each path along the way that is a key of the map,
      shortest first. */
  function CrumbsFrom(prefix: string, rest: seq<string>, crumbMap: map<string, CrumbInfo>): seq<Crumb>
    decreases |rest|
  {
    if rest == [] then []
    else
      var path := prefix + "/" + rest[0];
      (if path in crumbMap then [Crumb(path, crumbMap[path].title, crumbMap[path].icon)] else [])
        + CrumbsFrom(path, rest[1..], crumbMap)
  }

  predicate ProperPrefix(a: string, b: string) {
    |a| < |b| && IsPrefix(a, b)
  }

  lemma ProperPrefixTransitive(a: string, b: string, c: string)
    requires ProperPrefix(a, b) && IsPrefix(b, c)
    ensures ProperPrefix(a, c)
  {
    assert c[..|a|] == c[..|b|][..|a|];
  }

  /** The path only grows: `prefix` is a prefix of the final path. */
  lemma {:induction false} PathFromExtends(prefix: string, rest: seq<string>)
    ensures IsPrefix(prefix, PathFrom(prefix, rest))
    ensures rest != [] ==> ProperPrefix(prefix, PathFrom(prefix, rest))
    decreases |rest|
  {
    if rest != [] {
      var next := prefix + "/" + rest[0];
      PathFromExtends(next, rest[1..]);
      assert ProperPrefix(prefix, next) by {
        assert next[..|prefix|] == prefix;
      }
      ProperPrefixTransitive(prefix, next, PathFrom(next, rest[1..]));
    }
  }

  /** Every crumb names a known page with that page's title and icon, has
      `prefix` as a proper prefix, and lies on the final path. */
  predicate CrumbsOnPath(cs: seq<Crumb>, prefix: string, path: string, crumbMap: map<string, CrumbInfo>) {
    forall j :: 0 <= j < |cs| ==>
      && cs[j].path in crumbMap
      && cs[j].title == crumbMap[cs[j].path].title
      && cs[j].icon == crumbMap[cs[j].path].icon
      && ProperPrefix(prefix, cs[j].path)
      && IsPrefix(cs[j].path, path)
  }

  /** Each crumb's path is a proper prefix of the next one's. */
  predicate Growing(cs: seq<Crumb>) {
    forall j, j' :: 0 <= j < j' < |cs| ==> ProperPrefix(cs[j].path, cs[j'].path)
  }

  /** The crumbs name known pages along the path, each a proper prefix of
      the next. */
  lemma {:induction false} CrumbsGrow(prefix: string, rest: seq<string>, crumbMap: map<string, CrumbInfo>)
    ensures CrumbsOnPath(CrumbsFrom(prefix, rest, crumbMap), prefix, PathFrom(prefix, rest), crumbMap)
    ensures Growing(CrumbsFrom(prefix, rest, crumbMap))
    decreases |rest|
  {
    if rest != [] {
      var next := prefix + "/" + rest[0];
      var final := PathFrom(prefix, rest);
      var later := CrumbsFrom(next, rest[1..], crumbMap);
      CrumbsGrow(next, rest[1..], crumbMap);
      PathFromExtends(next, rest[1..]);
      assert ProperPrefix(prefix, next) by {
        assert next[..|prefix|] == prefix;
      }
      forall j | 0 <= j < |later|
        ensures ProperPrefix(prefix, later[j].path)
      {
        ProperPrefixTransitive(prefix, next, later[j].path);
      }
    }
  }

  /** The loop of `generateBreadcrumbs`: each segment is appended to the
      current path, and a crumb is pushed whenever that path is a known
      page. */
  method CrumbsForSegments(segments: seq<string>, crumbMap: map<string, CrumbInfo>) returns (crumbs: seq<Crumb>)
    ensures crumbs == [HomeCrumb] + CrumbsFrom("", segments, crumbMap)
  {
    crumbs := [HomeCrumb];
    var currentPath := "";
    var i := 0;
    while i < |segments|
      invariant 0 <= i <= |segments|
      invariant crumbs + CrumbsFrom(currentPath, segments[i..], crumbMap)
        == [HomeCrumb] + CrumbsFrom("", segments, crumbMap)
    {
      assert segments[i..][1..] == segments[i + 1..];
      currentPath := currentPath + "/" + segments[i];
      if currentPath in crumbMap {
        var info := crumbMap[currentPath];
        crumbs := crumbs + [Crumb(currentPath, info.title, info.icon)];
      }
      i := i + 1;
    }
  }

  /** `generateBreadcrumbs` over a crumb map (the page passes
      `BreadcrumbMap`): Home, then a crumb for every known page among the
      growing paths the segments build. */
  method GenerateBreadcrumbs(pathname: string, crumbMap: map<string, CrumbInfo>) returns (crumbs: seq<Crumb>)
    ensures crumbs == [HomeCrumb] + CrumbsFrom("", Segments(pathname), crumbMap)
  {
    var segments := Segments(pathname);
    crumbs := CrumbsForSegments(segments, crumbMap);
  }

  /** The trail is drawn only when it holds more than Home. */
  function Rendered(crumbs: seq<Crumb>): (r: bool)
    ensures |crumbs| >= 1 && crumbs[0] == HomeCrumb ==> (r <==> crumbs != [HomeCrumb])
  {
    |crumbs| > 1
  }

  /** Some path built while appending `rest` to `prefix` is a key of the
      map. */
  predicate KnownAlong(prefix: string, rest: seq<string>, crumbMap: map<string, CrumbInfo>) {
    exists n :: 1 <= n <= |rest| && PathFrom(prefix, rest[..n]) in crumbMap
  }

  /** Appending the first segment and then `n - 1` more reaches the same
      path as appending `n` segments at once. */
  lemma PathFromAfterFirst(prefix: string, rest: seq<string>, n: nat)
    requires 1 <= n <= |rest|
    ensures PathFrom(prefix, rest[..n]) == PathFrom(prefix + "/" + rest[0], rest[1..][..n - 1])
  {
    assert rest[..n][1..] == rest[1..][..n - 1];
  }

  /** A crumb is pushed exactly when one of the paths built along the way
      is a key of the map. */
  lemma {:induction false} CrumbsFromNonEmptyIff(prefix: string, rest: seq<string>, crumbMap: map<string, CrumbInfo>)
    ensures CrumbsFrom(prefix, rest, crumbMap) != [] <==> KnownAlong(prefix, rest, crumbMap)
    decreases |rest|
  {
    if rest != [] {
      var path := prefix + "/" + rest[0];
      var tail := rest[1..];
      CrumbsFromNonEmptyIff(path, tail, crumbMap);
      PathFromAfterFirst(prefix, rest, 1);
      assert tail[..0] == [];
      if path in crumbMap {
        assert PathFrom(prefix, rest[..1]) in crumbMap;
      } else if KnownAlong(path, tail, crumbMap) {
        var m :| 1 <= m <= |tail| && PathFrom(path, tail[..m]) in crumbMap;
        PathFromAfterFirst(prefix, rest, m + 1);
        assert PathFrom(prefix, rest[..m + 1]) in crumbMap;
      } else {
        KnownAlongPastFirst(prefix, rest, crumbMap);
      }
    }
  }

  /** When the first path is not a key, a key further along lies on the
      paths built from the first one on. */
  lemma KnownAlongPastFirst(prefix: string, rest: seq<string>, crumbMap: map<string, CrumbInfo>)
    requires rest != [] && prefix + "/" + rest[0] !in crumbMap
    ensures KnownAlong(prefix, rest, crumbMap) ==> KnownAlong(prefix + "/" + rest[0], rest[1..], crumbMap)
  {
    if KnownAlong(prefix, rest, crumbMap) {
      var n :| 1 <= n <= |rest| && PathFrom(prefix, rest[..n]) in crumbMap;
      PathFromAfterFirst(prefix, rest, n);
      assert rest[1..][..0] == [];
      assert n >= 2;
      assert PathFrom(prefix + "/" + rest[0], rest[1..][..n - 1]) in crumbMap;
    }
  }

  /** The trail of a page is drawn exactly when some path along the page's
      segments is a key of the map. */
  lemma RenderedIffKnownPath(pathname: string, crumbMap: map<string, CrumbInfo>)
    ensures Rendered([HomeCrumb] + CrumbsFrom("", Segments(pathname), crumbMap)) <==>
      KnownAlong("", Segments(pathname), crumbMap)
  {
    CrumbsFromNonEmptyIff("", Segments(pathname), crumbMap);
  }

  /** A page path `/name` has the one segment `name`. */
  lemma SegmentsOfPagePath(q: string)
    requires q != "" && NoSlash(q)
    ensures Segments("/" + q) == [q]
  {
    NoSlashSplit(q);
    SplitAfterLeadingSlash(q);
    assert NonEmptyParts([q]) == [q];
  }

  /** A piece without slashes splits into itself. */
  lemma NoSlashSplit(q: string)
    requires NoSlash(q)
    ensures Split(q) == [q]
  {
    assert IndexOfChar(q, '/').None?;
  }

  /** A leading slash splits off an empty piece. */
  lemma SplitAfterLeadingSlash(q: string)
    ensures Split("/" + q) == [""] + Split(q)
  {
    var p := "/" + q;
    assert p[0] == '/';
    assert p[1..] == q;
  }

  /** The application page's one segment gets its own crumb, so the
      trail is drawn. */
  lemma ApplicationTrail()
    ensures CrumbsFrom("", ["ipo-application"], BreadcrumbMap) == [Crumb("/ipo-application", "IPO Application", "FileText")]
  {
    var path := "" + "/" + "ipo-application";
    assert path == "/ipo-application";
    assert path in BreadcrumbMap;
  }

  /** The root has no segments, so it gets Home only and nothing is
      drawn. */
  lemma RootTrail()
    ensures Segments("/") == []
    ensures CrumbsFrom("", Segments("/"), BreadcrumbMap) == []
  {
    assert IndexOfChar("/", '/') == Some(0);
    assert Split("/") == ["", ""];
  }

  /** A page the map does not know gets Home only. */
  lemma UnknownPageTrail()
    ensures CrumbsFrom("", ["reports"], BreadcrumbMap) == []
  {
    var path := "" + "/" + "reports";
    assert path == "/reports";
    assert path !in BreadcrumbMap;
  }

  /** `label.split(' ')[0]`, the label on narrow screens: the text before
      the first space. */
  function ShortLabel(title: string): (r: string)
    ensures IsPrefix(r, title)
    ensures forall i :: 0 <= i < |r| ==> r[i] != ' '
    ensures |r| < |title| ==> title[|r|] == ' '
  {
    match IndexOfChar(title, ' ')
    case None => title
    case Some(k) => title[..k]
  }

  lemma ShortLabelExamples()
    ensures ShortLabel("IPO Application") == "IPO"
    ensures ShortLabel("Home") == "Home"
  {
    assert IndexOfChar("IPO Application", ' ') == Some(3);
    assert IndexOfChar("Home", ' ') == None;
  }
}
