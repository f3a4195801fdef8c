/** The breadcrumb trail of a page: one crumb per non-empty segment of the
    page path (query string dropped), preceded by a Home crumb. Labels come
    from a fixed table or the segment itself; icons come from the
    navigation links, flattened into a map keyed by each link's last
    route segment, or from a fallback table. */
module Breadcrumbs {
  import opened Wrappers
  import opened Text

  /** A navigation link with its nested items. "" stands for a missing
      `routerLink`, `icon` or `svgIcon`. */
  datatype NavLink = NavLink(labelText: string, routerLink: string, icon: string, svgIcon: string, items: seq<NavLink>)

  /** What the map keeps of a link. */
  datatype NavEntry = NavEntry(labelText: string, icon: string, svgIcon: string)

  datatype Crumb = Crumb(labelText: string, route: string, icon: Option<string>, svgIcon: Option<string>)

  const HomeCrumb: Crumb := Crumb("Home", "/", Some("pi pi-home"), None)

  // ---------------------------------------------------------------------
  // flattenNavLinks
  // ---------------------------------------------------------------------

  /** `routerLink.split('/').pop()`. */
  function LastSegment(routerLink: string): (seg: string)
    ensures '/' !in seg
  {
    var parts := Split(routerLink, '/');
    parts[|parts| - 1]
  }

  /** The key a link is registered under, if any: a link with a
      `routerLink` whose last segment is not empty. */
  function KeyOf(link: NavLink): Option<string>
  {
    if link.routerLink != "" && LastSegment(link.routerLink) != "" then Some(LastSegment(link.routerLink))
    else None
  }

  function EntryOf(link: NavLink): NavEntry
  {
    NavEntry(link.labelText, link.icon, link.svgIcon)
  }

  /** Registering one link overwrites its key. */
  function Register(m: map<string, NavEntry>, link: NavLink): map<string, NavEntry>
  {
    if KeyOf(link).Some? then m[KeyOf(link).value := EntryOf(link)] else m
  }

  /** `addLinksToMap`: the links in order, each registered and then its
      items added, as a fold over the list. */
  function AddLinks(m: map<string, NavEntry>, links: seq<NavLink>): map<string, NavEntry>
    decreases links
  {
    if links == [] then m
    else AddLink(AddLinks(m, links[..|links| - 1]), links[|links| - 1])
  }

  function AddLink(m: map<string, NavEntry>, link: NavLink): map<string, NavEntry>
    decreases link
  {
    AddLinks(Register(m, link), link.items)
  }

  /** The links of a tree in the order the flattening visits them: each link
      before its items, siblings left to right. */
  function Preorder(links: seq<NavLink>): seq<NavLink>
    decreases links
  {
    if links == [] then []
    else Preorder(links[..|links| - 1]) + PreorderOne(links[|links| - 1])
  }

  function PreorderOne(link: NavLink): seq<NavLink>
    decreases link
  {
    [link] + Preorder(link.items)
  }

  /** Registering a flat list of links one after the other. */
  function RegisterAll(m: map<string, NavEntry>, links: seq<NavLink>): map<string, NavEntry>
  {
    if links == [] then m else Register(RegisterAll(m, links[..|links| - 1]), links[|links| - 1])
  }

  lemma {:induction false} RegisterAllAppend(m: map<string, NavEntry>, a: seq<NavLink>, b: seq<NavLink>)
    ensures RegisterAll(m, a + b) == RegisterAll(RegisterAll(m, a), b)
    decreases |b|
  {
    if b == [] {
      assert a + b == a;
    } else {
      assert (a + b)[..|a + b| - 1] == a + b[..|b| - 1];
      RegisterAllAppend(m, a, b[..|b| - 1]);
    }
  }

  /** The recursive flattening registers exactly the links of the tree, in
      pre-order. */
  lemma {:induction false} AddLinksIsPreorder(m: map<string, NavEntry>, links: seq<NavLink>)
    ensures AddLinks(m, links) == RegisterAll(m, Preorder(links))
    decreases links
  {
    if links != [] {
      var init := links[..|links| - 1];
      var last := links[|links| - 1];
      AddLinksIsPreorder(m, init);
      AddLinkIsPreorder(AddLinks(m, init), last);
      RegisterAllAppend(m, Preorder(init), PreorderOne(last));
    }
  }

  lemma {:induction false} AddLinkIsPreorder(m: map<string, NavEntry>, link: NavLink)
    ensures AddLink(m, link) == RegisterAll(m, PreorderOne(link))
    decreases link
  {
    AddLinksIsPreorder(Register(m, link), link.items);
    RegisterAllAppend(m, [link], Preorder(link.items));
    assert RegisterAll(m, [link]) == Register(m, link) by {
      assert [link][..0] == [];
    }
  }

  /** After registering a list, a key is present exactly when it was before
      or some link in the list has it. */
  lemma {:induction false} RegisterAllKeys(m: map<string, NavEntry>, links: seq<NavLink>, k: string)
    ensures k in RegisterAll(m, links) <==> k in m || exists j :: 0 <= j < |links| && KeyOf(links[j]) == Some(k)
    decreases |links|
  {
    if links != [] {
      var init := links[..|links| - 1];
      RegisterAllKeys(m, init, k);
      assert forall j :: 0 <= j < |init| ==> init[j] == links[j];
      if exists j :: 0 <= j < |links| && KeyOf(links[j]) == Some(k) {
        var j :| 0 <= j < |links| && KeyOf(links[j]) == Some(k);
        assert j < |init| ==> KeyOf(init[j]) == Some(k);
      }
    }
  }

  /** A key's entry is that of the last link in the list that has it, so
      later links overwrite earlier ones. */
  lemma {:induction false} RegisterAllLastWins(m: map<string, NavEntry>, links: seq<NavLink>, j: nat, k: string)
    requires j < |links| && KeyOf(links[j]) == Some(k)
    requires forall j' :: j < j' < |links| ==> KeyOf(links[j']) != Some(k)
    ensures k in RegisterAll(m, links) && RegisterAll(m, links)[k] == EntryOf(links[j])
    decreases |links|
  {
    if j < |links| - 1 {
      var init := links[..|links| - 1];
      assert init[j] == links[j];
      RegisterAllLastWins(m, init, j, k);
    }
  }

  /** A key no link in the list has keeps its entry. */
  lemma {:induction false} RegisterAllUntouched(m: map<string, NavEntry>, links: seq<NavLink>, k: string)
    requires k in m
    requires forall j :: 0 <= j < |links| ==> KeyOf(links[j]) != Some(k)
    ensures k in RegisterAll(m, links) && RegisterAll(m, links)[k] == m[k]
    decreases |links|
  {
    if links != [] {
      var init := links[..|links| - 1];
      assert forall j :: 0 <= j < |init| ==> init[j] == links[j];
      RegisterAllUntouched(m, init, k);
    }
  }

  // ---------------------------------------------------------------------
  // Labels, icons, routes
  // ---------------------------------------------------------------------

  function LabelTable(path: string): Option<string>
  {
    if path == "certs" then Some("Certificates")
    else if path == "dns" then Some("DNS Records")
    else if path == "ips" then Some("IP Addresses")
    else if path == "edit-events" then Some("Edit Events")
    else if path == "external-tools" then Some("External Tools")
    else if path == "faq" then Some("Frequently Asked Questions")
    else None
  }

  /** `capitalizeFirstLetter`: a name containing '.' is kept; otherwise only
      its first character is upper-cased. */
  function Capitalize(s: string): (r: string)
    ensures |r| == |s|
    ensures Includes(s, ".") ==> r == s
    ensures !Includes(s, ".") && |s| > 0 ==> r[0] == UpperChar(s[0]) && r[1..] == s[1..]
  {
    if Includes(s, ".") || |s| == 0 then s else [UpperChar(s[0])] + s[1..]
  }

  /** `getLabelForPath`. */
  function LabelForPath(path: string): (l: string)
    ensures LabelTable(path).Some? ==> l == LabelTable(path).value
    ensures LabelTable(path).None? ==> l == Capitalize(path)
  {
    if LabelTable(path).Some? then LabelTable(path).value else Capitalize(path)
  }

  /** A segment that is not in the table and holds a '.' (a domain name) is
      shown verbatim; any other unlisted segment only changes its first
      character. */
  lemma LabelCases(path: string)
    ensures LabelTable(path).None? && '.' in path ==> LabelForPath(path) == path
    ensures LabelTable(path).None? && '.' !in path && |path| > 0 ==>
      LabelForPath(path) == [UpperChar(path[0])] + path[1..]
  {
    IncludesChar(path, '.');
  }

  function IconTable(path: string): Option<string>
  {
    if path == "settings" then Some("wrench")
    else if path == "about" then Some("lightbulb")
    else if path == "contact" then Some("headphones")
    else if path == "notifications" then Some("bell")
    else if path == "edit-events" then Some("list-check")
    else if path == "pricing" then Some("money-bill")
    else if path == "features" then Some("star")
    else if path == "external-tools" then Some("external-link")
    else if path == "faq" then Some("question-circle")
    else if path == "legal" then Some("hammer")
    else None
  }

  /** `getIconForPath`: the link's own icon, else the table's icon as a
      class list, else none. */
  function IconForPath(navMap: map<string, NavEntry>, path: string): (icon: Option<string>)
    ensures path in navMap && navMap[path].icon != "" ==> icon == Some(navMap[path].icon)
    ensures !(path in navMap && navMap[path].icon != "") && IconTable(path).Some? ==>
      icon == Some(" pi pi-" + IconTable(path).value)
    ensures !(path in navMap && navMap[path].icon != "") && IconTable(path).None? ==> icon == None
  {
    if path in navMap && navMap[path].icon != "" then Some(navMap[path].icon)
    else if IconTable(path).Some? then Some(" pi pi-" + IconTable(path).value)
    else None
  }

  /** `getSvgIconForPath`: its fallback table is empty, so an SVG icon only
      ever comes from a navigation link. */
  function SvgIconForPath(navMap: map<string, NavEntry>, path: string): (icon: Option<string>)
    ensures icon.Some? <==> path in navMap && navMap[path].svgIcon != ""
    ensures icon.Some? ==> icon.value == navMap[path].svgIcon
  {
    if path in navMap && navMap[path].svgIcon != "" then Some(navMap[path].svgIcon) else None
  }

  /** `getRouteForPath`: the first `index + 1` segments joined by '/'. */
  function RouteForPath(paths: seq<string>, index: nat): string
    requires index < |paths|
  {
    Join(paths[..index + 1], '/')
  }

  /** The parts of a split that are not empty (`filter(path => path)`). */
  function NonEmptyParts(parts: seq<string>): (r: seq<string>)
    ensures forall i :: 0 <= i < |r| ==> r[i] != "" && r[i] in parts
    ensures forall p :: p in r <==> p in parts && p != ""
  {
    if parts == [] then []
    else if parts[0] == "" then NonEmptyParts(parts[1..])
    else [parts[0]] + NonEmptyParts(parts[1..])
  }

  /** The filter distributes over concatenation; with the one-part cases
      (an empty part is dropped, any other kept) this fixes the result:
      every non-empty part is kept, in order. */
  lemma {:induction false} NonEmptyPartsAppend(a: seq<string>, b: seq<string>)
    ensures NonEmptyParts(a + b) == NonEmptyParts(a) + NonEmptyParts(b)
    ensures NonEmptyParts([""]) == [] && forall x :: x != "" ==> NonEmptyParts([x]) == [x]
  {
    if a == [] {
      assert a + b == b;
    } else {
      assert (a + b)[0] == a[0];
      assert (a + b)[1..] == a[1..] + b;
      NonEmptyPartsAppend(a[1..], b);
      if a[0] == "" {
        assert NonEmptyParts(a + b) == NonEmptyParts(a[1..] + b);
      } else {
        assert NonEmptyParts(a + b) == [a[0]] + NonEmptyParts(a[1..] + b);
      }
    }
    assert forall x: string :: [x][1..] == [];
  }

  /** The part of a path before its first '?': the longest prefix without one. */
  function BeforeQuery(path: string): (r: string)
    ensures '?' !in r && r <= path
    ensures r == path || (|r| < |path| && path[|r|] == '?')
  {
    var parts := Split(path, '?');
    JoinSplit(path, '?');
    JoinStartsWithFirst(parts, '?');
    parts[0]
  }

  /** The non-empty '/'-segments of the path before '?'. */
  function Segments(pagePath: string): (segs: seq<string>)
    ensures forall i :: 0 <= i < |segs| ==> segs[i] != "" && '/' !in segs[i] && '?' !in segs[i]
    ensures segs == NonEmptyParts(Split(BeforeQuery(pagePath), '/'))
    ensures forall p :: p in segs <==> p in Split(BeforeQuery(pagePath), '/') && p != ""
  {
    var parts := Split(BeforeQuery(pagePath), '/');
    var segs := NonEmptyParts(parts);
    assert forall i :: 0 <= i < |segs| ==> '?' !in segs[i] by {
      forall i | 0 <= i < |segs| ensures '?' !in segs[i] {
        var seg := segs[i];
        var k :| 0 <= k < |parts| && parts[k] == seg;
        JoinSplit(BeforeQuery(pagePath), '/');
        PartOfJoinIsContained(parts, k, '/', '?');
      }
    }
    segs
  }

  /** A character absent from a joined string is absent from each part. */
  lemma {:induction false} PartOfJoinIsContained(parts: seq<string>, k: nat, sep: char, c: char)
    requires k < |parts| && c !in Join(parts, sep)
    ensures c !in parts[k]
  {
    if |parts| > 1 {
      assert Join(parts, sep) == parts[0] + [sep] + Join(parts[1..], sep);
      if k > 0 {
        PartOfJoinIsContained(parts[1..], k - 1, sep, c);
      }
    }
  }

  /** The segment with any '?' or '#' suffix dropped: the longest prefix
      holding neither. */
  function CleanPath(seg: string): (r: string)
    ensures '#' !in r && '?' !in r
    ensures r <= seg && (r == seg || (|r| < |seg| && (seg[|r|] == '?' || seg[|r|] == '#')))
  {
    var noQuery := BeforeQuery(seg);
    var parts := Split(noQuery, '#');
    JoinSplit(noQuery, '#');
    PartOfJoinIsContained(parts, 0, '#', '?');
    parts[0]
  }

  /** The trail `updateBreadcrumbs` builds for a non-empty page path. */
  function BuildCrumbs(navMap: map<string, NavEntry>, pagePath: string): seq<Crumb>
  {
    var segs := Segments(pagePath);
    var paths := seq(|segs|, i requires 0 <= i < |segs| => BeforeQuery(segs[i]));
    [HomeCrumb] + seq(|segs|, i requires 0 <= i < |segs| =>
      Crumb(LabelForPath(CleanPath(segs[i])), RouteForPath(paths, i),
            IconForPath(navMap, CleanPath(segs[i])), SvgIconForPath(navMap, CleanPath(segs[i]))))
  }

  lemma BeforeQueryOfPlain(s: string)
    requires '?' !in s
    ensures BeforeQuery(s) == s
  {
  }

  /** One crumb per segment after Home; crumb `i + 1` is labelled and
      iconed from segment `i` with its fragment stripped, and routed to the
      first `i + 1` segments joined by '/'. */
  lemma CrumbsShape(navMap: map<string, NavEntry>, pagePath: string)
    ensures var segs := Segments(pagePath); var cs := BuildCrumbs(navMap, pagePath);
      |cs| == |segs| + 1 && cs[0] == HomeCrumb
      && forall i :: 0 <= i < |segs| ==>
           cs[i + 1].route == Join(segs[..i + 1], '/')
           && cs[i + 1].labelText == LabelForPath(CleanPath(segs[i]))
           && cs[i + 1].icon == IconForPath(navMap, CleanPath(segs[i]))
  {
    var segs := Segments(pagePath);
    var paths := seq(|segs|, i requires 0 <= i < |segs| => BeforeQuery(segs[i]));
    forall i | 0 <= i < |segs| ensures paths[i] == segs[i] {
      BeforeQueryOfPlain(segs[i]);
    }
    assert paths == segs;
    var cs := BuildCrumbs(navMap, pagePath);
    forall i | 0 <= i < |segs|
      ensures cs[i + 1] == Crumb(LabelForPath(CleanPath(segs[i])), Join(segs[..i + 1], '/'),
                                 IconForPath(navMap, CleanPath(segs[i])), SvgIconForPath(navMap, CleanPath(segs[i])))
    {
      assert RouteForPath(paths, i) == Join(segs[..i + 1], '/');
    }
  }

  /** Joining one more segment extends the route by '/' and that segment,
      so each route is a prefix of the next; a route of non-empty segments
      without '/' does not start with '/'. */
  lemma RouteExtends(segs: seq<string>, i: nat)
    requires i + 1 < |segs|
    requires forall k :: 0 <= k < |segs| ==> segs[k] != "" && '/' !in segs[k]
    ensures Join(segs[..i + 2], '/') == Join(segs[..i + 1], '/') + "/" + segs[i + 1]
    ensures Join(segs[..i + 1], '/') <= Join(segs[..i + 2], '/')
    ensures Join(segs[..i + 1], '/')[0] != '/'
  {
    assert segs[..i + 2] == segs[..i + 1] + [segs[i + 1]];
    JoinSnoc(segs[..i + 1], segs[i + 1], '/');
    JoinStartsWithFirst(segs[..i + 1], '/');
    assert segs[..i + 1][0] == segs[0];
    assert segs[0][0] in segs[0];
  }

  /** `determineIfBreadcrumbsShouldBeShown`. "" stands for a missing page path. */
  function ShouldShow(breadcrumbsGiven: bool, pagePath: string): (show: bool)
    ensures show <==> pagePath != "" && BeforeQuery(pagePath) != "/"
  {
    if !breadcrumbsGiven && pagePath == "" then false
    else pagePath != "" && BeforeQuery(pagePath) != "/"
  }

  lemma ShowExamples(given: bool)
    ensures !ShouldShow(given, "")
    ensures !ShouldShow(given, "/")
    ensures !ShouldShow(given, "/?tab=1")
    ensures ShouldShow(given, "/domains")
  {
    assert Split("/?tab=1", '?')[0] == "/" by {
      assert IndexOf("/?tab=1", '?') == 1;
    }
    assert '?' !in "/domains";
  }

  // ---------------------------------------------------------------------
  // The component
  // ---------------------------------------------------------------------

  class BreadcrumbsComponent {
    var breadcrumbs: Option<seq<Crumb>>
    var pagePath: string
    var shouldShowBreadcrumbs: bool
    var navLinksMap: map<string, NavEntry>

    constructor (breadcrumbs: Option<seq<Crumb>>, pagePath: string)
      ensures this.breadcrumbs == breadcrumbs && this.pagePath == pagePath
      ensures shouldShowBreadcrumbs && navLinksMap == map[]
    {
      this.breadcrumbs := breadcrumbs;
      this.pagePath := pagePath;
      shouldShowBreadcrumbs := true;
      navLinksMap := map[];
    }

    /** `addLinksToMap`: each link registered, then its items, in order. */
    method AddLinksToMap(links: seq<NavLink>)
      modifies this
      ensures navLinksMap == AddLinks(old(navLinksMap), links)
      ensures breadcrumbs == old(breadcrumbs) && pagePath == old(pagePath)
      ensures shouldShowBreadcrumbs == old(shouldShowBreadcrumbs)
      decreases links
    {
      for i := 0 to |links|
        invariant navLinksMap == AddLinks(old(navLinksMap), links[..i])
        invariant breadcrumbs == old(breadcrumbs) && pagePath == old(pagePath)
        invariant shouldShowBreadcrumbs == old(shouldShowBreadcrumbs)
      {
        var link := links[i];
        assert links[..i + 1][..i] == links[..i];
        if link.routerLink != "" {
          var path := LastSegment(link.routerLink);
          if path != "" {
            navLinksMap := navLinksMap[path := NavEntry(link.labelText, link.icon, link.svgIcon)];
          }
        }
        AddLinksToMap(link.items);
      }
      assert links[..|links|] == links;
    }

    /** `flattenNavLinks` over the concatenated link groups. */
    method FlattenNavLinks(allLinks: seq<NavLink>)
      modifies this
      ensures navLinksMap == RegisterAll(old(navLinksMap), Preorder(allLinks))
      ensures breadcrumbs == old(breadcrumbs) && pagePath == old(pagePath)
    {
      AddLinksToMap(allLinks);
      AddLinksIsPreorder(old(navLinksMap), allLinks);
    }

    /** `updateBreadcrumbs`: recomputes visibility, and rebuilds the trail
        when there is a page path. */
    method UpdateBreadcrumbs()
      modifies this
      ensures shouldShowBreadcrumbs == ShouldShow(old(breadcrumbs).Some?, pagePath)
      ensures pagePath == old(pagePath) && navLinksMap == old(navLinksMap)
      ensures pagePath != "" ==> breadcrumbs == Some(BuildCrumbs(navLinksMap, pagePath))
      ensures pagePath == "" ==> breadcrumbs == old(breadcrumbs)
    {
      shouldShowBreadcrumbs := ShouldShow(breadcrumbs.Some?, pagePath);
      if pagePath != "" {
        breadcrumbs := Some(BuildCrumbs(navLinksMap, pagePath));
      }
    }
  }
}
