/**
 * Page routing: the page table, the page a URL path selects, and the URL of a page.
 */
module Routing {
  import opened Wrappers
  import opened Seqs
  import opened Text

  /** The keys of the page table, in declaration order; the first is the default. */
  const Pages: seq<string> := ["Dashboard", "Properties", "ClientPortal", "ApplyForRental", "Applications",
                               "Clients", "PublicPortal", "Leases", "ApplicationSuccess"]

  /** One trailing slash removed, if there is one. */
  function StripTrailingSlash(url: string): (r: string)
    ensures url != [] && url[|url| - 1] == '/' ==> r == url[..|url| - 1]
    ensures !(url != [] && url[|url| - 1] == '/') ==> r == url
  {
    if url != [] && url[|url| - 1] == '/' then url[..|url| - 1] else url
  }

  /** The index of the last slash in `s`, or -1 when it has none. */
  function LastSlash(s: string): (r: int)
    ensures -1 <= r < |s|
    ensures 0 <= r ==> s[r] == '/'
    ensures forall i :: r < i < |s| ==> s[i] != '/'
  {
    if s == [] then -1
    else if s[|s| - 1] == '/' then |s| - 1
    else LastSlash(s[..|s| - 1])
  }

  /** `s.split('/').pop()`: what follows the last slash, or all of `s` when it has none. */
  function LastSegment(s: string): (r: string)
    ensures '/' !in r
    ensures r == s[LastSlash(s) + 1..]
  {
    var r := s[LastSlash(s) + 1..];
    assert forall i :: 0 <= i < |r| ==> r[i] == s[LastSlash(s) + 1 + i];
    r
  }

  /** `s.split('?')[0]`: what precedes the first question mark, or all of `s` when it has none. */
  function BeforeQuery(s: string): (r: string)
    ensures '?' !in r
    ensures '?' !in s ==> r == s
    ensures |r| <= |s| && r == s[..|r|]
  {
    var k := FindIndex(s, (c: char) => c == '?');
    if k == -1 then s
    else
      assert forall i :: 0 <= i < k ==> s[..k][i] == s[i];
      s[..k]
  }

  /** The first page whose name equals `part` ignoring case, if any. */
  function PageNamed(part: string): (r: Option<string>)
    ensures r.Some? ==> r.value in Pages && ToLower(r.value) == ToLower(part)
    ensures r.None? <==> forall i :: 0 <= i < |Pages| ==> ToLower(Pages[i]) != ToLower(part)
  {
    FindFirst(Pages, (page: string) => ToLower(page) == ToLower(part))
  }

  /** The part of the URL that names the page: the last path segment, without a query. */
  function Segment(url: string): string
  {
    BeforeQuery(LastSegment(StripTrailingSlash(url)))
  }

  /** `_getCurrentPage`: the page the URL names, matched ignoring case, or the first page. */
  function CurrentPage(url: string): (r: string)
    ensures r in Pages
  {
    PageNamed(Segment(url)).GetOr(Pages[0])
  }

  /** The page-table keys differ from each other even ignoring case. */
  lemma PagesDistinctIgnoringCase(i: int, j: int)
    requires 0 <= i < |Pages| && 0 <= j < |Pages| && i != j
    ensures ToLower(Pages[i]) != ToLower(Pages[j])
  {
    var a, b := Pages[i], Pages[j];
    if |a| == |b| {
      // the names of equal length start with different letters
      assert ToLower(a)[0] == LowerChar(a[0]) && ToLower(b)[0] == LowerChar(b[0]);
    }
  }

  /** A segment naming a page ignoring case selects a page of that name; any other selects `Dashboard`. */
  lemma CurrentPageMatches(url: string)
    ensures (exists i :: 0 <= i < |Pages| && ToLower(Pages[i]) == ToLower(Segment(url))) ==>
              ToLower(CurrentPage(url)) == ToLower(Segment(url))
    ensures (forall i :: 0 <= i < |Pages| ==> ToLower(Pages[i]) != ToLower(Segment(url))) ==>
              CurrentPage(url) == "Dashboard"
  {
  }

  /** Any page name, written in any case, selects the page in its table spelling. */
  lemma CurrentPageCanonical(url: string, k: int)
    requires 0 <= k < |Pages|
    requires ToLower(Segment(url)) == ToLower(Pages[k])
    ensures CurrentPage(url) == Pages[k]
  {
    var m :| 0 <= m < |Pages| && Pages[m] == CurrentPage(url);
    if m != k {
      PagesDistinctIgnoringCase(m, k);
    }
  }

  /** A slash and a name without slashes or question marks: the segment is that name. */
  lemma SegmentOfPath(name: string)
    requires '/' !in name && '?' !in name
    ensures Segment("/" + name) == name
  {
    if name != [] {
      assert ("/" + name)[|name|] == name[|name| - 1] && name[|name| - 1] in name;
      assert StripTrailingSlash("/" + name) == "/" + name;
      LastSegmentAppend("/", name);
      assert LastSegment("/") == [];
    } else {
      assert "/" + name == "/";
      assert StripTrailingSlash("/") == [];
      assert LastSegment([]) == [];
    }
  }

  /** A step of the example below, kept apart so that its string constants stay out of that proof. */
  lemma PropertiesPathSegment()
    ensures Segment("/" + "properties") == "properties"
  {
    SegmentOfPath("properties");
  }

  /** A step of the example below, kept apart so that its string constants stay out of that proof. */
  lemma PropertiesIgnoringCase()
    ensures ToLower("properties") == ToLower(Pages[1])
  {
    var a, b := ToLower("properties"), ToLower(Pages[1]);
    forall i | 0 <= i < 10
      ensures a[i] == b[i]
    {
      if i > 0 {
        assert "properties"[i] == Pages[1][i];
      }
    }
  }

  /** `"/properties"` selects `"Properties"`. */
  lemma LowerCasePathSelectsPage(url: string)
    requires url == "/properties"
    ensures CurrentPage(url) == "Properties"
  {
    assert "/" + "properties" == "/properties";
    PropertiesPathSegment();
    PropertiesIgnoringCase();
    CurrentPageCanonical(url, 1);
  }

  /** A step of the example below, kept apart so that its string constants stay out of that proof. */
  lemma RootSegment()
    ensures Segment("/" + "") == ""
  {
    SegmentOfPath("");
  }

  /** The root path selects the default page. */
  lemma RootSelectsDashboard(url: string)
    requires url == "/"
    ensures CurrentPage(url) == "Dashboard"
  {
    assert "/" + "" == "/";
    RootSegment();
    assert forall i :: 0 <= i < |Pages| ==> |ToLower(Pages[i])| > 0;
    CurrentPageMatches(url);
  }

  /** Text without a slash appended after the last slash stays in the last segment. */
  lemma LastSegmentAppend(s: string, t: string)
    requires '/' !in t
    ensures LastSegment(s + t) == LastSegment(s) + t
  {
    var u := s + t;
    var m := LastSlash(s);
    forall i | m < i < |u|
      ensures u[i] != '/'
    {
      if i < |s| {
        assert u[i] == s[i];
      } else {
        assert u[i] == t[i - |s|];
        assert t[i - |s|] in t;
      }
    }
    if m >= 0 {
      assert u[m] == '/';
    }
    LastSlashUnique(u, m);
    assert u[m + 1..] == s[m + 1..] + t;
  }

  /** The last slash is the one slash, if any, with none after it. */
  lemma LastSlashUnique(s: string, m: int)
    requires -1 <= m < |s| && (0 <= m ==> s[m] == '/')
    requires forall i :: m < i < |s| ==> s[i] != '/'
    ensures LastSlash(s) == m
  {
    var k := LastSlash(s);
    assert 0 <= k ==> s[k] == '/';
    assert forall i :: k < i < |s| ==> s[i] != '/';
  }

  lemma BeforeQueryWhole(s: string, q: string)
    requires '?' !in s
    ensures BeforeQuery(s + "?" + q) == s
  {
    var u := s + "?" + q;
    var k := FindIndex(u, (c: char) => c == '?');
    assert u[|s|] == '?';
    forall i | 0 <= i < |s|
      ensures u[i] != '?'
    {
      assert u[i] == s[i] && s[i] in s;
    }
    assert k == |s|;
    assert u[..|s|] == s;
  }

  /** One trailing slash makes no difference. */
  lemma TrailingSlashIgnored(url: string)
    requires url == [] || url[|url| - 1] != '/'
    ensures CurrentPage(url + "/") == CurrentPage(url)
  {
    var u := url + "/";
    assert u[|u| - 1] == '/' && u[..|u| - 1] == url;
    assert StripTrailingSlash(u) == url;
    assert StripTrailingSlash(url) == url;
    assert Segment(u) == Segment(url);
  }

  lemma QueryTailHasNoSlash(query: string)
    requires '/' !in query
    ensures '/' !in "?" + query && ("?" + query)[|query|] != '/'
  {
    var tail := "?" + query;
    forall i | 0 <= i < |tail|
      ensures tail[i] != '/'
    {
      if i > 0 {
        assert tail[i] == query[i - 1] && query[i - 1] in query;
      }
    }
  }

  lemma SegmentHasNoQuery(url: string)
    requires '?' !in url
    ensures '?' !in LastSegment(url)
  {
    var seg := LastSegment(url);
    forall i | 0 <= i < |seg|
      ensures seg[i] != '?'
    {
      assert seg[i] == url[LastSlash(url) + 1 + i];
    }
  }

  /** A query after the last segment drops out of the segment. */
  lemma SegmentIgnoresQuery(url: string, query: string)
    requires '?' !in url && '/' !in query
    requires url == [] || url[|url| - 1] != '/'
    ensures Segment(url + "?" + query) == Segment(url)
  {
    var tail := "?" + query;
    var full := url + tail;
    assert url + "?" + query == full;
    QueryTailHasNoSlash(query);
    assert full[|full| - 1] == tail[|query|];
    assert StripTrailingSlash(full) == full;
    assert StripTrailingSlash(url) == url;
    LastSegmentAppend(url, tail);
    var seg := LastSegment(url);
    SegmentHasNoQuery(url);
    assert seg + tail == seg + "?" + query;
    BeforeQueryWhole(seg, query);
  }

  /** A query after the page name makes no difference. */
  lemma QueryIgnored(url: string, query: string)
    requires '?' !in url && '/' !in query
    requires url == [] || url[|url| - 1] != '/'
    ensures CurrentPage(url + "?" + query) == CurrentPage(url)
  {
    SegmentIgnoresQuery(url, query);
  }

  // ---------------------------------------------------------------- page URLs

  function Dash(c: char): char
  {
    if c == ' ' then '-' else c
  }

  /** `createPageUrl`: a slash, then the name with every space turned into a dash. */
  function CreatePageUrl(pageName: string): (r: string)
    ensures |r| == |pageName| + 1 && r[0] == '/'
    ensures forall i :: 0 <= i < |pageName| ==> r[i + 1] == (if pageName[i] == ' ' then '-' else pageName[i])
    ensures ' ' !in r
    ensures ' ' !in pageName ==> r == "/" + pageName
  {
    var r := "/" + Map(pageName, Dash);
    assert forall i :: 0 <= i < |r| ==> r[i] != ' ';
    r
  }

  /** The URL made for a page leads back to that page. */
  lemma CreatePageUrlRoundTrip(k: int)
    requires 0 <= k < |Pages|
    ensures CurrentPage(CreatePageUrl(Pages[k])) == Pages[k]
  {
    var p := Pages[k];
    PageNameShape(k);
    SegmentOfPath(p);
    CurrentPageCanonical("/" + p, k);
  }

  /** Dashes for spaces distributes over concatenation. */
  lemma CreatePageUrlAppend(a: string, b: string)
    ensures CreatePageUrl(a + b) == CreatePageUrl(a) + Map(b, Dash)
  {
    var l, r := CreatePageUrl(a + b), CreatePageUrl(a) + Map(b, Dash);
    forall i | 0 <= i < |l|
      ensures l[i] == r[i]
    {
      if 0 < i <= |a| {
        assert (a + b)[i - 1] == a[i - 1];
      } else if i > |a| {
        assert (a + b)[i - 1] == b[i - 1 - |a|];
      }
    }
  }

  /** Page names have no space, slash or question mark. */
  lemma PageNameShape(k: int)
    requires 0 <= k < |Pages|
    ensures Pages[k] != [] && ' ' !in Pages[k] && '/' !in Pages[k] && '?' !in Pages[k]
  {
    assert Letters(Pages[k]);
    LettersHaveNoSeparator(Pages[k]);
  }

  /** Only ASCII letters. */
  predicate Letters(s: string)
  {
    forall i :: 0 <= i < |s| ==> 'A' <= s[i] <= 'Z' || 'a' <= s[i] <= 'z'
  }

  lemma LettersHaveNoSeparator(s: string)
    requires Letters(s)
    ensures ' ' !in s && '/' !in s && '?' !in s
  {
  }

  /** The link made from a name without spaces and a query string. */
  lemma LinkWithQuery(name: string, query: string)
    requires ' ' !in name
    ensures CreatePageUrl(name + "?" + query) == ("/" + name) + "?" + Map(query, Dash)
  {
    CreatePageUrlAppend(name + "?", query);
    CreatePageUrlAppend(name, "?");
    assert Map("?", Dash) == "?";
  }

  lemma DashedHasNoSlash(query: string)
    requires '/' !in query
    ensures '/' !in Map(query, Dash)
  {
    var dashed := Map(query, Dash);
    forall i | 0 <= i < |dashed|
      ensures dashed[i] != '/'
    {
      assert query[i] in query;
    }
  }

  /** The segment of a link made from a plain name and a query string is the name. */
  lemma SegmentOfLinkWithQuery(name: string, query: string)
    requires name != [] && ' ' !in name && '/' !in name && '?' !in name && '/' !in query
    ensures Segment(CreatePageUrl(name + "?" + query)) == name
  {
    LinkWithQuery(name, query);
    DashedHasNoSlash(query);
    var path := "/" + name;
    assert path[|name|] == name[|name| - 1] && name[|name| - 1] in name;
    assert '?' !in path by {
      forall i | 0 <= i < |path|
        ensures path[i] != '?'
      {
        if i > 0 {
          assert path[i] == name[i - 1] && name[i - 1] in name;
        }
      }
    }
    SegmentIgnoresQuery(path, Map(query, Dash));
    SegmentOfPath(name);
  }

  /** A page link with a query string (`Page?key=value`) selects the page when the query has no slash. */
  lemma PageLinkWithQuery(k: int, query: string)
    requires 0 <= k < |Pages| && '/' !in query
    ensures CurrentPage(CreatePageUrl(Pages[k] + "?" + query)) == Pages[k]
  {
    PageNameShape(k);
    SegmentOfLinkWithQuery(Pages[k], query);
    CurrentPageCanonical(CreatePageUrl(Pages[k] + "?" + query), k);
  }

  /**
   * The router sends the link a listing card makes, `ApplyForRental?property_id=<id>`, to the
   * application form's page. Whether the form then finds the property is the form's own reading
   * of the query, which this lemma does not cover.
   */
  lemma ApplyLinkRoutesToForm(propertyId: string)
    requires '/' !in propertyId
    ensures CurrentPage(CreatePageUrl("ApplyForRental?property_id=" + propertyId)) == "ApplyForRental"
  {
    var key := "property_id=";
    var query := key + propertyId;
    assert '/' !in key;
    NoSlashInConcat(key, propertyId);
    assert "ApplyForRental?property_id=" == Pages[3] + "?" + key;
    assert "ApplyForRental?property_id=" + propertyId == Pages[3] + "?" + query;
    PageLinkWithQuery(3, query);
  }

  lemma NoSlashInConcat(s: string, t: string)
    requires '/' !in s && '/' !in t
    ensures '/' !in s + t
  {
    var u := s + t;
    forall i | 0 <= i < |u|
      ensures u[i] != '/'
    {
      if i < |s| {
        assert u[i] == s[i] && s[i] in s;
      } else {
        assert u[i] == t[i - |s|] && t[i - |s|] in t;
      }
    }
  }
}
