/** Breadcrumb generation of the application layout
    (src/layouts/AppLayout/AppLayout.tsx). */
module AppLayout {
  import opened Wrappers
  import opened Text

  /** A crumb; `text` is the source's `label` (a reserved word here). */
  datatype Crumb = Crumb(text: string, href: string, isLast: bool)

  /** `pathname.split('/').filter(Boolean)`. */
  function Segments(path: string): (segs: seq<string>)
    ensures forall i :: 0 <= i < |segs| ==> segs[i] != "" && '/' !in segs[i]
  {
    var parts := Split(path, '/');
    var r := NonEmpty(parts);
    assert forall i :: 0 <= i < |r| ==> '/' !in r[i] by {
      forall i | 0 <= i < |r| ensures '/' !in r[i] {
        assert r[i] in parts;
        var j :| 0 <= j < |parts| && parts[j] == r[i];
      }
    }
    r
  }

  /** The fixed label table. */
  function KnownLabel(seg: string): Option<string> {
    if seg == "dashboard" then Some("Dashboard")
    else if seg == "projects" then Some("Projects")
    else if seg == "tasks" then Some("Tasks")
    else if seg == "team" then Some("Team")
    else if seg == "reports" then Some("Reports")
    else if seg == "settings" then Some("Settings")
    else if seg == "analytics" then Some("Analytics")
    else if seg == "blank" then Some("Blank Page")
    else None
  }

  /** A segment's label: its table entry, else the segment with its first
      character upper-cased. */
  function SegmentLabel(seg: string): (r: string)
    ensures KnownLabel(seg).Some? ==> r == KnownLabel(seg).value
    ensures KnownLabel(seg).None? ==> |r| == |seg|
    ensures KnownLabel(seg).None? && |seg| > 0 ==> r[0] == UpperChar(seg[0]) && r[1..] == seg[1..]
  {
    var known := KnownLabel(seg);
    if known.Some? && known.value != "" then known.value
    else if |seg| == 0 then ""
    else Upper(seg[..1]) + seg[1..]
  }

  /** The link of the crumb for segment `i`: the path of segments `0..i`. */
  function Href(segs: seq<string>, i: nat): string
    requires i < |segs|
  {
    "/" + Join(segs[..i + 1], '/')
  }

  const DashboardCrumb := Crumb("Dashboard", "/dashboard", false)

  /** A leading Dashboard crumb unless the first segment is `dashboard`. */
  predicate HasLeadCrumb(segs: seq<string>) {
    |segs| == 0 || segs[0] != "dashboard"
  }

  function SegmentCrumb(segs: seq<string>, i: nat): Crumb
    requires i < |segs|
  {
    Crumb(SegmentLabel(segs[i]), Href(segs, i), i == |segs| - 1)
  }

  /** The crumbs of the first `n` segments. */
  function SegmentCrumbs(segs: seq<string>, n: nat): (r: seq<Crumb>)
    requires n <= |segs|
    ensures |r| == n
    ensures forall j :: 0 <= j < n ==> r[j] == SegmentCrumb(segs, j)
  {
    if n == 0 then [] else SegmentCrumbs(segs, n - 1) + [SegmentCrumb(segs, n - 1)]
  }

  /** The specification of `generateBreadcrumbs`. */
  function Breadcrumbs(path: string): (crumbs: seq<Crumb>)
    ensures var segs := Segments(path);
      |crumbs| == |segs| + (if HasLeadCrumb(segs) then 1 else 0)
  {
    var segs := Segments(path);
    (if HasLeadCrumb(segs) then [DashboardCrumb] else []) + SegmentCrumbs(segs, |segs|)
  }

  /** `generateBreadcrumbs`: the optional leading crumb, then one pushed per
      segment. */
  method GenerateBreadcrumbs(path: string) returns (crumbs: seq<Crumb>)
    ensures crumbs == Breadcrumbs(path)
  {
    var segs := Segments(path);
    crumbs := [];
    if |segs| == 0 || segs[0] != "dashboard" {
      crumbs := crumbs + [Crumb("Dashboard", "/dashboard", false)];
    }
    var lead := crumbs;
    var i := 0;
    while i < |segs|
      invariant 0 <= i <= |segs|
      invariant crumbs == lead + SegmentCrumbs(segs, i)
    {
      var isLast := i == |segs| - 1;
      var text := SegmentLabel(segs[i]);
      var href := "/" + Join(segs[..i + 1], '/');
      assert Crumb(text, href, isLast) == SegmentCrumb(segs, i);
      crumbs := crumbs + [Crumb(text, href, isLast)];
      assert crumbs == lead + (SegmentCrumbs(segs, i) + [SegmentCrumb(segs, i)]);
      i := i + 1;
    }
  }

  /** Exactly one crumb is last, the final segment's, when there are segments;
      none is last otherwise. */
  lemma OnlyFinalCrumbIsLast(path: string, k: nat)
    requires k < |Breadcrumbs(path)|
    ensures var segs := Segments(path);
      Breadcrumbs(path)[k].isLast <==> |segs| > 0 && k == |Breadcrumbs(path)| - 1
  {
  }

  /** The leading crumb is the Dashboard link, present iff the path does not
      start with the `dashboard` segment (the root path included). */
  lemma LeadingCrumb(path: string)
    ensures HasLeadCrumb(Segments(path)) ==> Breadcrumbs(path)[0] == DashboardCrumb
    ensures Segments(path) == [] ==> Breadcrumbs(path) == [DashboardCrumb]
  {
  }

  /** Each segment's link extends the previous one by `/` and the segment. */
  lemma HrefExtends(segs: seq<string>, i: nat)
    requires i + 1 < |segs|
    ensures Href(segs, i + 1) == Href(segs, i) + "/" + segs[i + 1]
  {
    assert segs[..i + 2] == segs[..i + 1] + [segs[i + 1]];
    JoinSnoc(segs[..i + 1], segs[i + 1], '/');
  }

  /** A slash splits a path into independent parts. */
  lemma SegmentsAround(a: string, b: string)
    ensures Segments(a + "/" + b) == Segments(a) + Segments(b)
  {
    SplitAround(a, b, '/');
    NonEmptyConcat(Split(a, '/'), Split(b, '/'));
  }

  lemma SegmentsOfEmpty()
    ensures Segments("") == []
  {
    assert Split("", '/') == [""];
  }

  /** A leading slash does not matter. */
  lemma LeadingSlash(b: string)
    ensures Segments("/" + b) == Segments(b)
  {
    SegmentsAround("", b);
    assert "" + "/" + b == "/" + b;
    SegmentsOfEmpty();
  }

  /** Repeated slashes do not matter. */
  lemma DoubleSlash(a: string, b: string)
    ensures Segments(a + "//" + b) == Segments(a + "/" + b)
  {
    var tail := "/" + b;
    SegmentsAround(a, tail);
    assert a + "//" + b == a + "/" + tail;
    LeadingSlash(b);
    SegmentsAround(a, b);
  }

  /** A trailing slash does not matter. */
  lemma TrailingSlash(a: string)
    ensures Segments(a + "/") == Segments(a)
  {
    SegmentsAround(a, "");
    assert a + "/" + "" == a + "/";
    SegmentsOfEmpty();
    assert Segments(a) + [] == Segments(a);
  }

  /** `filter(Boolean)` keeps a list without empty strings as it is. */
  lemma {:induction false} NonEmptyKeeps(parts: seq<string>)
    requires forall i :: 0 <= i < |parts| ==> parts[i] != ""
    ensures NonEmpty(parts) == parts
  {
    if |parts| > 0 {
      NonEmptyKeeps(parts[1..]);
      assert parts == [parts[0]] + parts[1..];
    }
  }

  /** Following the link of segment `i` leads to a path whose segments are
      exactly the first `i + 1` segments. */
  lemma HrefRoundTrip(path: string, i: nat)
    requires i < |Segments(path)|
    ensures Segments(Href(Segments(path), i)) == Segments(path)[..i + 1]
  {
    var segs := Segments(path);
    var prefix := segs[..i + 1];
    var joined := Join(prefix, '/');
    SplitJoin(prefix, '/');
    NonEmptyKeeps(prefix);
    LeadingSlash(joined);
    assert "/" + joined == Href(segs, i);
  }
}
