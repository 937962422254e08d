/** Path matching of the main navigation
    (src/layouts/AppLayout/components/NavMain.tsx). */
module NavMain {
  import opened Wrappers
  import opened Text
  import AppLayout

  /** A top-level item is current on its own URL and anywhere beneath it. */
  function IsCurrentPath(pathname: string, url: string): (r: bool)
    ensures r <==> (pathname == url ||
      (|pathname| > |url| && pathname[..|url|] == url && pathname[|url|] == '/'))
  {
    pathname == url || StartsWith(pathname, url + "/")
  }

  /** A prefix that does not end at a segment boundary does not count:
      `/dashboardx` is not beneath `/dashboard`. */
  lemma BoundaryRequired(url: string, x: string)
    requires |x| > 0 && x[0] != '/'
    ensures !IsCurrentPath(url + x, url)
  {
    var p := url + x;
    assert p[|url|] == x[0];
    assert (url + "/")[|url|] == '/';
    assert |p| >= |url| + 1 ==> p[..|url| + 1][|url|] == p[|url|];
  }

  /** Anything written beneath the URL is current. */
  lemma BeneathIsCurrent(url: string, rest: string)
    ensures IsCurrentPath(url + "/" + rest, url)
  {
    assert (url + "/" + rest)[..|url + "/"|] == url + "/";
  }

  /** When an item is current, the path's segments start with the item's. */
  lemma CurrentExtendsSegments(pathname: string, url: string)
    requires IsCurrentPath(pathname, url)
    ensures var u := AppLayout.Segments(url);
      |u| <= |AppLayout.Segments(pathname)| && AppLayout.Segments(pathname)[..|u|] == u
  {
    if pathname != url {
      var rest := pathname[|url| + 1..];
      assert pathname == url + "/" + rest;
      AppLayout.SegmentsAround(url, rest);
    }
  }

  /** An item's collapsible starts open when it is flagged active or current. */
  function DefaultOpen(isActive: Option<bool>, pathname: string, url: string): (r: bool)
    ensures isActive == Some(true) ==> r
    ensures IsCurrentPath(pathname, url) ==> r
    ensures r ==> isActive == Some(true) || IsCurrentPath(pathname, url)
  {
    isActive.GetOr(false) || IsCurrentPath(pathname, url)
  }

  /** A sub-item is active only on its exact URL. */
  function SubItemActive(pathname: string, url: string): (r: bool)
    ensures r ==> IsCurrentPath(pathname, url)
  {
    pathname == url
  }

  /** An active sub-item is current, but beneath its URL it is not active. */
  lemma SubItemStricterThanCurrent(url: string, rest: string)
    ensures SubItemActive(url, url) && IsCurrentPath(url, url)
    ensures !SubItemActive(url + "/" + rest, url) && IsCurrentPath(url + "/" + rest, url)
  {
    BeneathIsCurrent(url, rest);
    assert |url + "/" + rest| > |url|;
  }

  datatype NavigationState = NavIdle | NavLoading | NavSubmitting

  /** The router's navigation: its state and the pathname being navigated to. */
  datatype Navigation = Navigation(state: NavigationState, targetPath: Option<string>)

  /** A sub-item shows the loader while a navigation to its URL loads. */
  function IsLoadingTarget(nav: Navigation, url: string): (r: bool)
    ensures r <==> nav.state == NavLoading && nav.targetPath == Some(url)
  {
    var isNavigating := nav.state == NavLoading;
    isNavigating && nav.targetPath.Some? && nav.targetPath.value == url
  }

  /** At most one of several distinct sub-item URLs shows the loader. */
  lemma LoaderOnOneItem(nav: Navigation, u1: string, u2: string)
    requires u1 != u2
    ensures !(IsLoadingTarget(nav, u1) && IsLoadingTarget(nav, u2))
  {
  }
}
