/** The dashboard layout: the signed-in guard and the page title taken from the route. */
module DashboardLayout {
  import opened Wrappers
  import opened Text
  import opened Schema

  /** getPageTitle: "Dashboard" at the root, else the path after its first character, capitalised. */
  function PageTitle(location: string): (r: string)
    ensures |location| <= 1 ==> r == "Dashboard"
    ensures |location| >= 2 ==> |r| == |location| - 1 && r[0] == ToUpperChar(location[1])
    ensures |location| >= 2 ==> forall i :: 1 <= i < |r| ==> r[i] == location[i + 1]
  {
    var path := if |location| >= 1 then location[1..] else "";
    if path == "" then "Dashboard"
    else [ToUpperChar(path[0])] + path[1..]
  }

  /**
   * The title is the route itself, re-capitalised and nothing more: for a
   * route "/x…" whose second character is not an upper-case letter,
   * lower-casing the title's first letter and putting the slash back gives
   * the route.
   */
  lemma PageTitleRoundTrip(location: string)
    requires |location| >= 2 && location[0] == '/' && !('A' <= location[1] <= 'Z')
    ensures var r := PageTitle(location); "/" + [ToLowerChar(r[0])] + r[1..] == location
  {
    var r := PageTitle(location);
    assert r[1..] == location[2..];
  }

  /** The layout renders nothing without a signed-in user; otherwise it shows the page title. */
  function Layout(user: Option<User>, location: string): (shown: Option<string>)
    ensures shown.None? <==> user.None?
    ensures shown.Some? ==> shown.value == PageTitle(location)
  {
    if user.None? then None else Some(PageTitle(location))
  }
}
