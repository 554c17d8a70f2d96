/** The navigation bar's highlighting of the current route. */
module Navbar {
  import opened Text

  const HomePath := "/"
  const ToolsPath := "/tools"
  const SubscriptionsPath := "/subscriptions"
  /** The `navItems` paths, in order. */
  const NavPaths := [HomePath, ToolsPath, SubscriptionsPath]

  /** An item is active on its own path, and the tools item also on every
      path that starts with "/tools". */
  predicate IsActive(pathname: string, itemPath: string) {
    pathname == itemPath || (itemPath == ToolsPath && StartsWith(pathname, ToolsPath))
  }

  /** What the highlight amounts to for each of the three items; note that
      the prefix test also lights the tools item on a path such as
      "/toolshed". */
  lemma ActiveItems(pathname: string)
    ensures IsActive(pathname, HomePath) <==> pathname == "/"
    ensures IsActive(pathname, ToolsPath) <==> |pathname| >= 6 && pathname[..6] == "/tools"
    ensures IsActive(pathname, SubscriptionsPath) <==> pathname == "/subscriptions"
  {
  }

  /** No path highlights two items. */
  lemma AtMostOneActive(pathname: string, i: nat, j: nat)
    requires i < |NavPaths| && j < |NavPaths|
    requires IsActive(pathname, NavPaths[i]) && IsActive(pathname, NavPaths[j])
    ensures i == j
  {
    if StartsWith(pathname, ToolsPath) {
      assert pathname[1] == 't';
    }
  }
}
