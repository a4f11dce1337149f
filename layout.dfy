/**
 * The page layout: every page but the editor preview (/edit) gets the
 * sidebar, and the main area's margin follows that choice.
 */
module Layout {
  datatype SidebarKind = Sidebar

  datatype LayoutView = LayoutView(sidebar: bool, sidebarKind: SidebarKind, mainClass: string)

  predicate ShowSidebar(pathname: string) {
    pathname != "/edit"
  }

  /** Computed by the layout, but no longer used to pick the sidebar. */
  predicate IsApiRelatedPage(pathname: string) {
    pathname == "/api-marketplace" || pathname == "/api-deepsearch" || "/api-docs/" <= pathname
  }

  function Render(pathname: string): (v: LayoutView)
    ensures v.sidebar <==> pathname != "/edit"
    ensures v.mainClass == (if v.sidebar then "ml-64" else "w-full")
    ensures v.sidebarKind == Sidebar
  {
    var show := ShowSidebar(pathname);
    LayoutView(show, Sidebar, if show then "ml-64" else "w-full")
  }

  /** API pages get the same layout as any other page. */
  lemma ApiPagesUseDefaultSidebar(pathname: string)
    requires IsApiRelatedPage(pathname)
    ensures Render(pathname) == LayoutView(true, Sidebar, "ml-64")
  {
    assert !("/api-docs/" <= "/edit");
  }
}
