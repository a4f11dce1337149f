/**
 * The landing site's footer, hidden on the sign-up page and on every path
 * that starts with "/dashboard".
 */
module ConditionalFooter {
  import opened Wrappers

  /** The footer component, rendered with its default props. */
  datatype Footer = Footer2

  predicate HidesFooter(pathname: string) {
    pathname == "/signup" || "/dashboard" <= pathname
  }

  function ConditionalFooter(pathname: string): (r: Option<Footer>)
    ensures r.None? <==> pathname == "/signup" || "/dashboard" <= pathname
    ensures r.Some? ==> r.value == Footer2
  {
    if HidesFooter(pathname) then None else Some(Footer2)
  }

  /** The prefix test is on characters, not path segments: /dashboardx is
      hidden too, while paths below /signup still show the footer. */
  lemma PrefixNotSegment()
    ensures ConditionalFooter("/dashboardx") == None
    ensures ConditionalFooter("/signup/x") == Some(Footer2)
    ensures ConditionalFooter("/") == Some(Footer2)
  {
    assert !("/dashboard" <= "/signup/x") by { assert "/signup/x"[1] != "/dashboard"[1]; }
    assert !("/dashboard" <= "/");
  }
}
