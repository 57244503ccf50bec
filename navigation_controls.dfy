/**
 * The router's current path and the keyboard rule of `useNavigationControls`:
 * Escape leaves the free-flight explore view for the hub; no other key and no
 * other path moves the router.
 */
module NavigationControls {
  import opened Wrappers

  const Explore: string := "/explore"
  const Hub: string := "/"

  /** The path `handleKeyDown` navigates to for a key code on a path, if any. */
  function EscapeTarget(code: string, pathname: string): (target: Option<string>)
    ensures target.Some? <==> code == "Escape" && pathname == Explore
    ensures target.Some? ==> target.value == Hub
  {
    if code == "Escape" then
      if pathname == Explore then Some(Hub) else None
    else None
  }

  /** The path after a key press. */
  function AfterKey(code: string, pathname: string): string {
    match EscapeTarget(code, pathname)
    case Some(p) => p
    case None => pathname
  }

  /** Escape on the explore view goes to the hub, and any other key or path stays where it is. */
  lemma KeyOutcome(code: string, pathname: string)
    ensures code == "Escape" && pathname == Explore ==> AfterKey(code, pathname) == Hub
    ensures code != "Escape" || pathname != Explore ==> AfterKey(code, pathname) == pathname
  {
  }

  /** After an Escape the path is never the explore view, so a second Escape changes nothing. */
  lemma EscapeIdempotent(pathname: string)
    ensures AfterKey("Escape", pathname) != Explore
    ensures AfterKey("Escape", AfterKey("Escape", pathname)) == AfterKey("Escape", pathname)
  {
    assert Hub != Explore by {
      assert |Hub| == 1 && |Explore| == 8;
    }
  }

  /** The router of the page: its current path, changed by `navigate`. */
  class Router {
    var pathname: string

    constructor (pathname: string)
      ensures this.pathname == pathname
    {
      this.pathname := pathname;
    }

    method Navigate(path: string)
      modifies this
      ensures pathname == path
    {
      pathname := path;
    }

    /** The window's `keydown` listener. */
    method HandleKeyDown(code: string)
      modifies this
      ensures pathname == AfterKey(code, old(pathname))
      ensures EscapeTarget(code, old(pathname)).None? ==> pathname == old(pathname)
    {
      if code == "Escape" {
        if pathname == Explore {
          Navigate(Hub);
        }
      }
    }
  }
}
