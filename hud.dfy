/**
 * The heads-up display: a fixed table of eight sectors, one button each, and
 * the `activeSector` it highlights, which only a click on a button changes.
 */
module Hud {
  import opened NavigationControls
  import SectorContent

  datatype Sector = Sector(id: string, name: string, path: string)

  const Sectors: seq<Sector> := [
    Sector("explore", "EXPLORE UNIVERSE", "/explore"),
    Sector("launch-bay", "LAUNCH BAY", "/"),
    Sector("mission-control", "MISSION CONTROL", "/about"),
    Sector("reward-vault", "REWARD VAULT", "/prizes"),
    Sector("alliance-station", "ALLIANCE STATION", "/sponsors"),
    Sector("command-crew", "COMMAND CREW", "/judges"),
    Sector("communication-hub", "COMMUNICATION HUB", "/faq"),
    Sector("docking-bay", "DOCKING BAY", "/register")
  ]

  /**
   * The buttons and the routed content agree: every button other than
   * EXPLORE UNIVERSE leads to a route with a heading, and the explore path,
   * where the content is not rendered, has none.
   */
  lemma SectorsWithContent(i: nat)
    requires i < |Sectors|
    ensures SectorContent.Title(Sectors[i].path).Some? <==> Sectors[i].path != "/explore"
    ensures Sectors[i].path == "/explore" <==> i == 0
  {
    SectorContent.TitleDefined(Sectors[i].path);
  }

  /** Eight sectors, no two with the same id or the same path. */
  lemma SectorsDistinct(i: nat, j: nat)
    requires i < j < |Sectors|
    ensures |Sectors| == 8
    ensures Sectors[i].id != Sectors[j].id
    ensures Sectors[i].path != Sectors[j].path
  {
  }

  /** The `$active` test of a button. */
  function IsActive(activeSector: string, s: Sector): bool {
    activeSector == s.path
  }

  /** At most one button is highlighted, whatever the active sector is. */
  lemma AtMostOneActive(activeSector: string, i: nat, j: nat)
    requires i < j < |Sectors|
    ensures !(IsActive(activeSector, Sectors[i]) && IsActive(activeSector, Sectors[j]))
  {
    SectorsDistinct(i, j);
  }

  /** After a click on button `i`, button `j` is highlighted exactly when it is the same button. */
  lemma ClickHighlights(i: nat, j: nat)
    requires i < |Sectors| && j < |Sectors|
    ensures IsActive(Sectors[i].path, Sectors[j]) <==> i == j
  {
    if i < j {
      SectorsDistinct(i, j);
    } else if j < i {
      SectorsDistinct(j, i);
    }
  }

  class HudState {
    const router: Router
    var activeSector: string

    /** The highlighted sector starts as the path the page was opened on. */
    constructor (router: Router)
      ensures this.router == router && activeSector == router.pathname
    {
      this.router := router;
      activeSector := router.pathname;
    }

    /** `handleNavigation`: highlight the path and send the router there. */
    method HandleNavigation(path: string)
      modifies this, router
      ensures activeSector == path && router.pathname == path
    {
      activeSector := path;
      router.Navigate(path);
    }
  }
}
