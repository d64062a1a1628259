/** The portfolio header: horizon and risk dropdowns, and the link to the sector rotation. */
module PortfolioHeader {
  import opened Wrappers
  import opened PortfolioTypes
  import SearchParams

  datatype MenuKind = HorizonMenu | RiskMenu

  /** The query parameter a menu sets. */
  function ParamName(kind: MenuKind): string {
    match kind
    case HorizonMenu => "horizon"
    case RiskMenu => "risk"
  }

  /** `displayOptions`: all options, or only the free combination once the limit is reached. */
  function DisplayOptions(isLimitReached: bool, kind: MenuKind, options: seq<string>): (r: seq<string>)
    ensures !isLimitReached ==> r == options
    ensures isLimitReached && kind == RiskMenu ==> r == ["medium"]
    ensures isLimitReached && kind == HorizonMenu ==> r == ["month"]
  {
    if !isLimitReached then options
    else if kind == RiskMenu then ["medium"]
    else ["month"]
  }

  /** Once the limit is reached the two menus offer only the always-free combination. */
  lemma LimitLeavesFreeCombination()
    ensures DisplayOptions(true, RiskMenu, ValidRisks) == ["medium"]
    ensures DisplayOptions(true, HorizonMenu, ValidHorizons) == ["month"]
    ensures "medium" in ValidRisks && "month" in ValidHorizons
  {
  }

  /** `portfolioUrl` */
  function PortfolioUrl(horizon: Option<string>, risk: Option<string>): (url: string)
    ensures Truthy(horizon) && Truthy(risk) ==>
      url == "/product/rotations?risk=" + risk.value + "&horizon=" + horizon.value
    ensures !(Truthy(horizon) && Truthy(risk)) ==> url == "/product/rotations"
  {
    if Truthy(horizon) && Truthy(risk) then
      "/product/rotations?risk=" + risk.value + "&horizon=" + horizon.value
    else "/product/rotations"
  }

  datatype Item = Item(option: string, isCurrent: bool)

  /** A dropdown: its caption (`current || 'N/A'`) and, while open, its items. */
  datatype Dropdown = Dropdown(caption: string, items: Option<seq<Item>>)

  datatype Navigation = Navigation(path: string, params: seq<SearchParams.Param>)

  class Header {
    var openMenu: Option<MenuKind>
    var isLimitReached: bool

    /** `isLimitReached` defaults to false; the menus start closed. */
    constructor (isLimitReached: Option<bool>)
      ensures this.isLimitReached == isLimitReached.GetOr(false)
      ensures openMenu.None?
    {
      this.isLimitReached := isLimitReached.GetOr(false);
      openMenu := None;
    }

    /** Clicking a menu's label closes it when open and opens it (closing the other) otherwise. */
    method ClickLabel(kind: MenuKind)
      modifies this`openMenu
      ensures old(openMenu) == Some(kind) ==> openMenu.None?
      ensures old(openMenu) != Some(kind) ==> openMenu == Some(kind)
    {
      openMenu := if openMenu == Some(kind) then None else Some(kind);
    }

    method ClickOutside()
      modifies this`openMenu
      ensures openMenu.None?
    {
      openMenu := None;
    }

    /** `handleChange`: set one parameter of the current query, navigate, and close the menu. */
    method HandleChange(query: seq<SearchParams.Param>, kind: MenuKind, value: string)
      returns (nav: Navigation)
      modifies this`openMenu
      ensures nav.path == "/product/portfolio"
      ensures nav.params == SearchParams.Set(query, ParamName(kind), value)
      ensures SearchParams.Get(nav.params, ParamName(kind)) == Some(value)
      ensures forall other :: other != ParamName(kind) ==>
        SearchParams.Named(nav.params, other) == SearchParams.Named(query, other)
      ensures openMenu.None?
    {
      nav := Navigation("/product/portfolio", SearchParams.Set(query, ParamName(kind), value));
      openMenu := None;
    }

    /** `renderDropdown(current, options, type)` */
    function RenderDropdown(current: Option<string>, options: seq<string>, kind: MenuKind): (d: Dropdown)
      reads this
      ensures d.caption == if Truthy(current) then current.value else "N/A"
      ensures d.items.Some? <==> openMenu == Some(kind)
      ensures d.items.Some? ==>
        var shown := DisplayOptions(isLimitReached, kind, options);
        |d.items.value| == |shown| &&
        forall i :: 0 <= i < |shown| ==>
          d.items.value[i].option == shown[i] &&
          (d.items.value[i].isCurrent <==> current == Some(shown[i]))
    {
      var shown := DisplayOptions(isLimitReached, kind, options);
      Dropdown(if Truthy(current) then current.value else "N/A",
        if openMenu == Some(kind) then
          Some(seq(|shown|, i requires 0 <= i < |shown| => Item(shown[i], current == Some(shown[i]))))
        else None)
    }
  }
}
