/** The dashboard: a 3x3 matrix of (risk, horizon) cards gated by subscription tier. */
module DashboardPage {
  import opened Wrappers

  /** A card of the matrix, with the display labels the page uses for risk and horizon. */
  datatype Card = Card(risk: string, horizon: string, title: string)

  const RiskLabels: seq<string> := ["Low", "Medium", "High"]
  const HorizonLabels: seq<string> := ["1 Week", "2-4 Weeks", "1 Year"]

  /** `dashboardMatrixData`, row by row. */
  const Matrix: seq<Card> := [
    Card("Low", "1 Week", "Low Risk / 1 Week"),
    Card("Low", "2-4 Weeks", "Low Risk / 2-4 Weeks"),
    Card("Low", "1 Year", "Low Risk / 1 Year"),
    Card("Medium", "1 Week", "Medium Risk / 1 Week"),
    Card("Medium", "2-4 Weeks", "Medium Risk / 2-4 Weeks"),
    Card("Medium", "1 Year", "Medium Risk / 1 Year"),
    Card("High", "1 Week", "High Risk / 1 Week"),
    Card("High", "2-4 Weeks", "High Risk / 2-4 Weeks"),
    Card("High", "1 Year", "High Risk / 1 Year")]

  /** The matrix is the product of the risk and horizon labels, one card per combination. */
  lemma MatrixIsProduct()
    ensures |Matrix| == |RiskLabels| * |HorizonLabels| == 9
    ensures forall i :: 0 <= i < 9 ==>
      Matrix[i].risk == RiskLabels[i / 3] && Matrix[i].horizon == HorizonLabels[i % 3]
    ensures forall i, j :: 0 <= i < j < 9 ==>
      (Matrix[i].risk, Matrix[i].horizon) != (Matrix[j].risk, Matrix[j].horizon)
  {
  }

  /** `isFreeAccess`: of the nine cards, only the fifth (Medium / 2-4 Weeks) is exempt. */
  function IsFreeAccess(card: Card): (r: bool)
    ensures card in Matrix ==> (r <==> card == Matrix[4])
  {
    card.risk == "Medium" && card.horizon == "2-4 Weeks"
  }

  /**
   * `isLocked`. The page as written reads a `userTier` it never declares (see `ViewAsWritten`);
   * here `tier` is the tier string the lock test was meant to read.
   */
  predicate IsLocked(tier: string, card: Card) {
    tier == "FREE" && !IsFreeAccess(card)
  }

  /** Exactly one card of the matrix is exempt: Medium / 2-4 Weeks. */
  lemma OnlyOneExemptCard()
    ensures forall i :: 0 <= i < |Matrix| ==> (IsFreeAccess(Matrix[i]) <==> i == 4)
    ensures Matrix[4].risk == "Medium" && Matrix[4].horizon == "2-4 Weeks"
  {
  }

  /** A FREE user sees eight locked cards; any other tier string locks nothing. */
  lemma LockedCards(tier: string)
    ensures tier == "FREE" ==> forall i :: 0 <= i < |Matrix| ==> (IsLocked(tier, Matrix[i]) <==> i != 4)
    ensures tier != "FREE" ==> forall i :: 0 <= i < |Matrix| ==> !IsLocked(tier, Matrix[i])
  {
  }

  datatype Link = Link(name: string, href: string)

  /** The card's two links, carrying its risk and horizon in the query. */
  function CardLinks(card: Card): (links: seq<Link>)
    ensures |links| == 2
    ensures links[0].name == "Sector Rotation" && links[1].name == "Portfolio"
    ensures links[0].href == "/dashboard/sector-rotation" + CardQuery(card)
    ensures links[1].href == "/dashboard/portfolio" + CardQuery(card)
  {
    [Link("Sector Rotation", "/dashboard/sector-rotation" + CardQuery(card)),
     Link("Portfolio", "/dashboard/portfolio" + CardQuery(card))]
  }

  function CardQuery(card: Card): string {
    "?risk=" + card.risk + "&horizon=" + card.horizon
  }

  /** `DashboardCard`'s link targets: all `/upgrade` when locked, the originals otherwise. */
  function DisplayedHrefs(isLocked: bool, links: seq<Link>): (hrefs: seq<string>)
    ensures |hrefs| == |links|
    ensures isLocked ==> forall i :: 0 <= i < |hrefs| ==> hrefs[i] == "/upgrade"
    ensures !isLocked ==> forall i :: 0 <= i < |hrefs| ==> hrefs[i] == links[i].href
  {
    seq(|links|, i requires 0 <= i < |links| => if isLocked then "/upgrade" else links[i].href)
  }

  datatype CardView = CardView(title: string, isLocked: bool, hrefs: seq<string>)

  datatype DashboardView =
    | Authenticating
    | AccessDenied
    | Grid(cards: seq<CardView>)

  /** Reading an identifier that no scope declares throws. */
  datatype RenderError = ReferenceErrorUserTier

  /**
   * The page as written: the lock test inside the matrix `map` reads `userTier`, which the
   * component never declares (it takes only `{ user, loading }` from the auth context). The
   * first card of a signed-in, settled render therefore throws and no card is ever shown.
   */
  function ViewAsWritten(loading: bool, hasUser: bool): (r: Result<DashboardView, RenderError>)
    ensures loading ==> r == Ok(Authenticating)
    ensures !loading && !hasUser ==> r == Ok(AccessDenied)
    ensures !loading && hasUser ==> r == Err(ReferenceErrorUserTier)
  {
    if loading then Ok(Authenticating)
    else if !hasUser then Ok(AccessDenied)
    else Err(ReferenceErrorUserTier)
  }

  /**
   * Whatever tier the lock test was meant to read, the page as written agrees with `View`
   * while it renders, and it fails exactly where `View` would show the grid.
   */
  lemma ViewAsWrittenAgrees(loading: bool, hasUser: bool, tier: string)
    ensures ViewAsWritten(loading, hasUser).Ok? ==> ViewAsWritten(loading, hasUser).value == View(loading, hasUser, tier)
    ensures ViewAsWritten(loading, hasUser).Err? <==> View(loading, hasUser, tier).Grid?
  {
  }

  /** A signed-in user never sees a card: the render throws before the first one. */
  lemma SignedInDashboardThrows()
    ensures ViewAsWritten(false, true).Err?
    ensures View(false, true, "FREE").Grid?
  {
  }

  /**
   * The page as intended, for the auth state `{ user, loading }` and the tier the lock test
   * was meant to read.
   */
  function View(loading: bool, hasUser: bool, tier: string): (v: DashboardView)
    ensures loading ==> v == Authenticating
    ensures !loading && !hasUser ==> v == AccessDenied
    ensures !loading && hasUser ==>
      v.Grid? && |v.cards| == |Matrix| &&
      forall i :: 0 <= i < |Matrix| ==>
        v.cards[i].title == Matrix[i].title &&
        v.cards[i].isLocked == IsLocked(tier, Matrix[i]) &&
        v.cards[i].hrefs == DisplayedHrefs(IsLocked(tier, Matrix[i]), CardLinks(Matrix[i]))
  {
    if loading then Authenticating
    else if !hasUser then AccessDenied
    else Grid(seq(|Matrix|, i requires 0 <= i < |Matrix| =>
      CardView(Matrix[i].title, IsLocked(tier, Matrix[i]),
               DisplayedHrefs(IsLocked(tier, Matrix[i]), CardLinks(Matrix[i])))))
  }

  /** For a FREE user every card but the exempt one leads only to `/upgrade`. */
  lemma FreeUserLockedCards(i: nat)
    requires i < |Matrix| && i != 4
    ensures View(false, true, "FREE").cards[i].hrefs == ["/upgrade", "/upgrade"]
  {
    OnlyOneExemptCard();
    var hrefs := View(false, true, "FREE").cards[i].hrefs;
    assert hrefs == DisplayedHrefs(true, CardLinks(Matrix[i]));
  }

  /** The exempt card keeps its real destinations for a FREE user. */
  lemma FreeUserExemptCard()
    ensures Matrix[4].risk == "Medium" && Matrix[4].horizon == "2-4 Weeks"
    ensures View(false, true, "FREE").cards[4].hrefs == [
      "/dashboard/sector-rotation" + CardQuery(Matrix[4]),
      "/dashboard/portfolio" + CardQuery(Matrix[4])]
  {
    var links := CardLinks(Matrix[4]);
    assert !IsLocked("FREE", Matrix[4]);
    var hrefs := DisplayedHrefs(false, links);
    assert hrefs == [links[0].href, links[1].href];
  }
}
