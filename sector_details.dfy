/** The expanded panel of a sector row: full details, or an upsell prompt for base records. */
module SectorDetails {
  import opened Wrappers
  import opened SectorTypes

  datatype Block = Block(title: string, text: string)

  datatype DetailsView =
    | Upsell(links: seq<string>)
    | Details(blocks: seq<Block>)

  /** The titles of the detail blocks, in display order. */
  const BlockTitles: seq<string> := [
    "Market Context", "Phase & Health", "Rationale & Elliott Wave", "Risk & Volume",
    "Execution", "Allocation", "Targets", "Top Tickers"]

  /**
   * The panel for `sector`. `numberText` is JavaScript's conversion of a number to
   * text, used by the template literal of the Allocation block.
   */
  function Render(sector: SectorData, numberText: real -> string): (v: DetailsView)
    ensures v.Upsell? <==> !sector.HasMarketContext()
    ensures v.Upsell? ==> v.links == ["/login", "/signup"]
    ensures v.Details? ==>
      |v.blocks| == |BlockTitles| == 8 &&
      (forall i :: 0 <= i < 8 ==> v.blocks[i].title == BlockTitles[i])
    ensures v.Details? ==>
      var p := sector.pro.value;
      v.blocks[0].text == p.marketContext &&
      v.blocks[1].text == p.phaseAndHealth &&
      v.blocks[2].text == p.rationaleAndElliottWave &&
      v.blocks[3].text == p.riskAndVolumeProfile &&
      v.blocks[4].text == p.executionProtocol &&
      v.blocks[5].text == numberText(p.sectorPortfolioPercentage) + "%" &&
      v.blocks[6].text == p.weekTargets &&
      v.blocks[7].text == p.top3Tickers
  {
    match sector.pro
    case None => Upsell(["/login", "/signup"])
    case Some(p) =>
      Details([
        Block("Market Context", p.marketContext),
        Block("Phase & Health", p.phaseAndHealth),
        Block("Rationale & Elliott Wave", p.rationaleAndElliottWave),
        Block("Risk & Volume", p.riskAndVolumeProfile),
        Block("Execution", p.executionProtocol),
        Block("Allocation", numberText(p.sectorPortfolioPercentage) + "%"),
        Block("Targets", p.weekTargets),
        Block("Top Tickers", p.top3Tickers)])
  }

  /**
   * The choice of panel depends only on whether the extended fields are present:
   * all base records get the same upsell panel, and two records with the extended
   * fields get block lists with the same titles.
   */
  lemma ChoiceDependsOnlyOnPresence(a: SectorData, b: SectorData, numberText: real -> string)
    requires a.HasMarketContext() == b.HasMarketContext()
    ensures Render(a, numberText).Upsell? == Render(b, numberText).Upsell?
    ensures !a.HasMarketContext() ==> Render(a, numberText) == Render(b, numberText)
    ensures a.HasMarketContext() ==>
      forall i :: 0 <= i < 8 ==>
        Render(a, numberText).blocks[i].title == Render(b, numberText).blocks[i].title
  {
  }
}
