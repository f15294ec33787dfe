/**
 * The display rules of the net-worth screen: the asset and liability labels,
 * the legend colours, and what the screen shows for each state.
 */
module NetWorthScreen {
  import opened Common
  import opened Text
  import opened Domain
  import opened ViewState

  const NET_WORTH_LOAD_FAILED := "Failed to load net worth"

  /** The asset chart's slice colours, also used by its legend. */
  const ASSET_PALETTE: seq<int> := [0xFF4CAF50, 0xFF2196F3, 0xFFFFA726, 0xFF9C27B0]

  /** The liability chart's slice colours, also used by its legend. */
  const LIABILITY_PALETTE: seq<int> := [0xFFF44336, 0xFFFF5722, 0xFFE91E63, 0xFFFF9800]

  /**
   * The label of a key without a table entry: every underscore becomes a space,
   * the text is lower-cased and its first character title-cased.
   */
  function Humanize(key: string): (shown: string)
    ensures |shown| == |key|
    ensures EqualsIgnoreCase(shown, ReplaceChar(key, '_', ' '))
    ensures forall i :: 0 <= i < |shown| ==> shown[i] != '_'
    ensures |shown| > 0 ==> !IsLowerAscii(shown[0])
    ensures forall i :: 1 <= i < |shown| ==> !IsUpperAscii(shown[i])
  {
    var spaced := ReplaceChar(key, '_', ' ');
    var lower := Lowercase(spaced);
    var shown := CapitalizeFirst(lower);
    assert Lowercase(shown) == Lowercase(spaced) by {
      forall i | 0 <= i < |shown| ensures Lowercase(shown)[i] == Lowercase(spaced)[i] {
        if i == 0 {
          assert shown[0] == TitleChar(LowerChar(spaced[0]));
        } else {
          assert shown[i] == lower[i];
        }
      }
    }
    shown
  }

  /** `formatAssetLabel`: a fixed table for the four known keys, `Humanize` for the rest. */
  function FormatAssetLabel(key: string): (text: string)
    ensures key !in {"STOCK", "CASH", "LENDING", "OTHER"} ==> text == Humanize(key)
    ensures '_' !in text
  {
    match key
    case "STOCK" => "Stocks"
    case "CASH" => "Cash"
    case "LENDING" => "Lending"
    case "OTHER" => "Other Assets"
    case _ => Humanize(key)
  }

  /** `formatLiabilityLabel`: a fixed table for the two known keys, `Humanize` for the rest. */
  function FormatLiabilityLabel(key: string): (text: string)
    ensures key !in {"PERSONAL_LOAN", "OTHER"} ==> text == Humanize(key)
    ensures '_' !in text
  {
    match key
    case "PERSONAL_LOAN" => "Personal Loan"
    case "OTHER" => "Other Liabilities"
    case _ => Humanize(key)
  }

  lemma AssetLabels(key: string)
    ensures FormatAssetLabel("STOCK") == "Stocks" && FormatAssetLabel("CASH") == "Cash"
    ensures FormatAssetLabel("LENDING") == "Lending" && FormatAssetLabel("OTHER") == "Other Assets"
    ensures key !in {"STOCK", "CASH", "LENDING", "OTHER"} ==> FormatAssetLabel(key) == Humanize(key)
  {
  }

  lemma LiabilityLabels(key: string)
    ensures FormatLiabilityLabel("PERSONAL_LOAN") == "Personal Loan"
    ensures FormatLiabilityLabel("OTHER") == "Other Liabilities"
    ensures key !in {"PERSONAL_LOAN", "OTHER"} ==> FormatLiabilityLabel(key) == Humanize(key)
  {
  }

  /** The fallback of an empty key is empty. */
  lemma HumanizeEmpty()
    ensures Humanize("") == ""
  {
  }

  /**
   * The table wins: PERSONAL_LOAN shows "Personal Loan", a label the fallback
   * gives for no key at all, since it never leaves an upper-case letter after
   * the first character.
   */
  lemma TableWinsOverFallback(key: string)
    ensures FormatLiabilityLabel("PERSONAL_LOAN") == "Personal Loan"
    ensures Humanize(key) != "Personal Loan"
  {
    var shown := Humanize(key);
    if |shown| == 13 {
      assert !IsUpperAscii(shown[9]);
      assert IsUpperAscii("Personal Loan"[9]);
    }
  }

  /** `colors[index % colors.size]`: the colour of the chart slice at `index`. */
  function SliceColor(palette: seq<int>, index: nat): (color: int)
    requires |palette| > 0
    ensures color in palette
  {
    palette[index % |palette|]
  }

  /** The asset legend's `when (index % 4)`. */
  function AssetLegendColor(index: nat): (color: int)
    ensures color == ASSET_PALETTE[index % 4]
  {
    match index % 4
    case 0 => 0xFF4CAF50
    case 1 => 0xFF2196F3
    case 2 => 0xFFFFA726
    case _ => 0xFF9C27B0
  }

  /** The liability legend's `when (index % 4)`. */
  function LiabilityLegendColor(index: nat): (color: int)
    ensures color == LIABILITY_PALETTE[index % 4]
  {
    match index % 4
    case 0 => 0xFFF44336
    case 1 => 0xFFFF5722
    case 2 => 0xFFE91E63
    case _ => 0xFFFF9800
  }

  /**
   * A legend entry's colour depends only on its index modulo four, and is the
   * colour of the chart slice at the same index.
   */
  lemma LegendColors(index: nat)
    ensures AssetLegendColor(index) == AssetLegendColor(index % 4) == SliceColor(ASSET_PALETTE, index)
    ensures LiabilityLegendColor(index) == LiabilityLegendColor(index % 4) == SliceColor(LIABILITY_PALETTE, index)
  {
  }

  /** The cards of the net-worth content, top to bottom. */
  datatype NetWorthCard = SummaryCard | AssetsLiabilitiesCard | PortfolioSavingsRow | LoansLendingsRow
    | TaxLiabilityCard | AssetBreakdownChart | LiabilityBreakdownChart

  /**
   * The cards shown for a loaded net worth: the tax card only for a positive
   * outstanding tax liability, each breakdown chart only when its map is not empty.
   */
  function NetWorthCards(n: NetWorthResponse): (cards: seq<NetWorthCard>)
    ensures TaxLiabilityCard in cards <==> n.outstandingTaxLiability > 0.0
    ensures AssetBreakdownChart in cards <==> n.assetBreakdown != []
    ensures LiabilityBreakdownChart in cards <==> n.liabilityBreakdown != []
    ensures 4 <= |cards| <= 7
    ensures cards[..4] == [SummaryCard, AssetsLiabilitiesCard, PortfolioSavingsRow, LoansLendingsRow]
    ensures forall i, j :: 0 <= i < j < |cards| ==> cards[i] != cards[j]
  {
    [SummaryCard, AssetsLiabilitiesCard, PortfolioSavingsRow, LoansLendingsRow]
    + (if n.outstandingTaxLiability > 0.0 then [TaxLiabilityCard] else [])
    + (if n.assetBreakdown != [] then [AssetBreakdownChart] else [])
    + (if n.liabilityBreakdown != [] then [LiabilityBreakdownChart] else [])
  }

  /** What the net-worth screen shows for its holder's state. */
  function NetWorthView(state: Option<Resource<NetWorthResponse>>): (v: ScreenContent<NetWorthResponse>)
    ensures v.ShowLoading? <==> state == None || state == Some(Loading)
    ensures v.ShowError? <==> state.Some? && state.value.Error?
    ensures v.ShowError? ==> v.message == state.value.message.GetOr(NET_WORTH_LOAD_FAILED)
  {
    Render(state, NET_WORTH_LOAD_FAILED)
  }

  /** Before any state, and while loading, the spinner; an Error without a message shows the screen's own text. */
  lemma NetWorthViewFallbacks()
    ensures NetWorthView(None) == ShowLoading
    ensures NetWorthView(Some(Loading)) == ShowLoading
    ensures NetWorthView(Some(Error(None))) == ShowError(NET_WORTH_LOAD_FAILED)
    ensures NetWorthView(Some(Success(None))) == ShowNothing
  {
  }
}
