/**
 * The display rules of the portfolio screen: the score and urgency colour bands,
 * the assessment text, which optional cards appear, the order of the sector rows,
 * and what the screen shows for each state.
 */
module PortfolioScreen {
  import opened Common
  import opened Text
  import opened Domain
  import opened ViewState

  const PORTFOLIO_LOAD_FAILED := "Failed to load portfolio"

  const GREEN := 0xFF4CAF50
  const ORANGE := 0xFFFFA726
  const RED := 0xFFF44336
  const BLUE := 0xFF2196F3

  /** A colour as drawn: opaque, or the same colour at alpha 0.1 (`copy(alpha = 0.1f)`). */
  datatype Tint = Solid(argb: int) | Faded(argb: int)

  /** The score card's background. */
  function ScoreCardBackground(score: int): (tint: Tint)
    ensures tint.Faded?
    ensures tint.argb == GREEN <==> score >= 70
    ensures tint.argb == ORANGE <==> 40 <= score < 70
    ensures tint.argb == RED <==> score < 40
  {
    if score >= 70 then Faded(GREEN)
    else if score >= 40 then Faded(ORANGE)
    else Faded(RED)
  }

  /** The colour of the score number. */
  function ScoreNumberColor(score: int): (tint: Tint)
    ensures tint.Solid?
    ensures tint.argb == GREEN <==> score >= 70
    ensures tint.argb == ORANGE <==> 40 <= score < 70
    ensures tint.argb == RED <==> score < 40
  {
    if score >= 70 then Solid(GREEN)
    else if score >= 40 then Solid(ORANGE)
    else Solid(RED)
  }

  /**
   * Scores of 70 and above are green, 40 to 69 orange, below 40 red; the card's
   * background is always the number's colour, faded.
   */
  lemma ScoreBands(score: int)
    ensures ScoreNumberColor(score) == Solid(GREEN) <==> score >= 70
    ensures ScoreNumberColor(score) == Solid(ORANGE) <==> 40 <= score < 70
    ensures ScoreNumberColor(score) == Solid(RED) <==> score < 40
    ensures ScoreCardBackground(score) == Faded(ScoreNumberColor(score).argb)
  {
  }

  /** The next-action card's background. */
  function UrgencyCardBackground(urgency: string): (tint: Tint)
    ensures tint.Faded?
    ensures tint.argb == RED <==> urgency == "HIGH"
    ensures tint.argb == ORANGE <==> urgency == "MEDIUM"
    ensures tint.argb == BLUE <==> urgency != "HIGH" && urgency != "MEDIUM"
  {
    match urgency
    case "HIGH" => Faded(RED)
    case "MEDIUM" => Faded(ORANGE)
    case _ => Faded(BLUE)
  }

  /** The urgency badge's colour. */
  function UrgencyBadgeColor(urgency: string): (tint: Tint)
    ensures tint.Solid?
    ensures tint.argb == RED <==> urgency == "HIGH"
    ensures tint.argb == ORANGE <==> urgency == "MEDIUM"
    ensures tint.argb == BLUE <==> urgency != "HIGH" && urgency != "MEDIUM"
  {
    match urgency
    case "HIGH" => Solid(RED)
    case "MEDIUM" => Solid(ORANGE)
    case _ => Solid(BLUE)
  }

  /**
   * "HIGH" is red, "MEDIUM" orange and every other string (any other case too)
   * blue; the card and the badge agree.
   */
  lemma UrgencyBands(urgency: string)
    ensures UrgencyBadgeColor(urgency) == Solid(RED) <==> urgency == "HIGH"
    ensures UrgencyBadgeColor(urgency) == Solid(ORANGE) <==> urgency == "MEDIUM"
    ensures UrgencyBadgeColor(urgency) == Solid(BLUE) <==> urgency != "HIGH" && urgency != "MEDIUM"
    ensures UrgencyCardBackground(urgency) == Faded(UrgencyBadgeColor(urgency).argb)
  {
  }

  /** The assessment as shown: every underscore becomes a space. */
  function AssessmentText(assessment: string): (shown: string)
    ensures |shown| == |assessment|
    ensures forall i :: 0 <= i < |shown| ==> shown[i] != '_'
    ensures forall i :: 0 <= i < |shown| && assessment[i] != '_' ==> shown[i] == assessment[i]
    ensures forall i :: 0 <= i < |shown| && assessment[i] == '_' ==> shown[i] == ' '
  {
    ReplaceChar(assessment, '_', ' ')
  }

  /** The cards of the portfolio content, top to bottom. */
  datatype PortfolioCard = ScoreCard | InvestmentCard | RiskSummaryCard | NextActionCard | SectorAllocationCard | MarketCapCard

  /**
   * The cards shown for a loaded portfolio: the next-best-action card only when its
   * title is not empty, the sector card only when there is at least one sector.
   */
  function PortfolioCards(p: PortfolioResponse): (cards: seq<PortfolioCard>)
    ensures NextActionCard in cards <==> p.nextBestAction.title != ""
    ensures SectorAllocationCard in cards <==> p.sectorAllocation != []
    ensures 4 <= |cards| <= 6
    ensures cards[..3] == [ScoreCard, InvestmentCard, RiskSummaryCard]
    ensures cards[|cards| - 1] == MarketCapCard
    ensures forall i, j :: 0 <= i < j < |cards| ==> cards[i] != cards[j]
  {
    [ScoreCard, InvestmentCard, RiskSummaryCard]
    + (if p.nextBestAction.title != "" then [NextActionCard] else [])
    + (if p.sectorAllocation != [] then [SectorAllocationCard] else [])
    + [MarketCapCard]
  }

  ghost predicate NonIncreasing(s: seq<Entry>) {
    forall i, j :: 0 <= i < j < |s| ==> s[i].value >= s[j].value
  }

  /** A head no smaller than every entry of a non-increasing tail keeps the list non-increasing. */
  lemma ConsNonIncreasing(head: Entry, tail: seq<Entry>)
    requires NonIncreasing(tail)
    requires forall e :: e in tail ==> e.value <= head.value
    ensures NonIncreasing([head] + tail)
  {
    var s := [head] + tail;
    forall i, j | 0 <= i < j < |s|
      ensures s[i].value >= s[j].value
    {
      assert s[j] == tail[j - 1];
      if i > 0 {
        assert s[i] == tail[i - 1];
      } else {
        assert tail[j - 1] in tail;
      }
    }
  }

  /** Every entry of `rest`, being `x` or an entry of `tail`, is no larger than `head`. */
  lemma BoundedByHead(head: Entry, x: Entry, tail: seq<Entry>, rest: seq<Entry>)
    requires multiset(rest) == multiset(tail) + multiset{x}
    requires x.value < head.value
    requires forall e :: e in tail ==> e.value <= head.value
    ensures forall e :: e in rest ==> e.value <= head.value
  {
    forall e | e in rest
      ensures e.value <= head.value
    {
      assert e in multiset(rest);
      if e != x {
        assert e in multiset(tail);
      }
    }
  }

  /** The entries after the head of a non-increasing list are no larger than it, and still non-increasing. */
  lemma TailOfNonIncreasing(s: seq<Entry>)
    requires NonIncreasing(s) && s != []
    ensures NonIncreasing(s[1..])
    ensures forall e :: e in s[1..] ==> e.value <= s[0].value
  {
    forall i, j | 0 <= i < j < |s[1..]|
      ensures s[1..][i].value >= s[1..][j].value
    {
      assert s[1..][i] == s[i + 1] && s[1..][j] == s[j + 1];
    }
    forall e | e in s[1..]
      ensures e.value <= s[0].value
    {
      var k :| 0 <= k < |s[1..]| && s[1..][k] == e;
      assert s[k + 1] == e;
    }
  }

  /** Inserts `x` before the first entry whose value is not above it. */
  function InsertDescending(x: Entry, s: seq<Entry>): (r: seq<Entry>)
    requires NonIncreasing(s)
    ensures NonIncreasing(r)
    ensures multiset(r) == multiset(s) + multiset{x}
  {
    if s == [] then [x]
    else if s[0].value <= x.value then
      assert forall e :: e in s ==> e.value <= x.value by {
        TailOfNonIncreasing(s);
      }
      ConsNonIncreasing(x, s);
      [x] + s
    else
      TailOfNonIncreasing(s);
      var rest := InsertDescending(x, s[1..]);
      BoundedByHead(s[0], x, s[1..], rest);
      ConsNonIncreasing(s[0], rest);
      assert s == [s[0]] + s[1..];
      [s[0]] + rest
  }

  /** The entries of `s` whose value is `v`, in their order in `s`. */
  function TiesOf(s: seq<Entry>, v: real): seq<Entry> {
    if s == [] then []
    else (if s[0].value == v then [s[0]] else []) + TiesOf(s[1..], v)
  }

  lemma TiesOfCons(head: Entry, tail: seq<Entry>, v: real)
    ensures TiesOf([head] + tail, v) == (if head.value == v then [head] else []) + TiesOf(tail, v)
  {
    assert ([head] + tail)[1..] == tail;
  }

  /**
   * Inserting `x` puts it before every entry of equal value already present, and
   * keeps the order among those entries.
   */
  lemma {:induction false} InsertKeepsTies(x: Entry, s: seq<Entry>, v: real)
    requires NonIncreasing(s)
    ensures TiesOf(InsertDescending(x, s), v) == (if x.value == v then [x] else []) + TiesOf(s, v)
  {
    if s == [] {
      TiesOfCons(x, [], v);
    } else if s[0].value <= x.value {
      TiesOfCons(x, s, v);
    } else {
      TailOfNonIncreasing(s);
      var rest := InsertDescending(x, s[1..]);
      assert InsertDescending(x, s) == [s[0]] + rest;
      InsertKeepsTies(x, s[1..], v);
      TiesBehindLargerHead(s[0], x, s[1..], rest, v);
      assert s == [s[0]] + s[1..];
    }
  }

  /** Ties of `x` cannot meet a head larger than `x`, so the head's own ties come after them or not at all. */
  lemma TiesBehindLargerHead(head: Entry, x: Entry, tail: seq<Entry>, rest: seq<Entry>, v: real)
    requires x.value < head.value
    requires TiesOf(rest, v) == (if x.value == v then [x] else []) + TiesOf(tail, v)
    ensures TiesOf([head] + rest, v) == (if x.value == v then [x] else []) + TiesOf([head] + tail, v)
  {
    TiesOfCons(head, rest, v);
    TiesOfCons(head, tail, v);
    var mine: seq<Entry> := if x.value == v then [x] else [];
    var his: seq<Entry> := if head.value == v then [head] else [];
    assert mine == [] || his == [];
    assert his + (mine + TiesOf(tail, v)) == mine + (his + TiesOf(tail, v));
  }

  /**
   * `entries.sortedByDescending { it.value }`: the rows, largest value first; a
   * stable sort, so sectors with equal values keep their order.
   */
  function SectorRows(entries: seq<Entry>): (rows: seq<Entry>)
    ensures NonIncreasing(rows)
    ensures multiset(rows) == multiset(entries)
    ensures forall v :: TiesOf(rows, v) == TiesOf(entries, v)
  {
    if entries == [] then []
    else
      assert entries == [entries[0]] + entries[1..];
      var rest := SectorRows(entries[1..]);
      var rows := InsertDescending(entries[0], rest);
      assert forall v :: TiesOf(rows, v) == TiesOf(entries, v) by {
        forall v
          ensures TiesOf(rows, v) == TiesOf(entries, v)
        {
          InsertKeepsTies(entries[0], rest, v);
          TiesOfCons(entries[0], entries[1..], v);
        }
      }
      rows
  }

  /** What the portfolio screen shows for its holder's state. */
  function PortfolioView(state: Option<Resource<PortfolioResponse>>): (v: ScreenContent<PortfolioResponse>)
    ensures v.ShowLoading? <==> state == None || state == Some(Loading)
    ensures v.ShowError? <==> state.Some? && state.value.Error?
    ensures v.ShowError? ==> v.message == state.value.message.GetOr(PORTFOLIO_LOAD_FAILED)
  {
    Render(state, PORTFOLIO_LOAD_FAILED)
  }

  /** Before any state, and while loading, the spinner; an Error without a message shows the screen's own text. */
  lemma PortfolioViewFallbacks()
    ensures PortfolioView(None) == ShowLoading
    ensures PortfolioView(Some(Loading)) == ShowLoading
    ensures PortfolioView(Some(Error(None))) == ShowError(PORTFOLIO_LOAD_FAILED)
    ensures PortfolioView(Some(Success(None))) == ShowNothing
  {
  }
}
