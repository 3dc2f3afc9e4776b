/**
 * The sales-pipeline board (`frontend/src/pages/crm/SalesPipeline.tsx`):
 * six fixed stage columns, the opportunities grouped into them, a count and
 * a value total per column, the probability chip's colour, and the
 * back/forward buttons that ask for the neighbouring stage.
 */
module SalesPipeline {
  import opened Wrappers
  import opened Seqs

  /** The board's columns, in order. */
  const Stages: seq<string> := ["Prospecting", "Qualification", "Proposal", "Negotiation", "Closed Won", "Closed Lost"]

  /** An opportunity as the board uses it; amounts are whole currency units. */
  datatype Opportunity = Opportunity(id: string, name: string, stage: string, amount: int, probability: int)

  datatype Direction = Forward | Back

  lemma StagesDistinct()
    ensures Distinct(Stages)
  {
  }

  /** A stage on the board is found at its own position. */
  lemma IndexOfStage(i: int)
    requires 0 <= i < |Stages|
    ensures IndexOf(Stages, Stages[i]) == i
  {
    StagesDistinct();
  }

  /**
   * `handleMoveStage`: the stage to request, or `None` when the handler
   * returns without dispatching.  A stage not on the board has index -1.
   */
  function MoveTarget(current: string, direction: Direction): Option<string>
  {
    var i := IndexOf(Stages, current);
    if direction == Forward && i < |Stages| - 1 then Some(Stages[i + 1])
    else if direction == Back && i > 0 then Some(Stages[i - 1])
    else None
  }

  /**
   * From the stage at index i, forward requests index i + 1 exactly when
   * i < 5 and back requests index i - 1 exactly when i > 0; from a stage
   * that is not on the board forward requests the first stage and back
   * does nothing.
   */
  lemma MoveTargetSpec(current: string)
    ensures current in Stages ==>
      var i := IndexOf(Stages, current);
      0 <= i < 6 && Stages[i] == current
      && MoveTarget(current, Forward) == (if i < 5 then Some(Stages[i + 1]) else None)
      && MoveTarget(current, Back) == (if i > 0 then Some(Stages[i - 1]) else None)
    ensures current !in Stages ==>
      MoveTarget(current, Forward) == Some("Prospecting") && MoveTarget(current, Back) == None
  {
  }

  /** Moving forward and then back, or back and then forward, returns to the starting stage. */
  lemma MoveRoundTrip(current: string)
    requires current in Stages
    ensures MoveTarget(current, Forward).Some? ==> MoveTarget(MoveTarget(current, Forward).value, Back) == Some(current)
    ensures MoveTarget(current, Back).Some? ==> MoveTarget(MoveTarget(current, Back).value, Forward) == Some(current)
  {
    var i := IndexOf(Stages, current);
    ForwardThenBack(i);
    BackThenForward(i);
  }

  lemma ForwardThenBack(i: int)
    requires 0 <= i < |Stages|
    ensures i < 5 ==> MoveTarget(Stages[i], Forward) == Some(Stages[i + 1])
                      && MoveTarget(Stages[i + 1], Back) == Some(Stages[i])
  {
    IndexOfStage(i);
    if i < 5 {
      IndexOfStage(i + 1);
    }
  }

  lemma BackThenForward(i: int)
    requires 0 <= i < |Stages|
    ensures i > 0 ==> MoveTarget(Stages[i], Back) == Some(Stages[i - 1])
                      && MoveTarget(Stages[i - 1], Forward) == Some(Stages[i])
  {
    IndexOfStage(i);
    if i > 0 {
      IndexOfStage(i - 1);
      assert IndexOf(Stages, Stages[i - 1]) == i - 1 < |Stages| - 1;
    }
  }

  /** A card's back button: every column but the first. */
  predicate BackShown(stage: string)
  {
    stage != "Prospecting"
  }

  /** A card's forward button: every column but the two closed ones. */
  predicate ForwardShown(stage: string)
  {
    stage != "Closed Won" && stage != "Closed Lost"
  }

  /** On the board, a back button is shown exactly where the handler moves back. */
  lemma BackButtonSpec(stage: string)
    requires stage in Stages
    ensures BackShown(stage) <==> MoveTarget(stage, Back).Some?
  {
    var i := IndexOf(Stages, stage);
    StagesDistinct();
    assert Stages[0] == "Prospecting";
  }

  /** On the board, a shown forward button always moves. */
  lemma ForwardButtonSpec(stage: string)
    requires stage in Stages
    ensures ForwardShown(stage) ==> MoveTarget(stage, Forward).Some?
  {
    var i := IndexOf(Stages, stage);
    StagesDistinct();
    assert Stages[5] == "Closed Lost";
  }

  /** The handler would move a won opportunity forward to lost, but that button is hidden. */
  lemma HiddenForwardMove()
    ensures !ForwardShown("Closed Won") && MoveTarget("Closed Won", Forward) == Some("Closed Lost")
  {
    IndexOfStage(4);
    assert Stages[4] == "Closed Won";
  }

  /** `opportunities?.length > 0 ? opportunities : mockOpportunities`. */
  function Shown(fetched: seq<Opportunity>, mock: seq<Opportunity>): (r: seq<Opportunity>)
    ensures fetched != [] ==> r == fetched
    ensures fetched == [] ==> r == mock
  {
    if |fetched| > 0 then fetched else mock
  }

  /** The condition `opp.stage === stage`. */
  function AtStage(stage: string): Opportunity -> bool
  {
    (o: Opportunity) => o.stage == stage
  }

  function Column(opps: seq<Opportunity>, stage: string): seq<Opportunity>
  {
    Filter(opps, AtStage(stage))
  }

  /** `opportunitiesByStage`: one column per stage. */
  function ByStage(opps: seq<Opportunity>): map<string, seq<Opportunity>>
  {
    map st | st in Stages :: Column(opps, st)
  }

  /**
   * There is a column for each stage and no other; each holds exactly the
   * opportunities at its stage, in input order; an opportunity whose stage
   * is not on the board is in no column.
   */
  lemma ByStageSpec(opps: seq<Opportunity>, st: string)
    ensures st in ByStage(opps) <==> st in Stages
    ensures st in Stages ==>
      (forall o :: o in ByStage(opps)[st] <==> o in opps && o.stage == st)
      && Subsequence(ByStage(opps)[st], opps)
    ensures forall o :: o in opps && o.stage !in Stages && st in Stages ==> o !in ByStage(opps)[st]
  {
    FilterIsSubsequence(opps, AtStage(st));
  }

  /** `opps.reduce((sum, opp) => sum + opp.amount, 0)`. */
  function SumAmounts(opps: seq<Opportunity>): int
  {
    if opps == [] then 0 else SumAmounts(opps[..|opps| - 1]) + opps[|opps| - 1].amount
  }

  datatype StageTotal = StageTotal(count: nat, value: int)

  /** `stageTotals`. */
  function Totals(opps: seq<Opportunity>): map<string, StageTotal>
  {
    map st | st in Stages :: StageTotal(|Column(opps, st)|, SumAmounts(Column(opps, st)))
  }

  /**
   * Each stage's total counts its column and adds up the column's amounts;
   * with no opportunities every total is zero, and one more opportunity
   * raises only its own stage's total, by one and by its amount.
   */
  lemma TotalsSpec(opps: seq<Opportunity>, o: Opportunity, st: string)
    requires st in Stages
    ensures st in Totals(opps)
    ensures Totals(opps)[st].count == |ByStage(opps)[st]|
    ensures Totals(opps)[st].value == SumAmounts(ByStage(opps)[st])
    ensures Totals([])[st] == StageTotal(0, 0)
    ensures Totals(opps + [o])[st] ==
      if o.stage == st then StageTotal(Totals(opps)[st].count + 1, Totals(opps)[st].value + o.amount)
      else Totals(opps)[st]
  {
    var l := opps + [o];
    assert l[..|l| - 1] == opps;
    if o.stage == st {
      var c := Column(opps, st);
      assert (c + [o])[..|c|] == c;
    }
  }

  datatype ChipColour = Success | Warning | Error

  /** The probability chip: success from 70, warning from 30, error below. */
  function ProbabilityColour(probability: int): ChipColour
  {
    if probability >= 70 then Success
    else if probability >= 30 then Warning
    else Error
  }

  function Rank(c: ChipColour): nat
  {
    match c
    case Error => 0
    case Warning => 1
    case Success => 2
  }

  /** The three bands, each as an if-and-only-if, and a higher probability never gets a worse colour. */
  lemma ProbabilityColourSpec(p: int, q: int)
    ensures ProbabilityColour(p) == Success <==> 70 <= p
    ensures ProbabilityColour(p) == Warning <==> 30 <= p < 70
    ensures ProbabilityColour(p) == Error <==> p < 30
    ensures p <= q ==> Rank(ProbabilityColour(p)) <= Rank(ProbabilityColour(q))
  {
  }
}
