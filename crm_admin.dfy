/**
 * The CRM admin (`backend/apps/crm/admin.py`): the subject preview and
 * ROI columns and the bulk actions on leads and opportunities.  A
 * queryset of selected rows is a sequence of distinct ids that name
 * stored records.
 */
module CrmAdmin {
  import opened Wrappers
  import opened Text
  import opened Calendar
  import opened Seqs
  import opened AuthModels
  import opened CoreModels
  import opened CrmModels

  /** `EmailTemplateAdmin.subject_preview`: the subject, cut to fifty characters and an ellipsis when longer. */
  function SubjectPreview(subject: string): (r: string)
    ensures |subject| <= 50 ==> r == subject
    ensures |subject| > 50 ==> r == subject[..50] + "..."
    ensures |r| <= 53
  {
    Preview(subject, 50)
  }

  /** A rendered cell: the text and, when styled, its colour. */
  datatype Cell = Cell(text: string, color: Option<string>)

  /**
   * `CampaignAdmin.roi_display` as evidently intended, with each branch
   * rendering its cell; `formatted` is the ROI written with one decimal,
   * which the cell wraps with a sign and a percent sign.
   */
  function RoiDisplay(c: Campaign, opps: seq<Opportunity>, formatted: string): (r: Cell)
    ensures r.color == Some("green") <==> Roi(c, opps) > 0.0
    ensures r.color == Some("red") <==> Roi(c, opps) < 0.0
    ensures r.color.None? <==> Roi(c, opps) == 0.0
    ensures r.text == (if r.color == Some("green") then "+" else "") + formatted + "%"
  {
    var roi := Roi(c, opps);
    if roi > 0.0 then Cell("+" + formatted + "%", Some("green"))
    else if roi < 0.0 then Cell(formatted + "%", Some("red"))
    else Cell(formatted + "%", None)
  }

  /**
   * Only a green cell carries the plus sign.  Without a cost the cell is
   * plain; with a positive cost it is green exactly when the campaign
   * earned more than it cost, red exactly when it earned less, and plain
   * when revenue equals cost.
   */
  lemma RoiDisplayColour(c: Campaign, opps: seq<Opportunity>, formatted: string)
    ensures var r := RoiDisplay(c, opps, formatted);
      (r.color == Some("green") ==> r.text == "+" + formatted + "%")
      && (r.color != Some("green") ==> r.text == formatted + "%")
      && (r.color.None? || r.color == Some("green") || r.color == Some("red"))
    ensures c.actualCost.None? || c.actualCost.value == 0 ==> RoiDisplay(c, opps, formatted).color.None?
    ensures var r := RoiDisplay(c, opps, formatted);
      c.actualCost.Some? && c.actualCost.value > 0 ==>
        (r.color == Some("green") <==> CampaignRevenue(c, opps) > c.actualCost.value)
        && (r.color == Some("red") <==> CampaignRevenue(c, opps) < c.actualCost.value)
        && (r.color.None? <==> CampaignRevenue(c, opps) == c.actualCost.value)
  {
    if c.actualCost.Some? && c.actualCost.value > 0 {
      RoiSign(c, opps);
    }
  }

  /**
   * `roi_display` as written: `format_html` escapes each argument into a
   * string before it fills the template, and the `{:.1f}` of both styled
   * templates refuses a string with `ValueError`, so only the unstyled
   * zero branch renders.  None stands for that error.
   */
  function RoiDisplayAsWritten(c: Campaign, opps: seq<Opportunity>, formatted: string): (r: Option<Cell>)
    ensures r.Some? <==> Roi(c, opps) == 0.0
    ensures r.Some? ==> r.value == Cell(formatted + "%", None)
  {
    if Roi(c, opps) == 0.0 then Some(Cell(formatted + "%", None)) else None
  }

  /**
   * With a positive cost the written column fails for every campaign whose
   * revenue differs from its cost, that is wherever the intended column
   * would be coloured; where it renders, it renders the intended cell.
   */
  lemma RoiDisplayFails(c: Campaign, opps: seq<Opportunity>, formatted: string)
    requires c.actualCost.Some? && c.actualCost.value > 0
    ensures RoiDisplayAsWritten(c, opps, formatted).None? <==> CampaignRevenue(c, opps) != c.actualCost.value
    ensures RoiDisplayAsWritten(c, opps, formatted).None? <==> RoiDisplay(c, opps, formatted).color.Some?
    ensures RoiDisplayAsWritten(c, opps, formatted).Some? ==>
      RoiDisplayAsWritten(c, opps, formatted).value == RoiDisplay(c, opps, formatted)
  {
    RoiSign(c, opps);
  }

  // ---------------------------------------------------------------------
  // mark_leads_contacted
  // ---------------------------------------------------------------------

  /** `queryset.update(status='contacted')` on the selected leads. */
  function MarkLeadsContacted(leads: map<Id, Lead>, selected: set<Id>): (r: map<Id, Lead>)
  {
    map k | k in leads :: if k in selected then leads[k].(status := "contacted") else leads[k]
  }

  /**
   * Every selected lead has status "contacted" and keeps every other
   * field; unselected leads are unchanged; marking again changes nothing.
   */
  lemma MarkLeadsContactedSpec(leads: map<Id, Lead>, selected: set<Id>)
    ensures var r := MarkLeadsContacted(leads, selected);
      r.Keys == leads.Keys
      && (forall k :: k in leads && k in selected ==>
            r[k].status == "contacted" && r[k].(status := leads[k].status) == leads[k])
      && (forall k :: k in leads && k !in selected ==> r[k] == leads[k])
      && MarkLeadsContacted(r, selected) == r
  {
  }

  // ---------------------------------------------------------------------
  // mark_opportunities_won, mark_opportunities_lost
  // ---------------------------------------------------------------------

  /**
   * The "won" action: each selected opportunity is closed as won by
   * `user` on `today`; the others are unchanged.
   */
  method MarkOpportunitiesWon(opps: map<Id, Opportunity>, selected: seq<Id>, user: Id, today: Date)
    returns (after: map<Id, Opportunity>)
    requires Distinct(selected)
    requires forall i :: 0 <= i < |selected| ==> selected[i] in opps
    ensures after.Keys == opps.Keys
    ensures forall k :: k in opps && k in selected ==> after[k] == CloseAsWon(opps[k], user, today)
    ensures forall k :: k in opps && k !in selected ==> after[k] == opps[k]
  {
    after := opps;
    var i := 0;
    while i < |selected|
      invariant 0 <= i <= |selected|
      invariant after.Keys == opps.Keys
      invariant forall k :: k in opps && k in selected[..i] ==> after[k] == CloseAsWon(opps[k], user, today)
      invariant forall k :: k in opps && k !in selected[..i] ==> after[k] == opps[k]
    {
      var k := selected[i];
      assert k !in selected[..i];
      after := after[k := CloseAsWon(after[k], user, today)];
      assert selected[..i + 1] == selected[..i] + [k];
      i := i + 1;
    }
    assert selected[..i] == selected;
  }

  /**
   * The "lost" action: each selected opportunity is closed as lost with
   * no reason, so no note is written; the others are unchanged.
   */
  method MarkOpportunitiesLost(opps: map<Id, Opportunity>, selected: seq<Id>, user: Id, today: Date)
    returns (after: map<Id, Opportunity>, notes: seq<Note>)
    requires Distinct(selected)
    requires forall i :: 0 <= i < |selected| ==> selected[i] in opps
    ensures after.Keys == opps.Keys
    ensures forall k :: k in opps && k in selected ==> after[k] == CloseAsLost(opps[k], k, user, today, "").0
    ensures forall k :: k in opps && k !in selected ==> after[k] == opps[k]
    ensures notes == []
  {
    after, notes := opps, [];
    var i := 0;
    while i < |selected|
      invariant 0 <= i <= |selected|
      invariant after.Keys == opps.Keys
      invariant forall k :: k in opps && k in selected[..i] ==> after[k] == CloseAsLost(opps[k], k, user, today, "").0
      invariant forall k :: k in opps && k !in selected[..i] ==> after[k] == opps[k]
      invariant notes == []
    {
      var k := selected[i];
      assert k !in selected[..i];
      var (closed, note) := CloseAsLost(after[k], k, user, today, "");
      after := after[k := closed];
      match note {
        case Some(n) => notes := notes + [n];
        case None =>
      }
      assert selected[..i + 1] == selected[..i] + [k];
      i := i + 1;
    }
    assert selected[..i] == selected;
  }

  /**
   * After either action every selected opportunity is closed; only the
   * "won" action leaves them won.
   */
  lemma MarkedOpportunitiesClosed(opps: map<Id, Opportunity>, k: Id, user: Id, today: Date)
    requires k in opps
    ensures IsClosed(CloseAsWon(opps[k], user, today)) && IsWon(CloseAsWon(opps[k], user, today))
    ensures IsClosed(CloseAsLost(opps[k], k, user, today, "").0) && !IsWon(CloseAsLost(opps[k], k, user, today, "").0)
  {
  }
}
