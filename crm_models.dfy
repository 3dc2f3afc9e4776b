/**
 * The CRM records (`backend/apps/crm/models.py`): contacts and their
 * name formatting, leads and their one-time conversion into a contact
 * and an opportunity, opportunities and how they close, and campaigns.
 * Money is integer cents; weighted values and returns are exact
 * rationals; dates are calendar dates and clock readings integers.
 */
module CrmModels {
  import opened Wrappers
  import opened Text
  import opened Calendar
  import opened AuthModels
  import opened CoreModels

  // ---------------------------------------------------------------------
  // Contacts
  // ---------------------------------------------------------------------

  /** A contact; `contactType` is "person" or "company" (any other text formats as a person). */
  datatype Contact = Contact(
    organization: Id,
    contactType: string,
    firstName: string,
    lastName: string,
    companyName: string,
    email: string,
    phone: string,
    source: string,
    isActive: bool,
    createdBy: Option<Id>)

  predicate IsCompany(c: Contact)
  {
    c.contactType == "company"
  }

  /** `Contact.full_name`. */
  function FullName(c: Contact): (r: string)
    ensures IsCompany(c) ==> r == c.companyName
    ensures !IsCompany(c) ==> r == [] || (!IsSpace(r[0]) && !IsSpace(r[|r| - 1]))
  {
    if IsCompany(c) then c.companyName else SpacedName(c.firstName, c.lastName)
  }

  /** `Contact.display_name`. */
  function DisplayName(c: Contact): (r: string)
  {
    if IsCompany(c) then c.companyName
    else
      var name := SpacedName(c.firstName, c.lastName);
      if c.companyName != "" then name + " (" + c.companyName + ")" else name
  }

  /**
   * The display name of a person is the full name, followed by the
   * company in parentheses exactly when there is one; for a company both
   * are the company name.
   */
  lemma DisplayNameExtendsFullName(c: Contact)
    ensures IsCompany(c) ==> DisplayName(c) == FullName(c)
    ensures !IsCompany(c) && c.companyName == "" ==> DisplayName(c) == FullName(c)
    ensures !IsCompany(c) && c.companyName != "" ==>
      DisplayName(c) == FullName(c) + " (" + c.companyName + ")"
      && |DisplayName(c)| > |FullName(c)|
  {
  }

  /** `Contact.__str__`: the unstripped "first last", or the company name when a company has one. */
  function ContactText(c: Contact): string
  {
    if IsCompany(c) && c.companyName != "" then c.companyName else c.firstName + " " + c.lastName
  }

  /**
   * A person's full name is their string form with the outer whitespace
   * removed; a company with a name shows the same text everywhere.
   */
  lemma FullNameIsStrippedText(c: Contact)
    ensures !IsCompany(c) ==> FullName(c) == Strip(ContactText(c))
    ensures IsCompany(c) && c.companyName != "" ==> ContactText(c) == FullName(c) == DisplayName(c)
  {
  }

  // ---------------------------------------------------------------------
  // Leads and their conversion
  // ---------------------------------------------------------------------

  datatype Lead = Lead(
    organization: Id,
    title: string,
    description: string,
    contactName: string,
    companyName: string,
    email: string,
    phone: string,
    status: string,
    source: string,
    estimatedValue: Option<int>,
    probability: nat,
    assignedTo: Option<Id>,
    expectedCloseDate: Option<Date>,
    convertedContact: Option<Id>,
    convertedOpportunity: Option<Id>,
    convertedAt: Option<int>)

  /** `Lead.is_converted`: either link is set. */
  predicate IsConverted(l: Lead)
  {
    l.convertedContact.Some? || l.convertedOpportunity.Some?
  }

  /**
   * The first and last names the conversion derives from `contact_name`,
   * as written: `split()[0] if contact_name else ''` and the remaining
   * words joined by spaces.  `None` is the `IndexError` a non-empty
   * name made only of whitespace raises.
   */
  function SplitNameAsWritten(name: string): Option<(string, string)>
  {
    var ws := Words(name);
    if name == "" then Some(("", if |ws| > 1 then Join(" ", ws[1..]) else ""))
    else if |ws| == 0 then None
    else Some((ws[0], if |ws| > 1 then Join(" ", ws[1..]) else ""))
  }

  /** The name split with a blank name giving empty names, as the guard on the empty name intends. */
  function SplitName(name: string): (r: (string, string))
  {
    var ws := Words(name);
    if |ws| == 0 then ("", "") else (ws[0], Join(" ", ws[1..]))
  }

  /** A name of one space crashes the conversion as written; the corrected split gives two empty names. */
  lemma BlankNameCrashes()
    ensures SplitNameAsWritten(" ") == None
    ensures SplitName(" ") == ("", "")
  {
    WordsEmpty(" ");
  }

  /** Wherever the written split does not crash, it agrees with the corrected one. */
  lemma SplitNameAgrees(name: string)
    ensures SplitNameAsWritten(name).Some? ==> SplitNameAsWritten(name).value == SplitName(name)
    ensures SplitNameAsWritten(name).None? <==> name != "" && AllSpace(name)
  {
    WordsEmpty(name);
    var ws := Words(name);
    if name == "" {
      assert AllSpace(name);
    }
  }

  /** Space-free words joined by spaces start with the first word's first character and end with the last word's last character. */
  lemma {:induction false} JoinEnds(ws: seq<string>)
    requires |ws| >= 1
    requires forall i :: 0 <= i < |ws| ==> ws[i] != [] && NoSpace(ws[i])
    ensures var r := Join(" ", ws);
      r != [] && r[0] == ws[0][0] && r[|r| - 1] == ws[|ws| - 1][|ws[|ws| - 1]| - 1]
  {
    if |ws| > 1 {
      JoinEnds(ws[1..]);
      var tail := Join(" ", ws[1..]);
      assert Join(" ", ws) == ws[0] + " " + tail;
    }
  }

  /**
   * The first name is the first word and the last name the rest of the
   * words: splitting the last name again gives exactly those words, a
   * one-word name has an empty last name, and a blank name gives two
   * empty names.
   */
  lemma SplitNameWords(name: string)
    ensures var (first, last) := SplitName(name);
      var ws := Words(name);
      (ws == [] ==> first == "" && last == "")
      && (ws != [] ==> first == ws[0] && NoSpace(first) && first != "" && Words(last) == ws[1..])
      && (|ws| == 1 ==> last == "")
  {
    var ws := Words(name);
    if ws != [] {
      WordsOfJoin(ws[1..]);
    }
  }

  /** The full name of the converted contact is the lead's contact name with its whitespace collapsed to single spaces. */
  lemma SplitNameFullName(name: string)
    ensures SpacedName(SplitName(name).0, SplitName(name).1) == Join(" ", Words(name))
  {
    var ws := Words(name);
    var (first, last) := SplitName(name);
    if ws == [] {
      SpacedNameEmpty();
    } else if |ws| == 1 {
      SpacedNameFirstOnly(first);
    } else {
      JoinEnds(ws[1..]);
      JoinEnds(ws[..1]);
      SpacedNameClean(first, last);
    }
  }

  // ---------------------------------------------------------------------
  // Opportunities
  // ---------------------------------------------------------------------

  datatype Opportunity = Opportunity(
    organization: Id,
    name: string,
    contact: Id,
    description: string,
    stage: string,
    estimatedValue: int,
    probability: nat,
    assignedTo: Option<Id>,
    expectedCloseDate: Date,
    actualCloseDate: Option<Date>,
    leadSource: string,
    createdBy: Option<Id>,
    updatedBy: Option<Id>)

  predicate IsClosed(o: Opportunity)
  {
    o.stage in ["closed_won", "closed_lost"]
  }

  predicate IsWon(o: Opportunity)
  {
    o.stage == "closed_won"
  }

  /** `Opportunity.weighted_value`: the estimated value scaled by the probability percentage. */
  function WeightedValue(o: Opportunity): real
  {
    o.estimatedValue as real * o.probability as real / 100.0
  }

  /** `close_as_won`: won, closed today, certain, and recorded as updated by `user`. */
  function CloseAsWon(o: Opportunity, user: Id, today: Date): (r: Opportunity)
    ensures IsClosed(r) && IsWon(r) && r.probability == 100
    ensures r.actualCloseDate == Some(today) && r.updatedBy == Some(user)
    ensures r.(stage := o.stage, probability := o.probability, actualCloseDate := o.actualCloseDate,
               updatedBy := o.updatedBy) == o
  {
    o.(stage := "closed_won", actualCloseDate := Some(today), probability := 100, updatedBy := Some(user))
  }

  /** The content type notes on opportunities carry. */
  const OpportunityType: string := "crm.opportunity"

  /** The note `close_as_lost` leaves when it is given a reason. */
  function LostNote(o: Opportunity, oppId: Id, user: Id, reason: string): Note
  {
    Note(o.organization, "Opportunity closed as lost. Reason: " + reason, false, OpportunityType, oppId, Some(user))
  }

  /** `close_as_lost`: the closed opportunity and the note it adds, if any. */
  function CloseAsLost(o: Opportunity, oppId: Id, user: Id, today: Date, reason: string): (r: (Opportunity, Option<Note>))
    ensures IsClosed(r.0) && !IsWon(r.0) && r.0.probability == 0
    ensures r.0.actualCloseDate == Some(today) && r.0.updatedBy == Some(user)
    ensures r.0.(stage := o.stage, probability := o.probability, actualCloseDate := o.actualCloseDate,
                 updatedBy := o.updatedBy) == o
    ensures r.1.Some? <==> reason != ""
    ensures r.1.Some? ==> r.1.value.objectId == oppId && r.1.value.contentType == OpportunityType
                          && r.1.value.organization == o.organization && !r.1.value.isPrivate
                          && StartsWith(r.1.value.content, "Opportunity closed as lost. Reason: ")
  {
    var closed := o.(stage := "closed_lost", actualCloseDate := Some(today), probability := 0, updatedBy := Some(user));
    (closed, if reason != "" then Some(LostNote(o, oppId, user, reason)) else None)
  }

  /** Closing either way weighs the opportunity at its full value or at nothing. */
  lemma ClosedWeights(o: Opportunity, oppId: Id, user: Id, today: Date, reason: string)
    ensures WeightedValue(CloseAsWon(o, user, today)) == o.estimatedValue as real
    ensures WeightedValue(CloseAsLost(o, oppId, user, today, reason).0) == 0.0
  {
  }

  // ---------------------------------------------------------------------
  // Conversion
  // ---------------------------------------------------------------------

  /** The contact a conversion creates. */
  function ConvertedContact(l: Lead, user: Id): (c: Contact)
    ensures !IsCompany(c) && c.organization == l.organization && c.isActive
  {
    var (first, last) := SplitName(l.contactName);
    Contact(l.organization, "person", first, last, l.companyName, l.email, l.phone, l.source, true, Some(user))
  }

  /** The converted contact's full name is the lead's contact name with its whitespace runs collapsed to single spaces. */
  lemma ConvertedContactName(l: Lead, user: Id)
    ensures FullName(ConvertedContact(l, user)) == Join(" ", Words(l.contactName))
  {
    SplitNameFullName(l.contactName);
  }

  datatype Conversion =
    | AlreadyConverted(existingContact: Option<Id>, existingOpportunity: Option<Id>)
    | Converted(lead: Lead, contact: Contact, opportunity: Opportunity)
      /** The opportunity row refused a missing value or close date after the contact row was written. */
    | OpportunityRefused(createdContact: Contact)

  /**
   * `convert_to_contact_and_opportunity` with the ids the two new rows
   * receive and the clock reading.
   */
  function Convert(l: Lead, user: Id, contactId: Id, now: int): (r: Conversion)
  {
    if IsConverted(l) then AlreadyConverted(l.convertedContact, l.convertedOpportunity)
    else
      var contact := ConvertedContact(l, user);
      if l.estimatedValue.None? || l.expectedCloseDate.None? then OpportunityRefused(contact)
      else
        var opportunity := Opportunity(l.organization, l.title, contactId, l.description, "qualification",
                                       l.estimatedValue.value, l.probability, l.assignedTo,
                                       l.expectedCloseDate.value, None, "", Some(user), None);
        Converted(l, contact, opportunity)
  }

  /** The lead after a conversion that created `contactId` and `opportunityId` at `now`. */
  function ConvertedLead(l: Lead, contactId: Id, opportunityId: Id, now: int): Lead
  {
    l.(convertedContact := Some(contactId), convertedOpportunity := Some(opportunityId),
       convertedAt := Some(now), status := "qualified")
  }

  /**
   * A successful conversion fills in the opportunity from the lead at
   * stage "qualification", tied to the new contact; the lead becomes
   * qualified with both links, after which converting again only
   * returns the same pair.
   */
  lemma ConvertSpec(l: Lead, user: Id, contactId: Id, opportunityId: Id, now: int, later: int)
    ensures IsConverted(l) ==> Convert(l, user, contactId, now) == AlreadyConverted(l.convertedContact, l.convertedOpportunity)
    ensures !IsConverted(l) ==> (Convert(l, user, contactId, now).OpportunityRefused? <==>
                                  l.estimatedValue.None? || l.expectedCloseDate.None?)
    ensures Convert(l, user, contactId, now).Converted? ==>
      var o := Convert(l, user, contactId, now).opportunity;
      var l' := ConvertedLead(l, contactId, opportunityId, now);
      o.stage == "qualification" && !IsClosed(o) && o.contact == contactId && o.organization == l.organization
      && o.name == l.title && Some(o.estimatedValue) == l.estimatedValue && o.probability == l.probability
      && Some(o.expectedCloseDate) == l.expectedCloseDate && o.assignedTo == l.assignedTo
      && IsConverted(l') && l'.status == "qualified"
      && Convert(l', user, contactId, later) == AlreadyConverted(Some(contactId), Some(opportunityId))
  {
  }

  // ---------------------------------------------------------------------
  // Campaigns
  // ---------------------------------------------------------------------

  datatype Campaign = Campaign(
    organization: Id,
    name: string,
    status: string,
    startDate: Date,
    endDate: Date,
    actualCost: Option<int>)

  /** `Campaign.is_active` on the date `today`. */
  predicate CampaignIsActive(c: Campaign, today: Date)
  {
    c.status == "active" && DateLe(c.startDate, today) && DateLe(today, c.endDate)
  }

  /** A campaign is active only while it runs, and never when it ends before it starts. */
  lemma CampaignActiveWindow(c: Campaign, today: Date)
    ensures CampaignIsActive(c, today) ==> DateLe(c.startDate, c.endDate)
    ensures c.status != "active" ==> !CampaignIsActive(c, today)
    ensures !DateLe(c.startDate, c.endDate) ==> !CampaignIsActive(c, today)
  {
  }

  /** The closed-won value the campaign brought in: opportunities of its organization whose lead source is its name. */
  function CampaignRevenue(c: Campaign, opps: seq<Opportunity>): int
  {
    if opps == [] then 0
    else
      var o := opps[|opps| - 1];
      CampaignRevenue(c, opps[..|opps| - 1])
      + (if o.leadSource == c.name && IsWon(o) && o.organization == c.organization then o.estimatedValue else 0)
  }

  /** `Campaign.roi`, in percent; 0 when there is no cost. */
  function Roi(c: Campaign, opps: seq<Opportunity>): (r: real)
    ensures c.actualCost.None? || c.actualCost.value == 0 ==> r == 0.0
  {
    if c.actualCost.None? || c.actualCost.value == 0 then 0.0
    else
      var cost := c.actualCost.value as real;
      (CampaignRevenue(c, opps) as real - cost) / cost * 100.0
  }

  /** With a positive cost, the return is positive exactly when revenue exceeds the cost, and negative exactly when it falls short. */
  lemma RoiSign(c: Campaign, opps: seq<Opportunity>)
    requires c.actualCost.Some? && c.actualCost.value > 0
    ensures Roi(c, opps) > 0.0 <==> CampaignRevenue(c, opps) > c.actualCost.value
    ensures Roi(c, opps) < 0.0 <==> CampaignRevenue(c, opps) < c.actualCost.value
  {
    var cost := c.actualCost.value as real;
    var gain := CampaignRevenue(c, opps) as real - cost;
    assert Roi(c, opps) == gain / cost * 100.0;
    if gain > 0.0 {
      assert gain / cost > 0.0;
    } else if gain < 0.0 {
      assert gain / cost < 0.0;
    } else {
      assert gain / cost == 0.0;
    }
  }
}
