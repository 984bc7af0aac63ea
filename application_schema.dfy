/** The request shapes the application routes validate before calling the application service. */
module ApplicationSchema {
  import opened Wrappers
  import opened Text
  import opened Database

  /** The body of an application: the campaign applied to, a message and a visit date. */
  datatype CreateApplicationInput = CreateApplicationInput(campaignId: string, message: string, visitDate: string)

  /** An advertiser's decision on an application: selected or rejected, never back to pending. */
  type Decision = s: ApplicationStatus | s != Pending witness Selected

  /** The body of a bulk decision: the applications decided on and the decision. */
  datatype BulkUpdateApplicationsInput = BulkUpdateApplicationsInput(applicationIds: seq<string>, status: Decision)

  /** The same body before validation, with the status still text. */
  datatype BulkUpdateApplicationsRequest = BulkUpdateApplicationsRequest(applicationIds: seq<string>, status: string)

  /** zod's `uuid()`: five groups of 8, 4, 4, 4 and 12 hexadecimal digits of either case. */
  function UuidPattern(): Pattern
  {
    Repeat(Hex, 8) + [Lit('-')] + Repeat(Hex, 4) + [Lit('-')] + Repeat(Hex, 4) + [Lit('-')]
    + Repeat(Hex, 4) + [Lit('-')] + Repeat(Hex, 12)
  }

  predicate IsUuid(s: string)
    ensures IsUuid(s) ==> |s| == 36
  {
    FullMatchPositional(UuidPattern(), s);
    FullMatch(UuidPattern(), s)
  }

  lemma UuidCharacterized(s: string)
    ensures IsUuid(s) <==>
      |s| == 36 && s[8] == '-' && s[13] == '-' && s[18] == '-' && s[23] == '-' &&
      forall i :: 0 <= i < 36 && i != 8 && i != 13 && i != 18 && i != 23 ==> IsHexDigit(s[i])
  {
    var p := UuidPattern();
    forall i | 0 <= i < 36
      ensures p[i] == if i == 8 || i == 13 || i == 18 || i == 23 then Lit('-') else Hex
    {
    }
    FullMatchPositional(p, s);
  }

  /** `createApplicationSchema` */
  predicate ValidCreateApplication(i: CreateApplicationInput)
    ensures ValidCreateApplication(i) ==> |i.campaignId| == 36 && i.message != [] && |i.visitDate| == 10
  {
    IsUuid(i.campaignId) && |i.message| >= 1 && IsDateShape(i.visitDate)
  }

  /** The enum of `updateApplicationStatusSchema` and `bulkUpdateApplicationsSchema`. */
  function ParseDecision(s: string): (r: Option<Decision>)
    ensures r.Some? ==> ApplicationStatusName(r.value) == s
  {
    if s == "selected" then Some(Selected)
    else if s == "rejected" then Some(Rejected)
    else None
  }

  /** `bulkUpdateApplicationsSchema`: every id uuid-shaped, the status a decision. */
  function ParseBulkUpdate(req: BulkUpdateApplicationsRequest): (r: Option<BulkUpdateApplicationsInput>)
    ensures r.Some? ==> r.value.applicationIds == req.applicationIds && ApplicationStatusName(r.value.status) == req.status
    ensures r.Some? ==> forall k :: 0 <= k < |req.applicationIds| ==> |req.applicationIds[k]| == 36
  {
    match ParseDecision(req.status)
    case None => None
    case Some(d) =>
      if forall k :: 0 <= k < |req.applicationIds| ==> IsUuid(req.applicationIds[k])
      then Some(BulkUpdateApplicationsInput(req.applicationIds, d))
      else None
  }

  /** Only "selected" and "rejected" are decisions; "pending" is refused. */
  lemma DecisionNames(s: string)
    ensures ParseDecision(s).Some? <==> s == "selected" || s == "rejected"
    ensures ParseDecision(s).Some? ==> ApplicationStatusName(ParseDecision(s).value) == s
    ensures ParseDecision("pending") == None
  {
  }

  /** A bulk body is accepted exactly when its status is a decision and every id is uuid-shaped;
      an empty id list is accepted. */
  lemma BulkUpdateAccepted(req: BulkUpdateApplicationsRequest)
    ensures ParseBulkUpdate(req).Some? <==>
      (req.status == "selected" || req.status == "rejected") &&
      forall k :: 0 <= k < |req.applicationIds| ==> IsUuid(req.applicationIds[k])
    ensures ParseBulkUpdate(req).Some? ==>
      ParseBulkUpdate(req).value.applicationIds == req.applicationIds &&
      ApplicationStatusName(ParseBulkUpdate(req).value.status) == req.status
    ensures req.applicationIds == [] && req.status == "selected" ==> ParseBulkUpdate(req).Some?
  {
  }

  /** The visit date is checked for shape only, and the message must not be empty. */
  lemma CreateApplicationFieldRules(i: CreateApplicationInput)
    ensures i.message == [] ==> !ValidCreateApplication(i)
    ensures ValidCreateApplication(i) ==>
      IsDateShape(i.visitDate) && |i.visitDate| == 10 && i.visitDate[4] == '-' && i.visitDate[7] == '-' &&
      forall k :: 0 <= k < 10 && k != 4 && k != 7 ==> IsDigit(i.visitDate[k])
    ensures !IsUuid(i.campaignId) ==> !ValidCreateApplication(i)
  {
    DateShapeCharacterized(i.visitDate);
  }
}
