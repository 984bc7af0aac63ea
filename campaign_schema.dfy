/** The request shapes the campaign routes validate before calling the campaign service. */
module CampaignSchema {
  import opened Wrappers
  import opened Text
  import opened Database

  /** The body of a campaign creation request. */
  datatype CreateCampaignInput = CreateCampaignInput(
    title: string, recruitmentStartDate: string, recruitmentEndDate: string,
    recruitmentCount: int, benefits: string, storeInfo: string, mission: string)

  /** `createCampaignSchema`: non-empty texts, two date-shaped strings, at least one recruit. */
  predicate ValidCreateCampaign(i: CreateCampaignInput)
    ensures ValidCreateCampaign(i) ==>
      |i.recruitmentStartDate| == 10 && |i.recruitmentEndDate| == 10 && i.recruitmentCount >= 1
  {
    && |i.title| >= 1
    && IsDateShape(i.recruitmentStartDate)
    && IsDateShape(i.recruitmentEndDate)
    && i.recruitmentCount >= 1
    && |i.benefits| >= 1
    && |i.storeInfo| >= 1
    && |i.mission| >= 1
  }

  /** `updateCampaignStatusSchema`: the three campaign statuses by name. */
  function ParseCampaignStatus(s: string): (r: Option<CampaignStatus>)
    ensures r.Some? ==> CampaignStatusName(r.value) == s
  {
    if s == "recruiting" then Some(Recruiting)
    else if s == "closed" then Some(Closed)
    else if s == "completed" then Some(Completed)
    else None
  }

  /** The status names accepted are exactly the stored names, and each parses back to its status. */
  lemma CampaignStatusRoundTrip(s: string, st: CampaignStatus)
    ensures ParseCampaignStatus(CampaignStatusName(st)) == Some(st)
    ensures ParseCampaignStatus(s) == Some(st) <==> s == CampaignStatusName(st)
  {
  }

  /** A body passes exactly when its texts are non-empty, it asks for at least one recruit and both
      dates have the date shape: the two dates are never compared, so they pass in either order. */
  lemma CreateCampaignAccepted(i: CreateCampaignInput)
    ensures ValidCreateCampaign(i) <==>
      && i.title != [] && i.benefits != [] && i.storeInfo != [] && i.mission != []
      && i.recruitmentCount >= 1
      && IsDateShape(i.recruitmentStartDate) && IsDateShape(i.recruitmentEndDate)
    ensures ValidCreateCampaign(i) ==>
      ValidCreateCampaign(i.(recruitmentStartDate := i.recruitmentEndDate, recruitmentEndDate := i.recruitmentStartDate))
  {
  }

  /** An illustration: a campaign whose recruitment ends (2025-01-01) before it starts
      (2025-12-31) is accepted. */
  lemma DatesAreNotOrdered()
    ensures ValidCreateCampaign(CreateCampaignInput("t", "2025-12-31", "2025-01-01", 1, "b", "s", "m"))
  {
    DateLiteralsAreDateShape();
  }

  /** The two dates of that illustration have the date shape. */
  lemma DateLiteralsAreDateShape()
    ensures IsDateShape("2025-12-31") && IsDateShape("2025-01-01")
  {
    DateShapeOf("2025-12-31");
    DateShapeOf("2025-01-01");
  }

  /** The field rules one at a time: each makes the whole body invalid. */
  lemma CreateCampaignRejections(i: CreateCampaignInput)
    ensures i.recruitmentCount < 1 ==> !ValidCreateCampaign(i)
    ensures i.title == [] || i.benefits == [] || i.storeInfo == [] || i.mission == [] ==> !ValidCreateCampaign(i)
    ensures !IsDateShape(i.recruitmentStartDate) || !IsDateShape(i.recruitmentEndDate) ==> !ValidCreateCampaign(i)
  {
  }
}
