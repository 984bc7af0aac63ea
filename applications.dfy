/** The application service: influencers apply to open campaigns and list their applications; the
    owning advertiser lists the applicants and selects or rejects them in bulk. */
module Applications {
  import opened Wrappers
  import opened Text
  import opened Query
  import opened Database
  import opened ApplicationSchema
  import opened Campaigns

  /** `getInfluencerIdByUserId`: the id of the caller's influencer profile. */
  function GetInfluencerIdByUserId(db: Db, userId: string): (r: Result<string, Error>)
    ensures r.Err? ==> r.error == NoInfluencerProfile
    ensures r.Ok? ==> exists p :: p in db.influencerProfiles && p.userId == userId && p.id == r.value
    ensures WellFormed(db) ==> (r.Ok? <==> KeyUsed(db.influencerProfiles, InfluencerUserId, userId))
  {
    match Lookup(db.influencerProfiles, InfluencerUserId, userId)
    case None => Err(NoInfluencerProfile)
    case Some(p) => Ok(p.id)
  }

  // ----- createApplication

  function NewApplication(influencerId: string, input: CreateApplicationInput, freshId: string, at: nat): Application
  {
    Application(freshId, input.campaignId, influencerId, input.message, input.visitDate, Pending, at)
  }

  /** The checks of `createApplication`, in order; `today` is the server's date as `YYYY-MM-DD`.
      The insert's unique violation (the (campaign, influencer) pair, or the generated id) is
      reported as "already applied". */
  function CreateApplicationOutcome(db: Db, userId: string, input: CreateApplicationInput, today: string, freshId: string)
    : Outcome<Error>
  {
    match GetInfluencerIdByUserId(db, userId)
    case Err(e) => Fail(e)
    case Ok(influencerId) =>
      match Lookup(db.campaigns, CampaignId, input.campaignId)
      case None => Fail(CampaignNotFound)
      case Some(c) =>
        if c.status != Recruiting then Fail(NotRecruiting)
        else if LexLess(c.recruitmentEndDate, today) then Fail(RecruitmentEnded)
        else if KeyUsed(db.applications, ApplicationId, freshId) ||
                KeyUsed(db.applications, ApplicationPair, (input.campaignId, influencerId))
        then Fail(AlreadyApplied)
        else Pass
  }

  function CreateApplicationState(db: Db, userId: string, input: CreateApplicationInput, today: string, freshId: string): Db
  {
    if CreateApplicationOutcome(db, userId, input, today, freshId).Pass?
    then db.(applications := db.applications +
               [NewApplication(GetInfluencerIdByUserId(db, userId).value, input, freshId, db.clock)],
             clock := db.clock + 1)
    else db
  }

  /** `createApplication`. `freshId` is the id the database generates for the row. */
  method CreateApplication(store: Store, userId: string, input: CreateApplicationInput, today: string, freshId: string)
    returns (r: Outcome<Error>)
    requires store.Valid()
    modifies store
    ensures store.Valid()
    ensures r == CreateApplicationOutcome(old(store.Snapshot()), userId, input, today, freshId)
    ensures store.Snapshot() == CreateApplicationState(old(store.Snapshot()), userId, input, today, freshId)
  {
    ghost var db := store.Snapshot();
    var influencer := GetInfluencerIdByUserId(store.Snapshot(), userId);
    if influencer.Err? {
      return Fail(influencer.error);
    }
    var campaign := Lookup(store.campaigns, CampaignId, input.campaignId);
    if campaign.None? {
      return Fail(CampaignNotFound);
    }
    if campaign.value.status != Recruiting {
      return Fail(NotRecruiting);
    }
    if LexLess(campaign.value.recruitmentEndDate, today) {
      return Fail(RecruitmentEnded);
    }
    if KeyUsed(store.applications, ApplicationId, freshId) ||
       KeyUsed(store.applications, ApplicationPair, (input.campaignId, influencer.value)) {
      return Fail(AlreadyApplied);
    }
    assert KeyUsed(store.campaigns, CampaignId, input.campaignId) by {
      assert campaign.value in store.campaigns;
    }
    ghost var p :| p in store.influencerProfiles && p.userId == userId && p.id == influencer.value;
    InsertApplication(store, NewApplication(influencer.value, input, freshId, store.clock));
    r := Pass;
  }

  /** The insert into the applications table: the row's keys are new, its references resolve and it
      is stamped with the store's clock. */
  method InsertApplication(store: Store, a: Application)
    requires store.Valid()
    requires !KeyUsed(store.applications, ApplicationId, a.id)
    requires !KeyUsed(store.applications, ApplicationPair, ApplicationPair(a))
    requires KeyUsed(store.campaigns, CampaignId, a.campaignId)
    requires KeyUsed(store.influencerProfiles, InfluencerId, a.influencerId)
    requires a.createdAt == store.clock
    modifies store
    ensures store.Valid()
    ensures store.Snapshot() ==
      old(store.Snapshot()).(applications := old(store.applications) + [a], clock := old(store.clock) + 1)
  {
    AppendApplicationKeepsWellFormed(store.Snapshot(), a);
    store.applications := store.applications + [a];
    store.clock := store.clock + 1;
  }

  lemma AppendApplicationKeepsWellFormed(db: Db, a: Application)
    requires WellFormed(db)
    requires !KeyUsed(db.applications, ApplicationId, a.id)
    requires !KeyUsed(db.applications, ApplicationPair, ApplicationPair(a))
    requires KeyUsed(db.campaigns, CampaignId, a.campaignId)
    requires KeyUsed(db.influencerProfiles, InfluencerId, a.influencerId)
    requires a.createdAt == db.clock
    ensures WellFormed(db.(applications := db.applications + [a], clock := db.clock + 1))
  {
    UniqueAppend(db.applications, ApplicationId, a);
    UniqueAppend(db.applications, ApplicationPair, a);
    IncreasingAppend(db.applications, ApplicationCreatedAt, a);
  }

  lemma CreateApplicationKeepsWellFormed(db: Db, userId: string, input: CreateApplicationInput, today: string, freshId: string)
    requires WellFormed(db)
    ensures WellFormed(CreateApplicationState(db, userId, input, today, freshId))
  {
    if CreateApplicationOutcome(db, userId, input, today, freshId).Pass? {
      var influencerId := GetInfluencerIdByUserId(db, userId).value;
      var c := Lookup(db.campaigns, CampaignId, input.campaignId).value;
      var p :| p in db.influencerProfiles && p.userId == userId && p.id == influencerId;
      assert KeyUsed(db.influencerProfiles, InfluencerId, influencerId);
      assert KeyUsed(db.campaigns, CampaignId, c.id);
      AppendApplicationKeepsWellFormed(db, NewApplication(influencerId, input, freshId, db.clock));
    }
  }

  /** Whether the influencer already applied to the campaign. */
  predicate HasApplied(db: Db, influencerId: string, campaignId: string)
  {
    KeyUsed(db.applications, ApplicationPair, (campaignId, influencerId))
  }

  /** The guards in their order: no influencer profile, then a missing campaign, then a campaign
      that is not recruiting (whatever its dates), then an end date before today, then a
      duplicate. An application succeeds exactly for an influencer who has not yet applied to a
      campaign that the feed shows on that day (and a fresh generated id). */
  lemma CreateApplicationGuards(db: Db, userId: string, input: CreateApplicationInput, today: string, freshId: string)
    requires WellFormed(db)
    ensures var r := CreateApplicationOutcome(db, userId, input, today, freshId);
      var c := Lookup(db.campaigns, CampaignId, input.campaignId);
      var i := GetInfluencerIdByUserId(db, userId);
      && (i.Err? ==> r == Fail(NoInfluencerProfile))
      && (i.Ok? && c.None? ==> r == Fail(CampaignNotFound))
      && (i.Ok? && c.Some? && c.value.status != Recruiting ==> r == Fail(NotRecruiting))
      && (i.Ok? && c.Some? && c.value.status == Recruiting && LexLess(c.value.recruitmentEndDate, today) ==>
            r == Fail(RecruitmentEnded))
      && (i.Ok? && c.Some? && HasApplied(db, i.value, input.campaignId) && OpenOn(c.value, today) ==>
            r == Fail(AlreadyApplied))
      && (r == Pass <==>
            && i.Ok? && c.Some? && OpenOn(c.value, today)
            && !HasApplied(db, i.value, input.campaignId) && !KeyUsed(db.applications, ApplicationId, freshId))
  {
  }

  /** An end date equal to today still accepts applications. */
  lemma EndDateIsInclusive(db: Db, userId: string, input: CreateApplicationInput, freshId: string)
    requires WellFormed(db)
    requires var c := Lookup(db.campaigns, CampaignId, input.campaignId);
      c.Some? && c.value.status == Recruiting
    ensures var today := Lookup(db.campaigns, CampaignId, input.campaignId).value.recruitmentEndDate;
      CreateApplicationOutcome(db, userId, input, today, freshId) != Fail(RecruitmentEnded)
  {
    LexLessIrreflexive(Lookup(db.campaigns, CampaignId, input.campaignId).value.recruitmentEndDate);
  }

  /** A successful application adds exactly one `pending` row with the caller's influencer id and
      the submitted fields, stamped with the clock; every earlier row stays as it was. Applying
      again to the same campaign then fails as a duplicate, whatever the message, date and
      generated id, and the pair has exactly one row. */
  lemma ApplyOnce(db: Db, userId: string, input: CreateApplicationInput, today: string, freshId: string,
                  again: CreateApplicationInput, today': string, freshId': string)
    requires WellFormed(db) && CreateApplicationOutcome(db, userId, input, today, freshId) == Pass
    requires again.campaignId == input.campaignId
    ensures var db' := CreateApplicationState(db, userId, input, today, freshId);
      var influencerId := GetInfluencerIdByUserId(db, userId).value;
      && db'.applications == db.applications + [NewApplication(influencerId, input, freshId, db.clock)]
      && GetInfluencerIdByUserId(db', userId) == Ok(influencerId)
      && CreateApplicationOutcome(db', userId, again, today', freshId') != Pass
      && (CreateApplicationOutcome(db', userId, again, today', freshId').Fail? &&
          Lookup(db'.campaigns, CampaignId, again.campaignId).value.status == Recruiting &&
          !LexLess(Lookup(db'.campaigns, CampaignId, again.campaignId).value.recruitmentEndDate, today') ==>
            CreateApplicationOutcome(db', userId, again, today', freshId') == Fail(AlreadyApplied))
      && |Filter(db'.applications, KeyIs(ApplicationPair, (input.campaignId, influencerId)))| == 1
  {
    var db' := CreateApplicationState(db, userId, input, today, freshId);
    var influencerId := GetInfluencerIdByUserId(db, userId).value;
    var a := NewApplication(influencerId, input, freshId, db.clock);
    CreateApplicationKeepsWellFormed(db, userId, input, today, freshId);
    assert a in db'.applications;
    assert HasApplied(db', influencerId, input.campaignId);
    UniqueKeyMatchesOne(db'.applications, ApplicationPair, (input.campaignId, influencerId));
  }

  /** Each successful application raises the campaign's applicant count by one. */
  lemma ApplyCountsOnce(db: Db, userId: string, input: CreateApplicationInput, today: string, freshId: string)
    requires CreateApplicationOutcome(db, userId, input, today, freshId) == Pass
    ensures GetApplicationCount(CreateApplicationState(db, userId, input, today, freshId), input.campaignId) ==
            GetApplicationCount(db, input.campaignId) + 1
  {
    var a := NewApplication(GetInfluencerIdByUserId(db, userId).value, input, freshId, db.clock);
    FilterAppend(db.applications, a, OfCampaign(input.campaignId));
  }

  // ----- getMyApplications

  /** The campaign fields shown with each of the influencer's applications. */
  datatype CampaignSummary = CampaignSummary(title: string, benefits: string, recruitmentEndDate: string, status: CampaignStatus)

  datatype MyApplication = MyApplication(application: Application, campaign: Option<CampaignSummary>)

  /** The status filter applies only to a non-empty string; an absent or empty one lists every status. */
  predicate StatusMatches(a: Application, status: Option<string>)
  {
    status.None? || status.value == "" || ApplicationStatusName(a.status) == status.value
  }

  function MineWith(influencerId: string, status: Option<string>): Application -> bool
  {
    (a: Application) => a.influencerId == influencerId && StatusMatches(a, status)
  }

  function ToMyApplication(db: Db, a: Application): (r: MyApplication)
    ensures r.application == a
    ensures r.campaign.Some? ==>
      exists c :: c in db.campaigns && c.id == a.campaignId &&
        r.campaign.value == CampaignSummary(c.title, c.benefits, c.recruitmentEndDate, c.status)
    ensures WellFormed(db) && a in db.applications ==> r.campaign.Some?
  {
    match Lookup(db.campaigns, CampaignId, a.campaignId)
    case None => MyApplication(a, None)
    case Some(c) => MyApplication(a, Some(CampaignSummary(c.title, c.benefits, c.recruitmentEndDate, c.status)))
  }

  /** The influencer's application rows that pass the status filter, newest first. */
  function MyApplicationRows(db: Db, influencerId: string, status: Option<string>): (r: seq<Application>)
    ensures forall a :: a in r <==> a in db.applications && a.influencerId == influencerId && StatusMatches(a, status)
    ensures WellFormed(db) ==> Decreasing(r, ApplicationCreatedAt)
  {
    NewestFirst(db.applications, MineWith(influencerId, status), ApplicationCreatedAt)
  }

  /** `getMyApplications`: the caller's applications, optionally of one status, newest first, each
      with its campaign's summary. */
  function GetMyApplications(db: Db, userId: string, status: Option<string>): (r: Result<seq<MyApplication>, Error>)
    ensures r.Err? <==> GetInfluencerIdByUserId(db, userId).Err?
    ensures r.Err? ==> r.error == NoInfluencerProfile
    ensures r.Ok? ==> var rows := MyApplicationRows(db, GetInfluencerIdByUserId(db, userId).value, status);
      |r.value| == |rows| && forall i :: 0 <= i < |rows| ==> r.value[i] == ToMyApplication(db, rows[i])
  {
    match GetInfluencerIdByUserId(db, userId)
    case Err(e) => Err(e)
    case Ok(influencerId) =>
      var rows := MyApplicationRows(db, influencerId, status);
      Ok(seq(|rows|, i requires 0 <= i < |rows| => ToMyApplication(db, rows[i])))
  }

  /** A new application heads the applicant's list, unfiltered or filtered to `pending`. */
  lemma NewApplicationListedFirst(db: Db, userId: string, input: CreateApplicationInput, today: string, freshId: string,
                                  status: Option<string>)
    requires CreateApplicationOutcome(db, userId, input, today, freshId) == Pass
    requires status == None || status == Some("pending")
    ensures var r := GetMyApplications(CreateApplicationState(db, userId, input, today, freshId), userId, status);
      && r.Ok? && |r.value| >= 1
      && r.value[0].application == NewApplication(GetInfluencerIdByUserId(db, userId).value, input, freshId, db.clock)
  {
    var db' := CreateApplicationState(db, userId, input, today, freshId);
    var influencerId := GetInfluencerIdByUserId(db, userId).value;
    var a := NewApplication(influencerId, input, freshId, db.clock);
    assert db'.influencerProfiles == db.influencerProfiles;
    NewestFirstAppend(db.applications, a, MineWith(influencerId, status), ApplicationCreatedAt);
  }

  // ----- getApplicationsByCampaign

  /** The applicant's personal fields, shown only to the campaign's owner. */
  datatype Contact = Contact(name: string, phone: string, email: string, birthDate: string)

  datatype ApplicantInfo = ApplicantInfo(channelName: string, channelUrl: string, followerCount: int, profile: Option<Contact>)

  datatype Applicant = Applicant(application: Application, influencer: Option<ApplicantInfo>)

  function ToApplicant(db: Db, a: Application): (r: Applicant)
    ensures r.application == a
    ensures r.influencer.Some? ==>
      exists p :: p in db.influencerProfiles && p.id == a.influencerId &&
        r.influencer.value.channelName == p.channelName && r.influencer.value.channelUrl == p.channelUrl &&
        r.influencer.value.followerCount == p.followerCount &&
        (r.influencer.value.profile.Some? ==>
          exists q :: q in db.profiles && q.id == p.userId &&
            r.influencer.value.profile.value == Contact(q.name, q.phone, q.email, q.birthDate))
    ensures WellFormed(db) && a in db.applications ==> r.influencer.Some? && r.influencer.value.profile.Some?
  {
    match Lookup(db.influencerProfiles, InfluencerId, a.influencerId)
    case None => Applicant(a, None)
    case Some(p) =>
      var contact :=
        match Lookup(db.profiles, ProfileId, p.userId)
        case None => None
        case Some(q) => Some(Contact(q.name, q.phone, q.email, q.birthDate));
      Applicant(a, Some(ApplicantInfo(p.channelName, p.channelUrl, p.followerCount, contact)))
  }

  /** The owner sees, for every application, the channel of the influencer who applied and the
      name, phone, email and birth date of that influencer's own profile. */
  lemma ApplicantContactIsProfile(db: Db, a: Application, p: InfluencerProfile, q: Profile)
    requires WellFormed(db) && a in db.applications
    requires p in db.influencerProfiles && p.id == a.influencerId
    requires q in db.profiles && q.id == p.userId
    ensures ToApplicant(db, a).influencer ==
      Some(ApplicantInfo(p.channelName, p.channelUrl, p.followerCount, Some(Contact(q.name, q.phone, q.email, q.birthDate))))
  {
    LookupFinds(db.influencerProfiles, InfluencerId, p);
    LookupFinds(db.profiles, ProfileId, q);
  }

  /** The campaign's application rows, oldest first. */
  function ApplicantRows(db: Db, campaignId: string): (r: seq<Application>)
    ensures forall a :: a in r <==> a in db.applications && a.campaignId == campaignId
    ensures WellFormed(db) ==> Increasing(r, ApplicationCreatedAt)
  {
    OldestFirst(db.applications, OfCampaign(campaignId), ApplicationCreatedAt)
  }

  /** `getApplicationsByCampaign`: for the owner only, the campaign's applications oldest first,
      each with the applicant's channel and contact details. */
  function GetApplicationsByCampaign(db: Db, userId: string, campaignId: string): (r: Result<seq<Applicant>, Error>)
    ensures r.Err? <==> CheckOwnership(db, userId, campaignId, CampaignNotFound).Fail?
    ensures r.Err? ==> r.error == CheckOwnership(db, userId, campaignId, CampaignNotFound).error
    ensures WellFormed(db) ==> (r.Ok? <==> Owns(db, userId, campaignId))
    ensures r.Ok? ==> var rows := ApplicantRows(db, campaignId);
      |r.value| == |rows| && forall i :: 0 <= i < |rows| ==> r.value[i] == ToApplicant(db, rows[i])
  {
    match CheckOwnership(db, userId, campaignId, CampaignNotFound)
    case Fail(e) => Err(e)
    case Pass =>
      var rows := ApplicantRows(db, campaignId);
      Ok(seq(|rows|, i requires 0 <= i < |rows| => ToApplicant(db, rows[i])))
  }

  // ----- bulkUpdateApplications

  /** `update({ status }).in("id", ids).eq("campaign_id", campaignId)` on the applications table. */
  function WithApplicationStatus(apps: seq<Application>, ids: seq<string>, campaignId: string, status: ApplicationStatus)
    : (r: seq<Application>)
    ensures |r| == |apps|
    ensures forall i :: 0 <= i < |apps| ==>
      r[i].id == apps[i].id && r[i].campaignId == apps[i].campaignId && r[i].influencerId == apps[i].influencerId &&
      r[i].createdAt == apps[i].createdAt
  {
    seq(|apps|, i requires 0 <= i < |apps| =>
      if apps[i].id in ids && apps[i].campaignId == campaignId then apps[i].(status := status) else apps[i])
  }

  /** The owner check of `bulkUpdateApplications`; a missing campaign is "campaign not found". */
  function BulkUpdateOutcome(db: Db, userId: string, campaignId: string): Outcome<Error>
  {
    CheckOwnership(db, userId, campaignId, CampaignNotFound)
  }

  /** The listed applications of the campaign take the status; a selection also marks the campaign
      `completed`. */
  function BulkUpdateState(db: Db, userId: string, campaignId: string, input: BulkUpdateApplicationsInput): Db
  {
    if BulkUpdateOutcome(db, userId, campaignId).Pass?
    then db.(applications := WithApplicationStatus(db.applications, input.applicationIds, campaignId, input.status),
             campaigns := if input.status == Selected then WithCampaignStatus(db.campaigns, campaignId, Completed)
                          else db.campaigns)
    else db
  }

  /** `bulkUpdateApplications`. The result of the campaign update is not checked by the source and
      it cannot fail here. */
  method BulkUpdateApplications(store: Store, userId: string, campaignId: string, input: BulkUpdateApplicationsInput)
    returns (r: Outcome<Error>)
    requires store.Valid()
    modifies store
    ensures store.Valid()
    ensures r == BulkUpdateOutcome(old(store.Snapshot()), userId, campaignId)
    ensures store.Snapshot() == BulkUpdateState(old(store.Snapshot()), userId, campaignId, input)
  {
    r := CheckOwnership(store.Snapshot(), userId, campaignId, CampaignNotFound);
    if r.Pass? {
      SetApplicationStatus(store, input.applicationIds, campaignId, input.status);
      if input.status == Selected {
        SetCampaignStatus(store, campaignId, Completed);
      }
    }
  }

  /** The write `update({ status }).in("id", ids).eq("campaign_id", campaignId)` on the applications table. */
  method SetApplicationStatus(store: Store, ids: seq<string>, campaignId: string, status: ApplicationStatus)
    requires store.Valid()
    modifies store
    ensures store.Valid()
    ensures store.Snapshot() ==
      old(store.Snapshot()).(applications := WithApplicationStatus(old(store.applications), ids, campaignId, status))
  {
    WithApplicationStatusKeepsWellFormed(store.Snapshot(), ids, campaignId, status);
    store.applications := WithApplicationStatus(store.applications, ids, campaignId, status);
  }

  lemma WithApplicationStatusKeepsWellFormed(db: Db, ids: seq<string>, campaignId: string, status: ApplicationStatus)
    requires WellFormed(db)
    ensures WellFormed(db.(applications := WithApplicationStatus(db.applications, ids, campaignId, status)))
  {
    var apps := WithApplicationStatus(db.applications, ids, campaignId, status);
    UniqueSameKeys(db.applications, apps, ApplicationId);
    UniqueSameKeys(db.applications, apps, ApplicationPair);
    forall a | a in apps
      ensures KeyUsed(db.campaigns, CampaignId, a.campaignId) && KeyUsed(db.influencerProfiles, InfluencerId, a.influencerId)
      ensures a.createdAt < db.clock
    {
      var i :| 0 <= i < |apps| && apps[i] == a;
      assert db.applications[i] in db.applications;
    }
  }

  lemma BulkUpdateKeepsWellFormed(db: Db, userId: string, campaignId: string, input: BulkUpdateApplicationsInput)
    requires WellFormed(db)
    ensures WellFormed(BulkUpdateState(db, userId, campaignId, input))
  {
    if BulkUpdateOutcome(db, userId, campaignId).Pass? {
      WithApplicationStatusKeepsWellFormed(db, input.applicationIds, campaignId, input.status);
      if input.status == Selected {
        var db1 := db.(applications := WithApplicationStatus(db.applications, input.applicationIds, campaignId, input.status));
        WithCampaignStatusKeepsWellFormed(db1, campaignId, Completed);
      }
    }
  }

  /** Looking an application up after the bulk update finds the same row, with the new status
      exactly when it is listed and belongs to the campaign. */
  lemma WithApplicationStatusLookup(apps: seq<Application>, ids: seq<string>, campaignId: string, status: ApplicationStatus, k: string)
    requires Unique(apps, ApplicationId)
    ensures var r := Lookup(WithApplicationStatus(apps, ids, campaignId, status), ApplicationId, k);
      match Lookup(apps, ApplicationId, k)
      case None => r.None?
      case Some(a) => r == Some(if k in ids && a.campaignId == campaignId then a.(status := status) else a)
  {
    var apps' := WithApplicationStatus(apps, ids, campaignId, status);
    UniqueSameKeys(apps, apps', ApplicationId);
    var o := Lookup(apps, ApplicationId, k);
    if o.Some? {
      var i :| 0 <= i < |apps| && apps[i] == o.value;
      assert apps'[i] in apps';
      LookupFinds(apps', ApplicationId, apps'[i]);
    }
  }

  /** For the owner, the bulk update changes the status of exactly the listed applications of the
      campaign; an application of another campaign is untouched even when its id is listed. */
  lemma BulkUpdateEffect(db: Db, userId: string, campaignId: string, input: BulkUpdateApplicationsInput, k: string)
    requires WellFormed(db) && Owns(db, userId, campaignId)
    ensures var db' := BulkUpdateState(db, userId, campaignId, input);
      var before := Lookup(db.applications, ApplicationId, k);
      var after := Lookup(db'.applications, ApplicationId, k);
      && (before.None? ==> after.None?)
      && (before.Some? && before.value.campaignId == campaignId && k in input.applicationIds ==>
            after == Some(before.value.(status := input.status)))
      && (before.Some? && (before.value.campaignId != campaignId || k !in input.applicationIds) ==>
            after == before)
  {
    assert BulkUpdateOutcome(db, userId, campaignId) == Pass;
    WithApplicationStatusLookup(db.applications, input.applicationIds, campaignId, input.status, k);
  }

  /** A selection by the owner always leaves the campaign `completed`, even when no listed id
      matched; a rejection leaves every campaign as it was. */
  lemma BulkUpdateCampaignEffect(db: Db, userId: string, campaignId: string, input: BulkUpdateApplicationsInput)
    requires WellFormed(db) && Owns(db, userId, campaignId)
    ensures var db' := BulkUpdateState(db, userId, campaignId, input);
      && (input.status == Selected ==>
            GetCampaignById(db', campaignId).Ok? && GetCampaignById(db', campaignId).value.campaign.status == Completed)
      && (input.status == Rejected ==> db'.campaigns == db.campaigns)
  {
    assert BulkUpdateOutcome(db, userId, campaignId) == Pass;
    if input.status == Selected {
      var p, c :| p in db.advertiserProfiles && c in db.campaigns &&
        p.userId == userId && c.id == campaignId && c.advertiserId == p.id;
      assert KeyUsed(db.campaigns, CampaignId, campaignId);
      WithCampaignStatusLookup(db.campaigns, campaignId, Completed, campaignId);
    }
  }

  /** For anyone but the owner the bulk update fails with "forbidden" and nothing changes. */
  lemma BulkUpdateByOtherAdvertiser(db: Db, userId: string, campaignId: string, input: BulkUpdateApplicationsInput)
    requires WellFormed(db) && KeyUsed(db.advertiserProfiles, AdvertiserUserId, userId)
    requires KeyUsed(db.campaigns, CampaignId, campaignId) && !Owns(db, userId, campaignId)
    ensures BulkUpdateOutcome(db, userId, campaignId) == Fail(Forbidden)
    ensures BulkUpdateState(db, userId, campaignId, input) == db
    ensures GetApplicationsByCampaign(db, userId, campaignId) == Err(Forbidden)
    ensures UpdateCampaignStatusOutcome(db, userId, campaignId) == Fail(Forbidden)
  {
  }

  /** Once the owner selects, the campaign takes no further applications. */
  lemma NoApplicationsAfterSelection(db: Db, owner: string, campaignId: string, input: BulkUpdateApplicationsInput,
                                     userId: string, apply: CreateApplicationInput, today: string, freshId: string)
    requires WellFormed(db) && Owns(db, owner, campaignId) && input.status == Selected
    requires apply.campaignId == campaignId
    requires KeyUsed(db.influencerProfiles, InfluencerUserId, userId)
    ensures CreateApplicationOutcome(BulkUpdateState(db, owner, campaignId, input), userId, apply, today, freshId) ==
            Fail(NotRecruiting)
  {
    var db' := BulkUpdateState(db, owner, campaignId, input);
    BulkUpdateCampaignEffect(db, owner, campaignId, input);
    BulkUpdateKeepsWellFormed(db, owner, campaignId, input);
    assert db'.influencerProfiles == db.influencerProfiles;
  }

  /** The owner stays the owner of every campaign after a bulk update. */
  lemma BulkUpdateKeepsOwnership(db: Db, owner: string, campaignId: string, input: BulkUpdateApplicationsInput,
                                 userId: string, other: string)
    requires WellFormed(db) && Owns(db, userId, other)
    ensures Owns(BulkUpdateState(db, owner, campaignId, input), userId, other)
  {
    var db' := BulkUpdateState(db, owner, campaignId, input);
    var p, c :| p in db.advertiserProfiles && c in db.campaigns &&
      p.userId == userId && c.id == other && c.advertiserId == p.id;
    assert db'.advertiserProfiles == db.advertiserProfiles;
    if BulkUpdateOutcome(db, owner, campaignId).Pass? && input.status == Selected {
      var cs := WithCampaignStatus(db.campaigns, campaignId, Completed);
      assert db'.campaigns == cs;
      var i :| 0 <= i < |db.campaigns| && db.campaigns[i] == c;
      assert cs[i] in cs;
    } else {
      assert db'.campaigns == db.campaigns;
    }
  }

  /** The selecting half of the two-call workflow. */
  lemma SelectOne(db: Db, owner: string, campaignId: string, first: Application, second: Application)
    requires WellFormed(db) && Owns(db, owner, campaignId)
    requires first in db.applications && second in db.applications && first.id != second.id
    requires first.campaignId == campaignId
    ensures var db1 := BulkUpdateState(db, owner, campaignId, BulkUpdateApplicationsInput([first.id], Selected));
      && WellFormed(db1) && Owns(db1, owner, campaignId)
      && Lookup(db1.applications, ApplicationId, first.id) == Some(first.(status := Selected))
      && Lookup(db1.applications, ApplicationId, second.id) == Some(second)
      && GetCampaignById(db1, campaignId).Ok?
      && GetCampaignById(db1, campaignId).value.campaign.status == Completed
  {
    var select := BulkUpdateApplicationsInput([first.id], Selected);
    LookupFinds(db.applications, ApplicationId, first);
    LookupFinds(db.applications, ApplicationId, second);
    assert BulkUpdateOutcome(db, owner, campaignId) == Pass;
    WithOneStatusLookup(db.applications, first, Selected, second.id);
    BulkUpdateCampaignEffect(db, owner, campaignId, select);
    BulkUpdateKeepsWellFormed(db, owner, campaignId, select);
    BulkUpdateKeepsOwnership(db, owner, campaignId, select, owner, campaignId);
  }

  /** The rejecting half of the two-call workflow: once the owner check passes, rejecting one row of
      the campaign changes that row only, and no campaign. */
  lemma RejectOther(db1: Db, owner: string, campaignId: string, first: Application, second: Application)
    requires Unique(db1.applications, ApplicationId) && BulkUpdateOutcome(db1, owner, campaignId) == Pass
    requires first.id != second.id
    requires Lookup(db1.applications, ApplicationId, second.id) == Some(second) && second.campaignId == campaignId
    ensures var db2 := BulkUpdateState(db1, owner, campaignId, BulkUpdateApplicationsInput([second.id], Rejected));
      && Lookup(db2.applications, ApplicationId, first.id) == Lookup(db1.applications, ApplicationId, first.id)
      && Lookup(db2.applications, ApplicationId, second.id) == Some(second.(status := Rejected))
      && db2.campaigns == db1.campaigns
  {
    var reject := BulkUpdateApplicationsInput([second.id], Rejected);
    var apps := WithApplicationStatus(db1.applications, [second.id], campaignId, Rejected);
    assert BulkUpdateState(db1, owner, campaignId, reject) == db1.(applications := apps);
    WithOneStatusLookup(db1.applications, second, Rejected, first.id);
  }

  /** Setting the status of one stored row of its campaign changes that row and no other. */
  lemma WithOneStatusLookup(apps: seq<Application>, x: Application, status: ApplicationStatus, k: string)
    requires Unique(apps, ApplicationId) && Lookup(apps, ApplicationId, x.id) == Some(x)
    ensures var apps' := WithApplicationStatus(apps, [x.id], x.campaignId, status);
      && Lookup(apps', ApplicationId, x.id) == Some(x.(status := status))
      && (k != x.id ==> Lookup(apps', ApplicationId, k) == Lookup(apps, ApplicationId, k))
  {
    WithApplicationStatusLookup(apps, [x.id], x.campaignId, status, x.id);
    WithApplicationStatusLookup(apps, [x.id], x.campaignId, status, k);
  }

  /** Two pending applicants of a campaign: selecting one makes it `selected` and the campaign
      `completed` while the other stays `pending`; a second call rejecting the other leaves the
      first `selected`. */
  lemma SelectThenReject(db: Db, owner: string, campaignId: string, first: Application, second: Application, db1: Db, db2: Db)
    requires WellFormed(db) && Owns(db, owner, campaignId)
    requires first in db.applications && second in db.applications && first.id != second.id
    requires first.campaignId == campaignId && second.campaignId == campaignId
    requires first.status == Pending && second.status == Pending
    requires db1 == BulkUpdateState(db, owner, campaignId, BulkUpdateApplicationsInput([first.id], Selected))
    requires db2 == BulkUpdateState(db1, owner, campaignId, BulkUpdateApplicationsInput([second.id], Rejected))
    ensures Lookup(db1.applications, ApplicationId, first.id) == Some(first.(status := Selected))
    ensures Lookup(db1.applications, ApplicationId, second.id) == Some(second)
    ensures GetCampaignById(db1, campaignId).Ok? && GetCampaignById(db1, campaignId).value.campaign.status == Completed
    ensures Lookup(db2.applications, ApplicationId, first.id) == Some(first.(status := Selected))
    ensures Lookup(db2.applications, ApplicationId, second.id) == Some(second.(status := Rejected))
    ensures db2.campaigns == db1.campaigns
  {
    SelectOne(db, owner, campaignId, first, second);
    assert BulkUpdateOutcome(db1, owner, campaignId) == Pass;
    RejectOther(db1, owner, campaignId, first, second);
  }
}
