/** The campaign service: advertisers create campaigns and change their status; everyone reads
    the feed of open campaigns and a campaign's details. */
module Campaigns {
  import opened Wrappers
  import opened Text
  import opened Query
  import opened Database
  import opened CampaignSchema

  /** `getAdvertiserIdByUserId`: the id of the caller's advertiser profile. */
  function GetAdvertiserIdByUserId(db: Db, userId: string): (r: Result<string, Error>)
    ensures r.Err? ==> r.error == NoAdvertiserProfile
    ensures r.Ok? ==> exists p :: p in db.advertiserProfiles && p.userId == userId && p.id == r.value
    ensures WellFormed(db) ==> (r.Ok? <==> KeyUsed(db.advertiserProfiles, AdvertiserUserId, userId))
  {
    match Lookup(db.advertiserProfiles, AdvertiserUserId, userId)
    case None => Err(NoAdvertiserProfile)
    case Some(p) => Ok(p.id)
  }

  /** The caller's advertiser profile is the one the campaign refers to. */
  predicate Owns(db: Db, userId: string, campaignId: string)
  {
    exists p, c :: p in db.advertiserProfiles && c in db.campaigns &&
      p.userId == userId && c.id == campaignId && c.advertiserId == p.id
  }

  /** The ownership check before a change to a campaign or a read of its applicants: the caller's
      advertiser profile, then the campaign (`missing` is what its absence throws), then whether
      the campaign is the caller's. */
  function CheckOwnership(db: Db, userId: string, campaignId: string, missing: Error): (r: Outcome<Error>)
    ensures WellFormed(db) ==> (r == Pass <==> Owns(db, userId, campaignId))
    ensures WellFormed(db) && !KeyUsed(db.advertiserProfiles, AdvertiserUserId, userId) ==>
      r == Fail(NoAdvertiserProfile)
    ensures (&& WellFormed(db) && KeyUsed(db.advertiserProfiles, AdvertiserUserId, userId)
             && !KeyUsed(db.campaigns, CampaignId, campaignId)) ==>
      r == Fail(missing)
    ensures (&& WellFormed(db) && KeyUsed(db.advertiserProfiles, AdvertiserUserId, userId)
             && KeyUsed(db.campaigns, CampaignId, campaignId) && !Owns(db, userId, campaignId)) ==>
      r == Fail(Forbidden)
  {
    match GetAdvertiserIdByUserId(db, userId)
    case Err(e) => Fail(e)
    case Ok(advertiserId) =>
      match Lookup(db.campaigns, CampaignId, campaignId)
      case None => Fail(missing)
      case Some(c) =>
        OwnershipUnique(db, userId, campaignId, advertiserId, c);
        if c.advertiserId != advertiserId then Fail(Forbidden) else Pass
  }

  /** With unique keys, the found advertiser profile and campaign are the only candidates for `Owns`. */
  lemma OwnershipUnique(db: Db, userId: string, campaignId: string, advertiserId: string, c: Campaign)
    requires Lookup(db.campaigns, CampaignId, campaignId) == Some(c)
    requires exists p :: p in db.advertiserProfiles && p.userId == userId && p.id == advertiserId
    ensures c.advertiserId == advertiserId ==> Owns(db, userId, campaignId)
    ensures WellFormed(db) && Owns(db, userId, campaignId) ==> c.advertiserId == advertiserId
  {
    var p :| p in db.advertiserProfiles && p.userId == userId && p.id == advertiserId;
    if WellFormed(db) && Owns(db, userId, campaignId) {
      var p', c' :| p' in db.advertiserProfiles && c' in db.campaigns &&
        p'.userId == userId && c'.id == campaignId && c'.advertiserId == p'.id;
      LookupFinds(db.advertiserProfiles, AdvertiserUserId, p);
      LookupFinds(db.advertiserProfiles, AdvertiserUserId, p');
      LookupFinds(db.campaigns, CampaignId, c');
    }
  }

  // ----- createCampaign

  function NewCampaign(advertiserId: string, input: CreateCampaignInput, freshId: string, at: nat): Campaign
  {
    Campaign(freshId, advertiserId, input.title, input.recruitmentStartDate, input.recruitmentEndDate,
             input.recruitmentCount, input.benefits, input.storeInfo, input.mission, Recruiting, at)
  }

  /** The caller must have an advertiser profile; the insert fails when the generated id is taken. */
  function CreateCampaignOutcome(db: Db, userId: string, freshId: string): Outcome<Error>
  {
    match GetAdvertiserIdByUserId(db, userId)
    case Err(e) => Fail(e)
    case Ok(_) => if KeyUsed(db.campaigns, CampaignId, freshId) then Fail(UniqueViolation) else Pass
  }

  /** A created campaign is always `recruiting` and stamped with the store's clock. */
  function CreateCampaignState(db: Db, userId: string, input: CreateCampaignInput, freshId: string): Db
  {
    if CreateCampaignOutcome(db, userId, freshId).Pass?
    then db.(campaigns := db.campaigns + [NewCampaign(GetAdvertiserIdByUserId(db, userId).value, input, freshId, db.clock)],
             clock := db.clock + 1)
    else db
  }

  /** `createCampaign`. `freshId` is the id the database generates for the row. */
  method CreateCampaign(store: Store, userId: string, input: CreateCampaignInput, freshId: string)
    returns (r: Outcome<Error>)
    requires store.Valid()
    modifies store
    ensures store.Valid()
    ensures r == CreateCampaignOutcome(old(store.Snapshot()), userId, freshId)
    ensures store.Snapshot() == CreateCampaignState(old(store.Snapshot()), userId, input, freshId)
  {
    ghost var db := store.Snapshot();
    var advertiser := GetAdvertiserIdByUserId(store.Snapshot(), userId);
    if advertiser.Err? {
      return Fail(advertiser.error);
    }
    if KeyUsed(store.campaigns, CampaignId, freshId) {
      return Fail(UniqueViolation);
    }
    ghost var p :| p in store.advertiserProfiles && p.userId == userId && p.id == advertiser.value;
    InsertCampaign(store, NewCampaign(advertiser.value, input, freshId, store.clock));
    r := Pass;
  }

  /** The insert into the campaigns table: the id is new, the advertiser exists and the row is
      stamped with the store's clock. */
  method InsertCampaign(store: Store, c: Campaign)
    requires store.Valid()
    requires !KeyUsed(store.campaigns, CampaignId, c.id)
    requires KeyUsed(store.advertiserProfiles, AdvertiserId, c.advertiserId)
    requires c.createdAt == store.clock
    modifies store
    ensures store.Valid()
    ensures store.Snapshot() == old(store.Snapshot()).(campaigns := old(store.campaigns) + [c], clock := old(store.clock) + 1)
  {
    AppendCampaignKeepsWellFormed(store.Snapshot(), c);
    store.campaigns := store.campaigns + [c];
    store.clock := store.clock + 1;
  }

  lemma AppendCampaignKeepsWellFormed(db: Db, c: Campaign)
    requires WellFormed(db)
    requires !KeyUsed(db.campaigns, CampaignId, c.id)
    requires KeyUsed(db.advertiserProfiles, AdvertiserId, c.advertiserId)
    requires c.createdAt == db.clock
    ensures WellFormed(db.(campaigns := db.campaigns + [c], clock := db.clock + 1))
  {
    var db' := db.(campaigns := db.campaigns + [c], clock := db.clock + 1);
    UniqueAppend(db.campaigns, CampaignId, c);
    IncreasingAppend(db.campaigns, CampaignCreatedAt, c);
    forall a | a in db.applications ensures KeyUsed(db'.campaigns, CampaignId, a.campaignId) {
      var x :| x in db.campaigns && x.id == a.campaignId;
      assert x in db'.campaigns;
    }
  }

  lemma CreateCampaignKeepsWellFormed(db: Db, userId: string, input: CreateCampaignInput, freshId: string)
    requires WellFormed(db)
    ensures WellFormed(CreateCampaignState(db, userId, input, freshId))
  {
    if CreateCampaignOutcome(db, userId, freshId).Pass? {
      var advertiserId := GetAdvertiserIdByUserId(db, userId).value;
      var p :| p in db.advertiserProfiles && p.userId == userId && p.id == advertiserId;
      assert KeyUsed(db.advertiserProfiles, AdvertiserId, advertiserId);
      AppendCampaignKeepsWellFormed(db, NewCampaign(advertiserId, input, freshId, db.clock));
    }
  }

  // ----- getRecruitingCampaigns

  /** The feed's filter: status `recruiting` and an end date on or after `today`. */
  predicate OpenOn(c: Campaign, today: string)
  {
    c.status == Recruiting && !LexLess(c.recruitmentEndDate, today)
  }

  function IsOpenOn(today: string): Campaign -> bool
  {
    c => OpenOn(c, today)
  }

  /** The open campaigns, newest first. */
  function OpenCampaigns(db: Db, today: string): (r: seq<Campaign>)
    ensures forall c :: c in r <==> c in db.campaigns && OpenOn(c, today)
    ensures WellFormed(db) ==> Decreasing(r, CampaignCreatedAt)
  {
    NewestFirst(db.campaigns, IsOpenOn(today), CampaignCreatedAt)
  }

  datatype AdvertiserSummary = AdvertiserSummary(companyName: string, address: string)

  /** A feed entry: the campaign with its advertiser's company name and address. */
  datatype FeedItem = FeedItem(campaign: Campaign, advertiser: Option<AdvertiserSummary>)

  /** The embedded advertiser of a campaign, null when the reference does not resolve. */
  function ToFeedItem(db: Db, c: Campaign): (r: FeedItem)
    ensures r.campaign == c
    ensures r.advertiser.Some? ==>
      exists p :: p in db.advertiserProfiles && p.id == c.advertiserId &&
        r.advertiser.value == AdvertiserSummary(p.companyName, p.address)
    ensures WellFormed(db) && c in db.campaigns ==> r.advertiser.Some?
  {
    match Lookup(db.advertiserProfiles, AdvertiserId, c.advertiserId)
    case None => FeedItem(c, None)
    case Some(p) => FeedItem(c, Some(AdvertiserSummary(p.companyName, p.address)))
  }

  function ToFeedItems(db: Db, cs: seq<Campaign>): (r: seq<FeedItem>)
    ensures |r| == |cs|
    ensures forall i :: 0 <= i < |cs| ==> r[i] == ToFeedItem(db, cs[i])
  {
    seq(|cs|, i requires 0 <= i < |cs| => ToFeedItem(db, cs[i]))
  }

  /** `getRecruitingCampaigns(limit = 20, offset = 0)`: one page of the open campaigns, newest
      first, each with its advertiser. `today` is the server's current date, `YYYY-MM-DD`. */
  function GetRecruitingCampaigns(db: Db, today: string, limit: nat := 20, offset: nat := 0): (r: seq<FeedItem>)
    ensures |r| <= limit
    ensures |r| == if offset >= |OpenCampaigns(db, today)| then 0 else Min(limit, |OpenCampaigns(db, today)| - offset)
    ensures forall i :: 0 <= i < |r| ==> r[i].campaign == OpenCampaigns(db, today)[offset + i]
    ensures forall i :: 0 <= i < |r| ==> r[i].campaign in db.campaigns && OpenOn(r[i].campaign, today)
    ensures WellFormed(db) ==>
      forall i, j :: 0 <= i < j < |r| ==> r[i].campaign.createdAt > r[j].campaign.createdAt
    ensures forall i :: 0 <= i < |r| ==> r[i] == ToFeedItem(db, r[i].campaign)
    ensures WellFormed(db) ==> forall i :: 0 <= i < |r| ==> r[i].advertiser.Some?
  {
    var open := OpenCampaigns(db, today);
    var page := Range(open, offset, limit);
    assert forall i :: 0 <= i < |page| ==> page[i] in open by {
      forall i | 0 <= i < |page| ensures page[i] in open {
        assert page[i] == open[offset + i];
      }
    }
    ToFeedItems(db, page)
  }

  /** Two consecutive pages of the feed are the page that spans both. */
  lemma FeedPagesConcat(db: Db, today: string, offset: nat, a: nat, b: nat)
    ensures GetRecruitingCampaigns(db, today, a, offset) + GetRecruitingCampaigns(db, today, b, offset + a) ==
            GetRecruitingCampaigns(db, today, a + b, offset)
  {
    var open := OpenCampaigns(db, today);
    RangeConcat(open, offset, a, b);
    var l, r := Range(open, offset, a), Range(open, offset + a, b);
    assert ToFeedItems(db, l) + ToFeedItems(db, r) == ToFeedItems(db, l + r);
  }

  /** A campaign just created heads the first page of the feed for any day up to its end date. */
  lemma NewCampaignHeadsFeed(db: Db, userId: string, input: CreateCampaignInput, freshId: string, today: string, limit: nat)
    requires WellFormed(db) && CreateCampaignOutcome(db, userId, freshId) == Pass
    requires !LexLess(input.recruitmentEndDate, today) && limit >= 1
    ensures var db' := CreateCampaignState(db, userId, input, freshId);
      var feed := GetRecruitingCampaigns(db', today, limit);
      |feed| >= 1 &&
      feed[0].campaign == NewCampaign(GetAdvertiserIdByUserId(db, userId).value, input, freshId, db.clock)
  {
    var c := NewCampaign(GetAdvertiserIdByUserId(db, userId).value, input, freshId, db.clock);
    NewestFirstAppend(db.campaigns, c, IsOpenOn(today), CampaignCreatedAt);
  }

  // ----- getCampaignById

  datatype AdvertiserContact = AdvertiserContact(companyName: string, address: string, businessPhone: string)

  /** A campaign with its advertiser's company name, address and business phone. */
  datatype CampaignDetail = CampaignDetail(campaign: Campaign, advertiser: Option<AdvertiserContact>)

  /** `getCampaignById`: exactly one campaign, or the store's no-row error. */
  function GetCampaignById(db: Db, campaignId: string): (r: Result<CampaignDetail, Error>)
    ensures r.Err? ==> r.error == NoSingleRow
    ensures r.Ok? ==> r.value.campaign in db.campaigns && r.value.campaign.id == campaignId
    ensures r.Ok? && r.value.advertiser.Some? ==>
      exists p :: p in db.advertiserProfiles && p.id == r.value.campaign.advertiserId &&
        r.value.advertiser.value == AdvertiserContact(p.companyName, p.address, p.businessPhone)
    ensures WellFormed(db) ==> (r.Ok? <==> KeyUsed(db.campaigns, CampaignId, campaignId))
    ensures WellFormed(db) && r.Ok? ==> r.value.advertiser.Some?
  {
    match Lookup(db.campaigns, CampaignId, campaignId)
    case None => Err(NoSingleRow)
    case Some(c) =>
      match Lookup(db.advertiserProfiles, AdvertiserId, c.advertiserId)
      case None => Ok(CampaignDetail(c, None))
      case Some(p) => Ok(CampaignDetail(c, Some(AdvertiserContact(p.companyName, p.address, p.businessPhone))))
  }

  // ----- getCampaignsByAdvertiser

  function OfAdvertiser(advertiserId: string): Campaign -> bool
  {
    (c: Campaign) => c.advertiserId == advertiserId
  }

  /** `getCampaignsByAdvertiser`: all of the caller's campaigns, newest first, whatever their status. */
  function GetCampaignsByAdvertiser(db: Db, userId: string): (r: Result<seq<Campaign>, Error>)
    ensures r.Err? <==> GetAdvertiserIdByUserId(db, userId).Err?
    ensures r.Err? ==> r.error == NoAdvertiserProfile
    ensures r.Ok? ==> forall c :: c in r.value <==>
      c in db.campaigns && c.advertiserId == GetAdvertiserIdByUserId(db, userId).value
    ensures WellFormed(db) && r.Ok? ==> forall c :: c in r.value <==> c in db.campaigns && Owns(db, userId, c.id)
    ensures WellFormed(db) && r.Ok? ==> Decreasing(r.value, CampaignCreatedAt)
  {
    match GetAdvertiserIdByUserId(db, userId)
    case Err(e) => Err(e)
    case Ok(advertiserId) =>
      var r := NewestFirst(db.campaigns, OfAdvertiser(advertiserId), CampaignCreatedAt);
      OwnedCampaigns(db, userId, advertiserId);
      Ok(r)
  }

  lemma OwnedCampaigns(db: Db, userId: string, advertiserId: string)
    requires GetAdvertiserIdByUserId(db, userId) == Ok(advertiserId)
    ensures WellFormed(db) ==>
      forall c :: c in db.campaigns ==> (c.advertiserId == advertiserId <==> Owns(db, userId, c.id))
  {
    if WellFormed(db) {
      forall c | c in db.campaigns ensures c.advertiserId == advertiserId <==> Owns(db, userId, c.id) {
        LookupFinds(db.campaigns, CampaignId, c);
        OwnershipUnique(db, userId, c.id, advertiserId, c);
      }
    }
  }

  // ----- updateCampaignStatus

  /** `update({ status }).eq("id", campaignId)` on the campaigns table. */
  function WithCampaignStatus(cs: seq<Campaign>, campaignId: string, status: CampaignStatus): (r: seq<Campaign>)
    ensures |r| == |cs|
    ensures forall i :: 0 <= i < |cs| ==>
      r[i].id == cs[i].id && r[i].createdAt == cs[i].createdAt && r[i].advertiserId == cs[i].advertiserId
  {
    seq(|cs|, i requires 0 <= i < |cs| => if cs[i].id == campaignId then cs[i].(status := status) else cs[i])
  }

  /** Only the owner may change the status; a missing campaign rethrows the store's no-row error. */
  function UpdateCampaignStatusOutcome(db: Db, userId: string, campaignId: string): Outcome<Error>
  {
    CheckOwnership(db, userId, campaignId, NoSingleRow)
  }

  function UpdateCampaignStatusState(db: Db, userId: string, campaignId: string, status: CampaignStatus): Db
  {
    if UpdateCampaignStatusOutcome(db, userId, campaignId).Pass?
    then db.(campaigns := WithCampaignStatus(db.campaigns, campaignId, status))
    else db
  }

  /** `updateCampaignStatus`: any status may follow any other. */
  method UpdateCampaignStatus(store: Store, userId: string, campaignId: string, status: CampaignStatus)
    returns (r: Outcome<Error>)
    requires store.Valid()
    modifies store
    ensures store.Valid()
    ensures r == UpdateCampaignStatusOutcome(old(store.Snapshot()), userId, campaignId)
    ensures store.Snapshot() == UpdateCampaignStatusState(old(store.Snapshot()), userId, campaignId, status)
  {
    ghost var db := store.Snapshot();
    r := CheckOwnership(store.Snapshot(), userId, campaignId, NoSingleRow);
    if r.Pass? {
      SetCampaignStatus(store, campaignId, status);
    }
  }

  lemma WithCampaignStatusKeepsWellFormed(db: Db, campaignId: string, status: CampaignStatus)
    requires WellFormed(db)
    ensures WellFormed(db.(campaigns := WithCampaignStatus(db.campaigns, campaignId, status)))
  {
    var cs := WithCampaignStatus(db.campaigns, campaignId, status);
    UniqueSameKeys(db.campaigns, cs, CampaignId);
    forall c | c in cs ensures KeyUsed(db.advertiserProfiles, AdvertiserId, c.advertiserId) && c.createdAt < db.clock {
      var i :| 0 <= i < |cs| && cs[i] == c;
      assert db.campaigns[i] in db.campaigns;
    }
  }

  /** The write `update({ status }).eq("id", campaignId)` on the campaigns table. */
  method SetCampaignStatus(store: Store, campaignId: string, status: CampaignStatus)
    requires store.Valid()
    modifies store
    ensures store.Valid()
    ensures store.Snapshot() == old(store.Snapshot()).(campaigns := WithCampaignStatus(old(store.campaigns), campaignId, status))
  {
    WithCampaignStatusKeepsWellFormed(store.Snapshot(), campaignId, status);
    store.campaigns := WithCampaignStatus(store.campaigns, campaignId, status);
  }

  lemma UpdateCampaignStatusKeepsWellFormed(db: Db, userId: string, campaignId: string, status: CampaignStatus)
    requires WellFormed(db)
    ensures WellFormed(UpdateCampaignStatusState(db, userId, campaignId, status))
  {
    WithCampaignStatusKeepsWellFormed(db, campaignId, status);
  }

  /** Looking a campaign up after the status update finds the same row, with the new status when
      it is the updated campaign. */
  lemma WithCampaignStatusLookup(cs: seq<Campaign>, campaignId: string, status: CampaignStatus, k: string)
    requires Unique(cs, CampaignId)
    ensures var r := Lookup(WithCampaignStatus(cs, campaignId, status), CampaignId, k);
      match Lookup(cs, CampaignId, k)
      case None => r.None?
      case Some(c) => r == Some(if k == campaignId then c.(status := status) else c)
  {
    var cs' := WithCampaignStatus(cs, campaignId, status);
    UniqueSameKeys(cs, cs', CampaignId);
    var o := Lookup(cs, CampaignId, k);
    if o.Some? {
      var i :| 0 <= i < |cs| && cs[i] == o.value;
      assert cs'[i] in cs';
      LookupFinds(cs', CampaignId, cs'[i]);
    }
  }

  /** After the owner's update the campaign reads back with the new status and nothing else changed,
      whatever its status was before; every other campaign reads back as it was. */
  lemma UpdateCampaignStatusEffect(db: Db, userId: string, campaignId: string, status: CampaignStatus, other: string)
    requires WellFormed(db) && Owns(db, userId, campaignId)
    ensures var db' := UpdateCampaignStatusState(db, userId, campaignId, status);
      && GetCampaignById(db', campaignId).Ok?
      && GetCampaignById(db', campaignId).value.campaign == GetCampaignById(db, campaignId).value.campaign.(status := status)
      && (other != campaignId ==> Lookup(db'.campaigns, CampaignId, other) == Lookup(db.campaigns, CampaignId, other))
      && db'.applications == db.applications
  {
    assert UpdateCampaignStatusOutcome(db, userId, campaignId) == Pass;
    var db' := db.(campaigns := WithCampaignStatus(db.campaigns, campaignId, status));
    assert UpdateCampaignStatusState(db, userId, campaignId, status) == db';
    WithCampaignStatusKeepsWellFormed(db, campaignId, status);
    var p, c :| p in db.advertiserProfiles && c in db.campaigns &&
      p.userId == userId && c.id == campaignId && c.advertiserId == p.id;
    assert KeyUsed(db.campaigns, CampaignId, campaignId);
    WithCampaignStatusLookup(db.campaigns, campaignId, status, campaignId);
    WithCampaignStatusLookup(db.campaigns, campaignId, status, other);
  }

  /** A campaign closed by its owner leaves every page of the feed, on every day. */
  lemma ClosedCampaignLeavesFeed(db: Db, userId: string, campaignId: string, today: string, limit: nat, offset: nat)
    requires WellFormed(db) && Owns(db, userId, campaignId)
    ensures var feed := GetRecruitingCampaigns(UpdateCampaignStatusState(db, userId, campaignId, Closed), today, limit, offset);
      forall i :: 0 <= i < |feed| ==> feed[i].campaign.id != campaignId
  {
    var db' := UpdateCampaignStatusState(db, userId, campaignId, Closed);
    forall c | c in db'.campaigns && c.id == campaignId ensures c.status == Closed {
      var i :| 0 <= i < |db'.campaigns| && db'.campaigns[i] == c;
    }
  }

  // ----- getApplicationCount

  function OfCampaign(campaignId: string): Application -> bool
  {
    (a: Application) => a.campaignId == campaignId
  }

  /** `getApplicationCount`: the number of applications to the campaign (0 when there are none). */
  function GetApplicationCount(db: Db, campaignId: string): (n: nat)
    ensures n == |Filter(db.applications, OfCampaign(campaignId))|
    ensures n <= |db.applications|
    ensures n == 0 <==> forall a :: a in db.applications ==> a.campaignId != campaignId
  {
    Count(db.applications, OfCampaign(campaignId))
  }
}
