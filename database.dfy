/** The relational store behind the three services: five tables, their keys and constraints,
    and the statuses and errors the services use. */
module Database {
  import opened Wrappers
  import opened Query

  datatype Role = Advertiser | Influencer

  datatype CampaignStatus = Recruiting | Closed | Completed

  datatype ApplicationStatus = Pending | Selected | Rejected

  /** The text values stored in the `role` and `status` columns. */
  function RoleName(r: Role): string
  {
    match r
    case Advertiser => "advertiser"
    case Influencer => "influencer"
  }

  function CampaignStatusName(s: CampaignStatus): string
  {
    match s
    case Recruiting => "recruiting"
    case Closed => "closed"
    case Completed => "completed"
  }

  function ApplicationStatusName(s: ApplicationStatus): string
  {
    match s
    case Pending => "pending"
    case Selected => "selected"
    case Rejected => "rejected"
  }

  /** What a service call throws: its own messages, and the store's errors it rethrows as they are. */
  datatype Error =
    | NoInfluencerProfile   // the caller has no influencer profile
    | NoAdvertiserProfile   // the caller has no advertiser profile
    | CampaignNotFound      // no campaign with that id
    | NotRecruiting         // the campaign is not recruiting
    | RecruitmentEnded      // the recruitment end date has passed
    | AlreadyApplied        // unique violation on an application insert
    | Forbidden             // the caller does not own the campaign
    | NoSingleRow           // `.single()` found no row, rethrown as is
    | UniqueViolation       // unique or primary key violation, rethrown as is
    | ForeignKeyViolation   // the referenced row does not exist, rethrown as is

  /** `profiles`, keyed by the identity provider's user id. */
  datatype Profile = Profile(
    id: string, name: string, birthDate: string, phone: string, email: string, role: Option<Role>)

  /** `influencer_profiles`, one per user. */
  datatype InfluencerProfile = InfluencerProfile(
    id: string, userId: string, channelName: string, channelUrl: string, followerCount: int)

  /** `advertiser_profiles`, one per user. */
  datatype AdvertiserProfile = AdvertiserProfile(
    id: string, userId: string, companyName: string, address: string, businessPhone: string,
    businessNumber: string, representativeName: string)

  /** `campaigns`; `createdAt` is the time of the insert. */
  datatype Campaign = Campaign(
    id: string, advertiserId: string, title: string, recruitmentStartDate: string,
    recruitmentEndDate: string, recruitmentCount: int, benefits: string, storeInfo: string,
    mission: string, status: CampaignStatus, createdAt: nat)

  /** `applications`; `createdAt` is the time of the insert. */
  datatype Application = Application(
    id: string, campaignId: string, influencerId: string, message: string, visitDate: string,
    status: ApplicationStatus, createdAt: nat)

  /** The contents of the five tables, with the store's clock: the time the next insert is stamped with. */
  datatype Db = Db(
    profiles: seq<Profile>,
    influencerProfiles: seq<InfluencerProfile>,
    advertiserProfiles: seq<AdvertiserProfile>,
    campaigns: seq<Campaign>,
    applications: seq<Application>,
    clock: nat)

  // The columns that keys, lookups and orderings are taken on.
  function ProfileId(p: Profile): string { p.id }
  function InfluencerId(p: InfluencerProfile): string { p.id }
  function InfluencerUserId(p: InfluencerProfile): string { p.userId }
  function AdvertiserId(p: AdvertiserProfile): string { p.id }
  function AdvertiserUserId(p: AdvertiserProfile): string { p.userId }
  function CampaignId(c: Campaign): string { c.id }
  function CampaignCreatedAt(c: Campaign): nat { c.createdAt }
  function ApplicationId(a: Application): string { a.id }
  function ApplicationPair(a: Application): (string, string) { (a.campaignId, a.influencerId) }
  function ApplicationCreatedAt(a: Application): nat { a.createdAt }

  /** The constraints of the schema: primary keys, one sub-profile per user, one application per
      (campaign, influencer), every reference resolves, and rows are stamped in insertion order. */
  ghost predicate WellFormed(db: Db)
  {
    && Unique(db.profiles, ProfileId)
    && Unique(db.influencerProfiles, InfluencerId)
    && Unique(db.influencerProfiles, InfluencerUserId)
    && (forall p :: p in db.influencerProfiles ==> KeyUsed(db.profiles, ProfileId, p.userId))
    && Unique(db.advertiserProfiles, AdvertiserId)
    && Unique(db.advertiserProfiles, AdvertiserUserId)
    && (forall p :: p in db.advertiserProfiles ==> KeyUsed(db.profiles, ProfileId, p.userId))
    && Unique(db.campaigns, CampaignId)
    && (forall c :: c in db.campaigns ==> KeyUsed(db.advertiserProfiles, AdvertiserId, c.advertiserId))
    && Increasing(db.campaigns, CampaignCreatedAt)
    && (forall c :: c in db.campaigns ==> c.createdAt < db.clock)
    && Unique(db.applications, ApplicationId)
    && Unique(db.applications, ApplicationPair)
    && (forall a :: a in db.applications ==> KeyUsed(db.campaigns, CampaignId, a.campaignId))
    && (forall a :: a in db.applications ==> KeyUsed(db.influencerProfiles, InfluencerId, a.influencerId))
    && Increasing(db.applications, ApplicationCreatedAt)
    && (forall a :: a in db.applications ==> a.createdAt < db.clock)
  }

  /** The database the services share, updated in place. */
  class Store {
    var profiles: seq<Profile>
    var influencerProfiles: seq<InfluencerProfile>
    var advertiserProfiles: seq<AdvertiserProfile>
    var campaigns: seq<Campaign>
    var applications: seq<Application>
    var clock: nat

    function Snapshot(): Db
      reads this
    {
      Db(profiles, influencerProfiles, advertiserProfiles, campaigns, applications, clock)
    }

    ghost predicate Valid()
      reads this
    {
      WellFormed(Snapshot())
    }

    constructor ()
      ensures Valid()
      ensures Snapshot() == Db([], [], [], [], [], 0)
    {
      profiles, influencerProfiles, advertiserProfiles := [], [], [];
      campaigns, applications, clock := [], [], 0;
    }
  }
}
