/** The profile service: the common profile keyed by the user id, the two role sub-profiles,
    and the merged view of both. */
module Profiles {
  import opened Wrappers
  import opened Query
  import opened Database
  import opened ProfileSchema

  /** `getProfile`: the caller's profile row, or null (not an error) when there is none. */
  function GetProfile(db: Db, userId: string): (r: Option<Profile>)
    ensures r.Some? ==> r.value in db.profiles && r.value.id == userId
    ensures WellFormed(db) ==> (r.None? <==> !KeyUsed(db.profiles, ProfileId, userId))
  {
    Lookup(db.profiles, ProfileId, userId)
  }

  /** `getInfluencerProfile`: the caller's influencer sub-profile, or null. */
  function GetInfluencerProfile(db: Db, userId: string): (r: Option<InfluencerProfile>)
    ensures r.Some? ==> r.value in db.influencerProfiles && r.value.userId == userId
    ensures WellFormed(db) ==> (r.None? <==> !KeyUsed(db.influencerProfiles, InfluencerUserId, userId))
  {
    Lookup(db.influencerProfiles, InfluencerUserId, userId)
  }

  /** `getAdvertiserProfile`: the caller's advertiser sub-profile, or null. */
  function GetAdvertiserProfile(db: Db, userId: string): (r: Option<AdvertiserProfile>)
    ensures r.Some? ==> r.value in db.advertiserProfiles && r.value.userId == userId
    ensures WellFormed(db) ==> (r.None? <==> !KeyUsed(db.advertiserProfiles, AdvertiserUserId, userId))
  {
    Lookup(db.advertiserProfiles, AdvertiserUserId, userId)
  }

  datatype RoleProfile = InfluencerRole(influencer: InfluencerProfile) | AdvertiserRole(advertiser: AdvertiserProfile)

  /** A profile merged with the sub-profile of its role. */
  datatype FullProfile = FullProfile(profile: Profile, roleProfile: Option<RoleProfile>)

  /** `getFullProfile`: null without a profile; otherwise the profile with the sub-profile its stored
      role names, or a null sub-profile when the role is unset or that sub-profile is missing. */
  function GetFullProfile(db: Db, userId: string): (r: Option<FullProfile>)
    ensures r.None? <==> GetProfile(db, userId).None?
    ensures r.Some? ==> r.value.profile in db.profiles && r.value.profile.id == userId
    ensures r.Some? && r.value.roleProfile.Some? && r.value.roleProfile.value.InfluencerRole? ==>
      r.value.profile.role == Some(Influencer) &&
      r.value.roleProfile.value.influencer in db.influencerProfiles &&
      r.value.roleProfile.value.influencer.userId == userId
    ensures r.Some? && r.value.roleProfile.Some? && r.value.roleProfile.value.AdvertiserRole? ==>
      r.value.profile.role == Some(Advertiser) &&
      r.value.roleProfile.value.advertiser in db.advertiserProfiles &&
      r.value.roleProfile.value.advertiser.userId == userId
    ensures r.Some? && WellFormed(db) ==>
      (r.value.roleProfile.None? <==>
        || r.value.profile.role.None?
        || (r.value.profile.role == Some(Influencer) && !KeyUsed(db.influencerProfiles, InfluencerUserId, userId))
        || (r.value.profile.role == Some(Advertiser) && !KeyUsed(db.advertiserProfiles, AdvertiserUserId, userId)))
  {
    match GetProfile(db, userId)
    case None => None
    case Some(profile) =>
      var roleProfile :=
        match profile.role
        case Some(Influencer) =>
          (match GetInfluencerProfile(db, userId) case Some(p) => Some(InfluencerRole(p)) case None => None)
        case Some(Advertiser) =>
          (match GetAdvertiserProfile(db, userId) case Some(p) => Some(AdvertiserRole(p)) case None => None)
        case None => None;
      Some(FullProfile(profile, roleProfile))
  }

  // ----- createProfile

  function NewProfile(userId: string, input: CreateProfileInput): Profile
  {
    Profile(userId, input.name, input.birthDate, input.phone, input.email, Some(input.role))
  }

  /** The insert fails on the primary key when the user already has a profile. */
  function CreateProfileOutcome(db: Db, userId: string): Outcome<Error>
  {
    if KeyUsed(db.profiles, ProfileId, userId) then Fail(UniqueViolation) else Pass
  }

  function CreateProfileState(db: Db, userId: string, input: CreateProfileInput): Db
  {
    if CreateProfileOutcome(db, userId).Pass?
    then db.(profiles := db.profiles + [NewProfile(userId, input)])
    else db
  }

  /** `createProfile` (the terms-agreement time it also stores is not modelled). */
  method CreateProfile(store: Store, userId: string, input: CreateProfileInput) returns (r: Outcome<Error>)
    requires store.Valid()
    modifies store
    ensures store.Valid()
    ensures r == CreateProfileOutcome(old(store.Snapshot()), userId)
    ensures store.Snapshot() == CreateProfileState(old(store.Snapshot()), userId, input)
  {
    ghost var db := store.Snapshot();
    if KeyUsed(store.profiles, ProfileId, userId) {
      return Fail(UniqueViolation);
    }
    CreateProfileKeepsWellFormed(db, userId, input);
    store.profiles := store.profiles + [NewProfile(userId, input)];
    r := Pass;
  }

  lemma CreateProfileKeepsWellFormed(db: Db, userId: string, input: CreateProfileInput)
    requires WellFormed(db)
    ensures WellFormed(CreateProfileState(db, userId, input))
  {
    if CreateProfileOutcome(db, userId).Pass? {
      var db' := CreateProfileState(db, userId, input);
      UniqueAppend(db.profiles, ProfileId, NewProfile(userId, input));
      forall u | KeyUsed(db.profiles, ProfileId, u) ensures KeyUsed(db'.profiles, ProfileId, u) {
        var x :| x in db.profiles && x.id == u;
        assert x in db'.profiles;
      }
    }
  }

  /** After a successful create the profile reads back as submitted, and a second create for the
      same user fails on the primary key. */
  lemma CreateProfileRoundTrip(db: Db, userId: string, input: CreateProfileInput, again: CreateProfileInput)
    requires WellFormed(db) && CreateProfileOutcome(db, userId) == Pass
    ensures GetProfile(CreateProfileState(db, userId, input), userId) == Some(NewProfile(userId, input))
    ensures CreateProfileOutcome(CreateProfileState(db, userId, input), userId) == Fail(UniqueViolation)
    ensures CreateProfileState(CreateProfileState(db, userId, input), userId, again) == CreateProfileState(db, userId, input)
  {
    var db' := CreateProfileState(db, userId, input);
    CreateProfileKeepsWellFormed(db, userId, input);
    assert NewProfile(userId, input) in db'.profiles;
    LookupFinds(db'.profiles, ProfileId, NewProfile(userId, input));
  }

  // ----- createInfluencerProfile / createAdvertiserProfile

  /** `update({ role }).eq("id", userId)` on the profiles table. */
  function WithRole(ps: seq<Profile>, userId: string, role: Role): (r: seq<Profile>)
    ensures |r| == |ps|
    ensures forall i :: 0 <= i < |ps| ==> r[i].id == ps[i].id
  {
    seq(|ps|, i requires 0 <= i < |ps| => if ps[i].id == userId then ps[i].(role := Some(role)) else ps[i])
  }

  /** Setting the role keeps the profiles' keys, the user's profile now carries that role, and every
      other user's profile is as it was. */
  lemma WithRoleLookup(ps: seq<Profile>, userId: string, role: Role)
    requires Unique(ps, ProfileId)
    ensures Unique(WithRole(ps, userId, role), ProfileId)
    ensures forall u :: KeyUsed(WithRole(ps, userId, role), ProfileId, u) <==> KeyUsed(ps, ProfileId, u)
    ensures Lookup(ps, ProfileId, userId).Some? ==>
      Lookup(WithRole(ps, userId, role), ProfileId, userId) == Some(Lookup(ps, ProfileId, userId).value.(role := Some(role)))
    ensures forall u :: u != userId ==> Lookup(WithRole(ps, userId, role), ProfileId, u) == Lookup(ps, ProfileId, u)
  {
    var r := WithRole(ps, userId, role);
    UniqueSameKeys(ps, r, ProfileId);
    var before := Lookup(ps, ProfileId, userId);
    if before.Some? {
      var i :| 0 <= i < |ps| && ps[i] == before.value;
      assert r[i] == before.value.(role := Some(role));
      assert r[i] in r;
      LookupFinds(r, ProfileId, r[i]);
    }
    forall u | u != userId ensures Lookup(r, ProfileId, u) == Lookup(ps, ProfileId, u) {
      var o := Lookup(ps, ProfileId, u);
      if o.Some? {
        var i :| 0 <= i < |ps| && ps[i] == o.value;
        assert r[i] == ps[i];
        assert r[i] in r;
        LookupFinds(r, ProfileId, r[i]);
      }
    }
  }

  function NewInfluencerProfile(userId: string, input: CreateInfluencerProfileInput, freshId: string): InfluencerProfile
  {
    InfluencerProfile(freshId, userId, input.channelName, input.channelUrl, input.followerCount)
  }

  /** The sub-profile insert fails on a unique key (the generated id, or a second sub-profile for the
      user) and otherwise on the reference to the profile. */
  function CreateInfluencerProfileOutcome(db: Db, userId: string, freshId: string): Outcome<Error>
  {
    if KeyUsed(db.influencerProfiles, InfluencerId, freshId) || KeyUsed(db.influencerProfiles, InfluencerUserId, userId)
    then Fail(UniqueViolation)
    else if !KeyUsed(db.profiles, ProfileId, userId) then Fail(ForeignKeyViolation)
    else Pass
  }

  function CreateInfluencerProfileState(db: Db, userId: string, input: CreateInfluencerProfileInput, freshId: string): Db
  {
    if CreateInfluencerProfileOutcome(db, userId, freshId).Pass?
    then db.(influencerProfiles := db.influencerProfiles + [NewInfluencerProfile(userId, input, freshId)],
             profiles := WithRole(db.profiles, userId, Influencer))
    else db
  }

  /** `createInfluencerProfile`: insert the sub-profile, then set the profile's role; a failed insert
      leaves the role untouched. `freshId` is the id the database generates for the row. */
  method CreateInfluencerProfile(store: Store, userId: string, input: CreateInfluencerProfileInput, freshId: string)
    returns (r: Outcome<Error>)
    requires store.Valid()
    modifies store
    ensures store.Valid()
    ensures r == CreateInfluencerProfileOutcome(old(store.Snapshot()), userId, freshId)
    ensures store.Snapshot() == CreateInfluencerProfileState(old(store.Snapshot()), userId, input, freshId)
  {
    ghost var db := store.Snapshot();
    if KeyUsed(store.influencerProfiles, InfluencerId, freshId) || KeyUsed(store.influencerProfiles, InfluencerUserId, userId) {
      return Fail(UniqueViolation);
    }
    if !KeyUsed(store.profiles, ProfileId, userId) {
      return Fail(ForeignKeyViolation);
    }
    CreateInfluencerProfileKeepsWellFormed(db, userId, input, freshId);
    store.influencerProfiles := store.influencerProfiles + [NewInfluencerProfile(userId, input, freshId)];
    store.profiles := WithRole(store.profiles, userId, Influencer);
    r := Pass;
  }

  lemma CreateInfluencerProfileKeepsWellFormed(db: Db, userId: string, input: CreateInfluencerProfileInput, freshId: string)
    requires WellFormed(db)
    ensures WellFormed(CreateInfluencerProfileState(db, userId, input, freshId))
  {
    if CreateInfluencerProfileOutcome(db, userId, freshId).Pass? {
      var db' := CreateInfluencerProfileState(db, userId, input, freshId);
      var row := NewInfluencerProfile(userId, input, freshId);
      UniqueAppend(db.influencerProfiles, InfluencerId, row);
      UniqueAppend(db.influencerProfiles, InfluencerUserId, row);
      WithRoleLookup(db.profiles, userId, Influencer);
      forall k | KeyUsed(db.influencerProfiles, InfluencerId, k) ensures KeyUsed(db'.influencerProfiles, InfluencerId, k) {
        var x :| x in db.influencerProfiles && x.id == k;
        assert x in db'.influencerProfiles;
      }
    }
  }

  /** After a successful sub-profile insert the full profile has role `influencer` and, as its
      role profile, exactly the submitted fields. */
  lemma InfluencerProfileRoundTrip(db: Db, userId: string, input: CreateInfluencerProfileInput, freshId: string)
    requires WellFormed(db) && CreateInfluencerProfileOutcome(db, userId, freshId) == Pass
    ensures GetFullProfile(CreateInfluencerProfileState(db, userId, input, freshId), userId) ==
      Some(FullProfile(GetProfile(db, userId).value.(role := Some(Influencer)),
                       Some(InfluencerRole(NewInfluencerProfile(userId, input, freshId)))))
  {
    var db' := CreateInfluencerProfileState(db, userId, input, freshId);
    var row := NewInfluencerProfile(userId, input, freshId);
    CreateInfluencerProfileKeepsWellFormed(db, userId, input, freshId);
    WithRoleLookup(db.profiles, userId, Influencer);
    assert row in db'.influencerProfiles;
    LookupFinds(db'.influencerProfiles, InfluencerUserId, row);
  }

  function NewAdvertiserProfile(userId: string, input: CreateAdvertiserProfileInput, freshId: string): AdvertiserProfile
  {
    AdvertiserProfile(freshId, userId, input.companyName, input.address, input.businessPhone,
                      input.businessNumber, input.representativeName)
  }

  function CreateAdvertiserProfileOutcome(db: Db, userId: string, freshId: string): Outcome<Error>
  {
    if KeyUsed(db.advertiserProfiles, AdvertiserId, freshId) || KeyUsed(db.advertiserProfiles, AdvertiserUserId, userId)
    then Fail(UniqueViolation)
    else if !KeyUsed(db.profiles, ProfileId, userId) then Fail(ForeignKeyViolation)
    else Pass
  }

  function CreateAdvertiserProfileState(db: Db, userId: string, input: CreateAdvertiserProfileInput, freshId: string): Db
  {
    if CreateAdvertiserProfileOutcome(db, userId, freshId).Pass?
    then db.(advertiserProfiles := db.advertiserProfiles + [NewAdvertiserProfile(userId, input, freshId)],
             profiles := WithRole(db.profiles, userId, Advertiser))
    else db
  }

  /** `createAdvertiserProfile`: insert the sub-profile, then set the profile's role. */
  method CreateAdvertiserProfile(store: Store, userId: string, input: CreateAdvertiserProfileInput, freshId: string)
    returns (r: Outcome<Error>)
    requires store.Valid()
    modifies store
    ensures store.Valid()
    ensures r == CreateAdvertiserProfileOutcome(old(store.Snapshot()), userId, freshId)
    ensures store.Snapshot() == CreateAdvertiserProfileState(old(store.Snapshot()), userId, input, freshId)
  {
    ghost var db := store.Snapshot();
    if KeyUsed(store.advertiserProfiles, AdvertiserId, freshId) || KeyUsed(store.advertiserProfiles, AdvertiserUserId, userId) {
      return Fail(UniqueViolation);
    }
    if !KeyUsed(store.profiles, ProfileId, userId) {
      return Fail(ForeignKeyViolation);
    }
    CreateAdvertiserProfileKeepsWellFormed(db, userId, input, freshId);
    store.advertiserProfiles := store.advertiserProfiles + [NewAdvertiserProfile(userId, input, freshId)];
    store.profiles := WithRole(store.profiles, userId, Advertiser);
    r := Pass;
  }

  lemma CreateAdvertiserProfileKeepsWellFormed(db: Db, userId: string, input: CreateAdvertiserProfileInput, freshId: string)
    requires WellFormed(db)
    ensures WellFormed(CreateAdvertiserProfileState(db, userId, input, freshId))
  {
    if CreateAdvertiserProfileOutcome(db, userId, freshId).Pass? {
      var db' := CreateAdvertiserProfileState(db, userId, input, freshId);
      var row := NewAdvertiserProfile(userId, input, freshId);
      UniqueAppend(db.advertiserProfiles, AdvertiserId, row);
      UniqueAppend(db.advertiserProfiles, AdvertiserUserId, row);
      WithRoleLookup(db.profiles, userId, Advertiser);
      forall k | KeyUsed(db.advertiserProfiles, AdvertiserId, k) ensures KeyUsed(db'.advertiserProfiles, AdvertiserId, k) {
        var x :| x in db.advertiserProfiles && x.id == k;
        assert x in db'.advertiserProfiles;
      }
    }
  }

  /** After a successful sub-profile insert the full profile has role `advertiser` and, as its
      role profile, exactly the submitted fields. */
  lemma AdvertiserProfileRoundTrip(db: Db, userId: string, input: CreateAdvertiserProfileInput, freshId: string)
    requires WellFormed(db) && CreateAdvertiserProfileOutcome(db, userId, freshId) == Pass
    ensures GetFullProfile(CreateAdvertiserProfileState(db, userId, input, freshId), userId) ==
      Some(FullProfile(GetProfile(db, userId).value.(role := Some(Advertiser)),
                       Some(AdvertiserRole(NewAdvertiserProfile(userId, input, freshId)))))
  {
    var db' := CreateAdvertiserProfileState(db, userId, input, freshId);
    var row := NewAdvertiserProfile(userId, input, freshId);
    CreateAdvertiserProfileKeepsWellFormed(db, userId, input, freshId);
    WithRoleLookup(db.profiles, userId, Advertiser);
    assert row in db'.advertiserProfiles;
    LookupFinds(db'.advertiserProfiles, AdvertiserUserId, row);
  }

  /** Advertiser onboarding end to end: a new user creates a profile and then an advertiser
      sub-profile; the full profile holds the submitted fields, role `advertiser`, and the submitted
      sub-profile. */
  lemma AdvertiserOnboarding(db: Db, userId: string, p: CreateProfileInput, a: CreateAdvertiserProfileInput, freshId: string)
    requires WellFormed(db) && !KeyUsed(db.profiles, ProfileId, userId)
    requires !KeyUsed(db.advertiserProfiles, AdvertiserId, freshId)
    ensures var db1 := CreateProfileState(db, userId, p);
      CreateAdvertiserProfileOutcome(db1, userId, freshId) == Pass &&
      GetFullProfile(CreateAdvertiserProfileState(db1, userId, a, freshId), userId) ==
        Some(FullProfile(
          Profile(userId, p.name, p.birthDate, p.phone, p.email, Some(Advertiser)),
          Some(AdvertiserRole(AdvertiserProfile(freshId, userId, a.companyName, a.address,
                                                a.businessPhone, a.businessNumber, a.representativeName)))))
  {
    var db1 := CreateProfileState(db, userId, p);
    CreateProfileRoundTrip(db, userId, p, p);
    CreateProfileKeepsWellFormed(db, userId, p);
    assert !KeyUsed(db.advertiserProfiles, AdvertiserUserId, userId);
    assert NewProfile(userId, p) in db1.profiles;
    AdvertiserProfileRoundTrip(db1, userId, a, freshId);
  }
}
