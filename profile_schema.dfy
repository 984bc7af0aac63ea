/** The request shapes the profile routes validate before calling the profile service.
    zod's `email()` and `url()` checks are library code; they are given as the predicates
    `isEmail` and `isUrl`. */
module ProfileSchema {
  import opened Wrappers
  import opened Text
  import opened Database

  /** The body of a profile creation request, the role still text. */
  datatype CreateProfileRequest = CreateProfileRequest(
    name: string, birthDate: string, phone: string, email: string, role: string)

  /** The validated body: the role is one of the two roles. */
  datatype CreateProfileInput = CreateProfileInput(
    name: string, birthDate: string, phone: string, email: string, role: Role)

  /** The body of an influencer sub-profile request; the follower count may be left out. */
  datatype CreateInfluencerProfileRequest = CreateInfluencerProfileRequest(
    channelName: string, channelUrl: string, followerCount: Option<int>)

  /** The validated body, with the follower count defaulted. */
  datatype CreateInfluencerProfileInput = CreateInfluencerProfileInput(
    channelName: string, channelUrl: string, followerCount: int)

  /** The body of an advertiser sub-profile request. */
  datatype CreateAdvertiserProfileInput = CreateAdvertiserProfileInput(
    companyName: string, address: string, businessPhone: string, businessNumber: string,
    representativeName: string)

  function ParseRole(s: string): (r: Option<Role>)
    ensures r.Some? ==> RoleName(r.value) == s
  {
    if s == "advertiser" then Some(Advertiser)
    else if s == "influencer" then Some(Influencer)
    else None
  }

  /** `createProfileSchema` */
  function ParseCreateProfile(req: CreateProfileRequest, isEmail: string -> bool): (r: Option<CreateProfileInput>)
    ensures r.Some? ==>
      && r.value.name == req.name && r.value.birthDate == req.birthDate && r.value.phone == req.phone
      && r.value.email == req.email && RoleName(r.value.role) == req.role
    ensures r.Some? ==> |req.birthDate| == 10 && |req.phone| >= 10 && isEmail(req.email)
  {
    if |req.name| >= 1 && IsDateShape(req.birthDate) && |req.phone| >= 10 && isEmail(req.email)
    then
      match ParseRole(req.role)
      case Some(role) => Some(CreateProfileInput(req.name, req.birthDate, req.phone, req.email, role))
      case None => None
    else None
  }

  /** `createInfluencerProfileSchema`: a missing follower count becomes 0, a negative one is refused. */
  function ParseCreateInfluencerProfile(req: CreateInfluencerProfileRequest, isUrl: string -> bool)
    : (r: Option<CreateInfluencerProfileInput>)
    ensures r.Some? ==> r.value.channelName == req.channelName && r.value.channelUrl == req.channelUrl
    ensures r.Some? ==> r.value.followerCount >= 0
    ensures r.Some? && req.followerCount.Some? ==> r.value.followerCount == req.followerCount.value
    ensures r.Some? <==>
      req.channelName != [] && isUrl(req.channelUrl) && (req.followerCount.None? || req.followerCount.value >= 0)
  {
    var followers := match req.followerCount case None => 0 case Some(n) => n;
    if |req.channelName| >= 1 && isUrl(req.channelUrl) && followers >= 0
    then Some(CreateInfluencerProfileInput(req.channelName, req.channelUrl, followers))
    else None
  }

  /** `^\d{3}-\d{2}-\d{5}$`, the business registration number. */
  function BusinessNumberPattern(): Pattern
  {
    Repeat(Digit, 3) + [Lit('-')] + Repeat(Digit, 2) + [Lit('-')] + Repeat(Digit, 5)
  }

  predicate IsBusinessNumber(s: string)
    ensures IsBusinessNumber(s) ==> |s| == 12
  {
    FullMatchPositional(BusinessNumberPattern(), s);
    FullMatch(BusinessNumberPattern(), s)
  }

  /** `createAdvertiserProfileSchema`: the business number is three digits, a dash, two digits, a
      dash and five digits. */
  predicate ValidCreateAdvertiserProfile(i: CreateAdvertiserProfileInput)
    ensures ValidCreateAdvertiserProfile(i) ==> |i.businessNumber| == 12 && |i.businessPhone| >= 10
    ensures ValidCreateAdvertiserProfile(i) <==>
      && i.companyName != [] && i.address != [] && |i.businessPhone| >= 10 && i.representativeName != []
      && |i.businessNumber| == 12 && i.businessNumber[3] == '-' && i.businessNumber[6] == '-'
      && forall k :: 0 <= k < 12 && k != 3 && k != 6 ==> IsDigit(i.businessNumber[k])
  {
    BusinessNumberCharacterized(i.businessNumber);
    && |i.companyName| >= 1
    && |i.address| >= 1
    && |i.businessPhone| >= 10
    && IsBusinessNumber(i.businessNumber)
    && |i.representativeName| >= 1
  }

  /** A business number is twelve characters: three digits, a dash, two digits, a dash, five digits. */
  lemma BusinessNumberCharacterized(s: string)
    ensures IsBusinessNumber(s) <==>
      |s| == 12 && s[3] == '-' && s[6] == '-' &&
      forall i :: 0 <= i < 12 && i != 3 && i != 6 ==> IsDigit(s[i])
  {
    var p := BusinessNumberPattern();
    forall i | 0 <= i < 12 ensures p[i] == if i == 3 || i == 6 then Lit('-') else Digit {
    }
    FullMatchPositional(p, s);
  }

  /** The role is accepted only as "advertiser" or "influencer", and parses to the role stored under that name. */
  lemma RoleNames(s: string)
    ensures ParseRole(s).Some? <==> s == "advertiser" || s == "influencer"
    ensures ParseRole(s).Some? ==> RoleName(ParseRole(s).value) == s
  {
  }

  /** A profile body is accepted exactly when the name is non-empty, the birth date is date-shaped,
      the phone has at least ten characters, the e-mail passes and the role is a role; the fields pass through. */
  lemma CreateProfileRules(req: CreateProfileRequest, isEmail: string -> bool)
    ensures ParseCreateProfile(req, isEmail).Some? <==>
      req.name != [] && IsDateShape(req.birthDate) && |req.phone| >= 10 && isEmail(req.email) &&
      (req.role == "advertiser" || req.role == "influencer")
    ensures ParseCreateProfile(req, isEmail).Some? ==>
      var i := ParseCreateProfile(req, isEmail).value;
      i.name == req.name && i.birthDate == req.birthDate && i.phone == req.phone &&
      i.email == req.email && RoleName(i.role) == req.role
  {
  }

  /** An omitted follower count becomes 0; a given one is kept when it is at least 0 and refused otherwise. */
  lemma FollowerCountRules(req: CreateInfluencerProfileRequest, isUrl: string -> bool)
    requires req.channelName != [] && isUrl(req.channelUrl)
    ensures req.followerCount.None? ==>
      ParseCreateInfluencerProfile(req, isUrl) == Some(CreateInfluencerProfileInput(req.channelName, req.channelUrl, 0))
    ensures req.followerCount.Some? && req.followerCount.value < 0 ==> ParseCreateInfluencerProfile(req, isUrl) == None
    ensures req.followerCount.Some? && req.followerCount.value >= 0 ==>
      ParseCreateInfluencerProfile(req, isUrl) ==
        Some(CreateInfluencerProfileInput(req.channelName, req.channelUrl, req.followerCount.value))
  {
  }

  /** The advertiser body's field rules, one at a time. */
  lemma CreateAdvertiserProfileRejections(i: CreateAdvertiserProfileInput)
    ensures i.companyName == [] || i.address == [] || i.representativeName == [] ==> !ValidCreateAdvertiserProfile(i)
    ensures |i.businessPhone| < 10 ==> !ValidCreateAdvertiserProfile(i)
    ensures ValidCreateAdvertiserProfile(i) ==> |i.businessNumber| == 12
    ensures !IsBusinessNumber(i.businessNumber) ==> !ValidCreateAdvertiserProfile(i)
  {
    BusinessNumberCharacterized(i.businessNumber);
  }

  /** A number of the right length with a letter in the last group is refused. */
  lemma LetterInBusinessNumberRejected()
    ensures !IsBusinessNumber("123-45-6789a")
  {
    BusinessNumberCharacterized("123-45-6789a");
    assert !IsDigit("123-45-6789a"[11]);
  }
}
