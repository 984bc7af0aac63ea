# Blog campaign platform: the service core in Dafny

The platform connects advertisers with influencers (bloggers). An advertiser publishes a
*campaign* (a product or store trial) with a recruitment window. Influencers apply to open
campaigns. The advertiser then selects or rejects the applicants. Every user first creates a
common *profile*, and then a role sub-profile: an *influencer profile* (channel name, URL and
follower count) or an *advertiser profile* (company details).

This project models the three backend services and their request schemas:

- `Profiles` is the profile service.
- `Campaigns` is the campaign service.
- `Applications` is the application service.
- `ProfileSchema`, `CampaignSchema` and `ApplicationSchema` hold the request validators.

The five tables form one mutable store, the class `Database.Store`. Each of its `seq` fields is a
table. Its `clock` field stamps `created_at`. `Store.Valid()` is the schema's constraint set,
`Database.WellFormed`:

- primary keys;
- one sub-profile per user;
- one application per (campaign, influencer);
- every reference resolves;
- rows stamped in insertion order.

Each operation that writes is built the same way:

- a module-level method that takes the store as a parameter, checks the source's guards in the
  source's order, then writes the store's tables (the campaign and application inserts and status
  updates are small methods of their own, one per database write: `InsertCampaign`,
  `SetCampaignStatus`, `InsertApplication`, `SetApplicationStatus`);
- an `…Outcome` function that gives the error or success of the call;
- a `…State` function that gives the new contents of the store.

The method's `ensures` ties it to those two functions and to `Valid()`. The lemmas beside them
state what the source promises about them. Reads are functions of the store's contents.

Supporting modules:

- `Query` holds the query vocabulary shared by the services: filtering, `.single()` lookup,
  newest-first and oldest-first ordering, and `range`.
- `Text` holds string comparison (JavaScript's `<` for strings without characters beyond U+FFFF),
  the order it gives on well-shaped dates, and the character-class patterns the schemas' regular
  expressions denote.
- `Wrappers` holds `Option`, `Result` and `Outcome`.

Error messages thrown by the services are the constructors of `Database.Error`.

## Model

| member | source | states |
|---|---|---|
| Text.LexLessIrreflexive | src/features/application/backend/service.ts:37 | no date string is before itself, so an end date equal to today is not "ended" |
| Text.LexLessTransitive | src/features/application/backend/service.ts:37 | the string comparison of dates is transitive |
| Text.LexLess | src/features/application/backend/service.ts:37 | `<` on strings: a string is never before itself, and a proper prefix is before the longer string |
| Text.LexLessAsymmetric | src/features/application/backend/service.ts:37 | two strings are never each before the other |
| Text.LexLessTotal | src/features/application/backend/service.ts:37 | of two different strings one is before the other |
| Text.DateFieldsOrder | src/features/application/backend/service.ts:37 | two dates written `y-m-d` with fields of matching lengths compare as strings by year, then month, then day |
| Text.DigitsOrder | src/features/application/backend/service.ts:37 | on digit strings of one length, the string order is the numeric order, and equal strings are equal numbers |
| Text.DateOrder | src/features/campaign/backend/service.ts:52 | on well-shaped dates, the string order is the order of the number `yyyymmdd`: year, then month, then day |
| Text.IsDateShape | src/features/application/backend/schema.ts:7 | `^\d{4}-\d{2}-\d{2}$`; a string of that shape has 10 characters |
| Text.DateShapeCharacterized | src/features/campaign/backend/schema.ts:6-7 | `^\d{4}-\d{2}-\d{2}$` holds iff the string has 10 characters, `-` at positions 4 and 7 and digits elsewhere |
| Text.ImpossibleDateHasDateShape | src/features/application/backend/schema.ts:7 | the date check is only a shape check: `2024-99-99` passes |
| Text.ShortMonthIsNotDateShape | src/features/profile/backend/schema.ts:6 | `2024-1-01` is rejected |
| Query.Filter | src/features/campaign/backend/service.ts:51-52 | a row is in the result iff it is in the table and satisfies every filter |
| Query.Lookup | src/features/profile/backend/service.ts:27-33 | `.single()` returns the row with that key, and returns one iff a row has the key (under a unique key) |
| Query.LookupFinds | src/features/application/backend/service.ts:24-28 | under a unique key, the lookup of a row's key returns that row |
| Query.NewestFirst | src/features/campaign/backend/service.ts:53 | the rows that pass the filter, in strictly decreasing `created_at` |
| Query.NewestFirstAppend | src/features/campaign/backend/service.ts:53 | a newly inserted row that passes the filter comes first |
| Query.OldestFirst | src/features/application/backend/service.ts:129 | the rows that pass the filter, in strictly increasing `created_at` |
| Query.Range | src/features/campaign/backend/service.ts:54 | `range(offset, offset+limit-1)`: at most `limit` rows, the ones at positions `offset`, `offset+1`, … |
| Query.RangeConcat | src/features/campaign/backend/service.ts:54 | consecutive pages cover the listing without gap or overlap |
| Query.Count | src/features/campaign/backend/service.ts:124-131 | the exact count equals the number of matching rows, and is 0 iff none matches |
| CampaignSchema.CreateCampaignRejections | src/features/campaign/backend/schema.ts:4-12 | a count below 1, an empty title, benefits, store info or mission, or a badly shaped date is rejected |
| CampaignSchema.ValidCreateCampaign | src/features/campaign/backend/schema.ts:4-12 | `createCampaignSchema`; an accepted body has two 10-character dates and at least one recruit |
| CampaignSchema.CreateCampaignAccepted | src/features/campaign/backend/schema.ts:4-12 | a body passes iff its texts are non-empty, its count is at least 1 and both dates have the date shape; swapping the two dates keeps it accepted |
| CampaignSchema.DatesAreNotOrdered | src/features/campaign/backend/schema.ts:4-12 | an illustration: an end date (2025-01-01) before the start date (2025-12-31) is accepted |
| CampaignSchema.ParseCampaignStatus | src/features/campaign/backend/schema.ts:16 | `updateCampaignStatusSchema`; an accepted name is the stored name of the status it parses to |
| CampaignSchema.CampaignStatusRoundTrip | src/features/campaign/backend/schema.ts:16 | a status update accepts exactly `recruiting`, `closed` and `completed`, each read back as itself |
| ApplicationSchema.IsUuid | src/features/application/backend/schema.ts:5 | zod's `uuid()`; an accepted id has 36 characters |
| ApplicationSchema.ValidCreateApplication | src/features/application/backend/schema.ts:4-8 | `createApplicationSchema`; an accepted body has a 36-character campaign id, a non-empty message and a 10-character visit date |
| ApplicationSchema.ParseDecision | src/features/application/backend/schema.ts:12 | the decision enum; an accepted name is the stored name of the decision it parses to |
| ApplicationSchema.ParseBulkUpdate | src/features/application/backend/schema.ts:16-19 | `bulkUpdateApplicationsSchema`; an accepted body keeps its ids, every id has 36 characters, and the status parses to the decision of that name |
| ApplicationSchema.UuidCharacterized | src/features/application/backend/schema.ts:5 | a uuid is 36 characters: hex digits in groups 8-4-4-4-12 separated by `-` |
| ApplicationSchema.CreateApplicationFieldRules | src/features/application/backend/schema.ts:4-8 | an empty message or a non-uuid campaign id is rejected; an accepted visit date has the date shape: 10 characters, `-` at positions 4 and 7, digits elsewhere |
| ApplicationSchema.DecisionNames | src/features/application/backend/schema.ts:12 | a decision accepts exactly `selected` and `rejected`; `pending` is refused |
| ApplicationSchema.BulkUpdateAccepted | src/features/application/backend/schema.ts:16-19 | a bulk request passes iff every id is a uuid and the status is a decision; an empty id list passes |
| ProfileSchema.ParseRole | src/features/profile/backend/schema.ts:9-11 | the role enum; an accepted name is the stored name of the role it parses to |
| ProfileSchema.ParseCreateProfile | src/features/profile/backend/schema.ts:4-12 | `createProfileSchema`; an accepted body keeps its fields, with a 10-character birth date, a phone of at least 10 characters and an email address |
| ProfileSchema.ParseCreateInfluencerProfile | src/features/profile/backend/schema.ts:15-19 | `createInfluencerProfileSchema`: a body is accepted iff the channel name is non-empty, the URL passes and a given follower count is at least 0; an accepted body keeps its channel fields and its follower count, 0 when none is given |
| ProfileSchema.IsBusinessNumber | src/features/profile/backend/schema.ts:26-28 | the business-number regex; an accepted number has 12 characters |
| ProfileSchema.ValidCreateAdvertiserProfile | src/features/profile/backend/schema.ts:22-30 | `createAdvertiserProfileSchema`: a body is accepted iff the company name, address and representative name are non-empty, the business phone has at least 10 characters and the business number is 3 digits, `-`, 2 digits, `-`, 5 digits |
| ProfileSchema.RoleNames | src/features/profile/backend/schema.ts:9-11 | the role accepts exactly `advertiser` and `influencer` |
| ProfileSchema.CreateProfileRules | src/features/profile/backend/schema.ts:4-12 | a profile request passes iff the name is non-empty, the birth date has the date shape, the phone has at least 10 characters, the email is an address and the role is valid; the fields pass unchanged |
| ProfileSchema.FollowerCountRules | src/features/profile/backend/schema.ts:15-19 | an omitted follower count becomes 0, a negative one is rejected, any other passes unchanged |
| ProfileSchema.BusinessNumberCharacterized | src/features/profile/backend/schema.ts:26-28 | the business number is 12 characters: 3 digits, `-`, 2 digits, `-`, 5 digits |
| ProfileSchema.CreateAdvertiserProfileRejections | src/features/profile/backend/schema.ts:22-30 | an empty company name, address or representative name, a business phone under 10 characters, or a business number failing its regex, is rejected |
| ProfileSchema.LetterInBusinessNumberRejected | src/features/profile/backend/schema.ts:26-28 | `123-45-6789a`, of the right length, does not match the business-number regex |
| Profiles.GetProfile | src/features/profile/backend/service.ts:27-41 | returns the user's profile, and returns null (not an error) iff there is none |
| Profiles.GetInfluencerProfile | src/features/profile/backend/service.ts:65-74 | returns the user's influencer profile, and returns null iff there is none |
| Profiles.GetAdvertiserProfile | src/features/profile/backend/service.ts:100-109 | returns the user's advertiser profile, and returns null iff there is none |
| Profiles.GetFullProfile | src/features/profile/backend/service.ts:112-128 | null iff there is no profile; the role profile is the sub-profile named by the stored role, and is null iff the role is unset or that sub-profile is missing |
| Profiles.CreateProfile | src/features/profile/backend/service.ts:12-24 | inserts the row keyed by the user id, or fails on a duplicate id and changes nothing; the constraints are kept |
| Profiles.CreateProfileRoundTrip | src/features/profile/backend/service.ts:12-41 | after a create the profile reads back as submitted, and a second create fails and changes nothing |
| Profiles.WithRoleLookup | src/features/profile/backend/service.ts:58-61 | the role update keeps the keys, the user's profile reads back with the new role, and every other user's profile is unchanged |
| Profiles.CreateInfluencerProfile | src/features/profile/backend/service.ts:44-62 | inserts the sub-profile and then sets the role; a failed insert (duplicate, or no profile) leaves the role untouched |
| Profiles.CreateInfluencerProfileKeepsWellFormed | src/features/profile/backend/service.ts:44-62 | the constraints are kept |
| Profiles.InfluencerProfileRoundTrip | src/features/profile/backend/service.ts:44-128 | afterwards the full profile has role `influencer` and exactly the submitted sub-profile |
| Profiles.CreateAdvertiserProfile | src/features/profile/backend/service.ts:77-97 | inserts the sub-profile and then sets the role; a failed insert leaves the role untouched |
| Profiles.CreateAdvertiserProfileKeepsWellFormed | src/features/profile/backend/service.ts:77-97 | the constraints are kept |
| Profiles.AdvertiserProfileRoundTrip | src/features/profile/backend/service.ts:77-128 | afterwards the full profile has role `advertiser` and exactly the submitted sub-profile |
| Profiles.AdvertiserOnboarding | src/features/profile/backend/service.ts:12-128 | for a new user, creating a profile and then an advertiser profile makes the full profile the submitted fields with role `advertiser` and the submitted sub-profile |
| Campaigns.GetAdvertiserIdByUserId | src/features/campaign/backend/service.ts:8-17 | returns the id of the user's advertiser profile, and fails with "advertiser profile not found" iff there is none |
| Campaigns.CheckOwnership | src/features/campaign/backend/service.ts:101-113 | passes iff the user's advertiser profile owns the campaign; otherwise fails, in order, with no profile, the missing campaign's error, or forbidden |
| Campaigns.CreateCampaign | src/features/campaign/backend/service.ts:20-36 | fails without an advertiser profile; otherwise inserts one campaign with the caller's advertiser id, status `recruiting` and the next timestamp |
| Campaigns.InsertCampaign | src/features/campaign/backend/service.ts:23-33 | the campaigns insert of a row with a new id, an existing advertiser and the store's timestamp: the row is appended, the clock advances and the constraints are kept |
| Campaigns.AppendCampaignKeepsWellFormed | src/features/campaign/backend/service.ts:23-33 | appending such a row keeps the constraints |
| Campaigns.CreateCampaignKeepsWellFormed | src/features/campaign/backend/service.ts:20-36 | the constraints are kept |
| Campaigns.ToFeedItem | src/features/campaign/backend/service.ts:42-50 | the embedded advertiser is the company name and address of the advertiser profile the campaign refers to, and is present for a stored campaign |
| Campaigns.OpenCampaigns | src/features/campaign/backend/service.ts:51-53 | exactly the campaigns that are `recruiting` and whose end date is not before today, newest first |
| Campaigns.GetRecruitingCampaigns | src/features/campaign/backend/service.ts:39-58 | a page of at most `limit` open campaigns (defaults 20 and 0), taken from position `offset`, newest first, each with its advertiser's company name and address |
| Campaigns.FeedPagesConcat | src/features/campaign/backend/service.ts:39-58 | two consecutive pages together equal the page spanning both |
| Campaigns.NewCampaignHeadsFeed | src/features/campaign/backend/service.ts:20-58 | a campaign just created heads the first page on every day up to its end date |
| Campaigns.GetCampaignById | src/features/campaign/backend/service.ts:61-79 | returns the campaign with that id and its advertiser's contact, and fails with the no-row error iff there is none |
| Campaigns.GetCampaignsByAdvertiser | src/features/campaign/backend/service.ts:82-93 | exactly the caller's campaigns, whatever their status, newest first; fails without an advertiser profile |
| Campaigns.UpdateCampaignStatus | src/features/campaign/backend/service.ts:96-121 | the owner check, then the status update |
| Campaigns.SetCampaignStatus | src/features/campaign/backend/service.ts:115-118 | the write `update({ status }).eq("id", campaignId)`: only the campaigns table changes, to `WithCampaignStatus` of it, and the constraints are kept |
| Campaigns.WithCampaignStatusKeepsWellFormed | src/features/campaign/backend/service.ts:115-118 | the constraints are kept |
| Campaigns.WithCampaignStatusLookup | src/features/campaign/backend/service.ts:115-118 | the updated campaign reads back with the new status; every other reads back unchanged |
| Campaigns.UpdateCampaignStatusEffect | src/features/campaign/backend/service.ts:96-121 | for the owner, any status replaces any status (no transition check), and no other campaign or application changes |
| Campaigns.ClosedCampaignLeavesFeed | src/features/campaign/backend/service.ts:51-118 | a campaign its owner closed appears on no page of the feed |
| Campaigns.GetApplicationCount | src/features/campaign/backend/service.ts:124-132 | the number of the campaign's applications (the length of their filtered list), 0 iff it has none |
| Applications.GetInfluencerIdByUserId | src/features/application/backend/service.ts:8-17 | returns the id of the user's influencer profile, and fails with "influencer profile not found" iff there is none |
| Applications.CreateApplication | src/features/application/backend/service.ts:20-55 | the checks in order, then one new `pending` row; a failed call changes nothing |
| Applications.InsertApplication | src/features/application/backend/service.ts:41-47 | the applications insert of a row with new keys, existing references and the store's timestamp: the row is appended, the clock advances and the constraints are kept |
| Applications.AppendApplicationKeepsWellFormed | src/features/application/backend/service.ts:41-47 | appending such a row keeps the constraints |
| Applications.CreateApplicationKeepsWellFormed | src/features/application/backend/service.ts:41-47 | the constraints are kept |
| Applications.CreateApplicationGuards | src/features/application/backend/service.ts:21-52 | the errors in their order: no influencer profile, campaign not found, not recruiting whatever the dates, end date before today, already applied; success iff the campaign is open that day and the influencer has not applied |
| Applications.EndDateIsInclusive | src/features/application/backend/service.ts:36-39 | an end date equal to today is not "recruitment ended" |
| Applications.ApplyOnce | src/features/application/backend/service.ts:41-54 | success appends exactly one row with the submitted fields; a second application to the same campaign never succeeds and, while the campaign is open, fails as "already applied"; the pair has exactly one row |
| Applications.ApplyCountsOnce | src/features/application/backend/service.ts:41-47 | each successful application raises the campaign's count by one |
| Applications.ToMyApplication | src/features/application/backend/service.ts:63-73 | the embedded campaign is the title, benefits, end date and status of the campaign the application refers to, and is present for a stored application |
| Applications.MyApplicationRows | src/features/application/backend/service.ts:74-79 | exactly the caller's rows, restricted to the status when a non-empty one is given, newest first |
| Applications.GetMyApplications | src/features/application/backend/service.ts:58-85 | fails without an influencer profile; otherwise those rows, each with its campaign's title, benefits, end date and status |
| Applications.NewApplicationListedFirst | src/features/application/backend/service.ts:41-85 | a new application heads the caller's list, unfiltered or filtered to `pending` |
| Applications.ToApplicant | src/features/application/backend/service.ts:112-127 | the embedded influencer is the channel of the influencer profile that applied, and its contact is the name, phone, email and birth date of that influencer's own profile; both are present for a stored application |
| Applications.ApplicantContactIsProfile | src/features/application/backend/service.ts:112-127 | for a stored application, the owner sees exactly that influencer's channel and that user's profile contact fields |
| Applications.ApplicantRows | src/features/application/backend/service.ts:128-129 | exactly the campaign's rows, oldest first |
| Applications.GetApplicationsByCampaign | src/features/application/backend/service.ts:88-133 | only for the owner, with the owner check's errors; those rows, each with the applicant's channel and contact fields |
| Applications.BulkUpdateApplications | src/features/application/backend/service.ts:136-177 | the owner check, then the status on the listed rows of the campaign, then `completed` on a selection |
| Applications.SetApplicationStatus | src/features/application/backend/service.ts:162-166 | the write `update({ status }).in("id", ids).eq("campaign_id", campaignId)`: only the applications table changes, to `WithApplicationStatus` of it, and the constraints are kept |
| Applications.WithApplicationStatusKeepsWellFormed | src/features/application/backend/service.ts:162-166 | the application status write keeps the constraints |
| Applications.BulkUpdateKeepsWellFormed | src/features/application/backend/service.ts:162-176 | the constraints are kept |
| Applications.WithApplicationStatusLookup | src/features/application/backend/service.ts:162-166 | a row reads back with the new status exactly when its id is listed and it belongs to the campaign |
| Applications.BulkUpdateEffect | src/features/application/backend/service.ts:162-166 | a listed row of another campaign is untouched; only the listed rows of the campaign change, and only in status |
| Applications.BulkUpdateCampaignEffect | src/features/application/backend/service.ts:170-176 | a selection always leaves the campaign `completed`, even with no matching id; a rejection leaves every campaign as it was |
| Applications.BulkUpdateByOtherAdvertiser | src/features/application/backend/service.ts:98-159 | another advertiser gets "forbidden" for the applicant list, the bulk update and the status change, and nothing changes |
| Applications.BulkUpdateKeepsOwnership | src/features/application/backend/service.ts:162-176 | ownership of every campaign survives a bulk update |
| Applications.NoApplicationsAfterSelection | src/features/application/backend/service.ts:32-176 | after a selection the campaign turns away every applicant as "not recruiting" |
| Applications.SelectOne | src/features/application/backend/service.ts:136-177 | selecting one applicant makes it `selected`, leaves another unchanged and completes the campaign |
| Applications.WithOneStatusLookup | src/features/application/backend/service.ts:162-166 | setting the status of one stored row changes that row and no other |
| Applications.RejectOther | src/features/application/backend/service.ts:136-177 | once the owner check passes, rejecting one applicant sets that row to `rejected` and leaves the other rows and the campaigns unchanged |
| Applications.SelectThenReject | src/features/application/backend/service.ts:136-177 | of two pending applicants, select one, then reject the other: both end decided and the campaign `completed` |

## Left out

- HTTP routes, the authentication middleware and its 401 response are not part of this model. The services take the resolved user id as a string.
- The UI pages and the onboarding flow are not part of this model.
- `createProfile` also stores `terms_agreed_at` from the wall clock. The column is not modelled.
- The generated uuid of an inserted row is a parameter (`freshId`). A collision takes the unique-violation path the database would take.
- `now()` for `created_at` is a logical clock that ticks once per timestamped insert (campaigns and applications; the profile tables carry no timestamp in the model). Two campaigns, or two applications, therefore never share a timestamp.
- Today's date (`new Date()`) is a parameter `today`, a `YYYY-MM-DD` string.
- Dates are compared as strings. For the feed's `recruitment_end_date >= today` this agrees with the database's date order only for well-shaped dates: `Text.DateOrder` shows that on those the string order is year, then month, then day.
- String comparison is on Unicode code points. JavaScript's `<` compares UTF-16 code units, so the two differ for strings with characters beyond U+FFFF. Well-shaped dates are ASCII, where they agree.
- The getMyApplications status filter compares the stored status's text. A string that is not a status yields an empty list, where the database, with an enumerated column, would report an error.
- Non-integer numbers for `recruitmentCount` and `followerCount` are not modelled. The schema's number type also admits fractions.
- `z.string().uuid()` is modelled in the form zod 3.22 and later accepts: 8-4-4-4-12 hexadecimal digits of either case. Earlier 3.x releases also required a version digit 1-5 in the third group; that form is not modelled.
- `z.string().email()` and `z.string().url()` are parameters (`isEmail`, `isUrl`). Their grammars are not modelled.
- String lengths count characters, not UTF-16 code units.
- The database constraints are the ones the services rely on: primary keys, unique `user_id` per sub-profile, unique (campaign, influencer), and the foreign keys. The schema migration that declares them is not part of this model.
- Network and database failures other than the constraint violations and the no-row error are not modelled.
- Concurrency is not modelled, and neither are the non-atomic multi-step writes (sub-profile then role; select then reject) failing half-way. Each service call runs to completion, and the role update and the completion update always succeed.
- Profiles.CreateProfile: only the primary key can make the insert fail. A missing identity-provider user (a foreign key in the hosted schema) is not modelled.
- Applications.SelectThenReject: starts from two pending applications already in the store, rather than replaying the campaign's creation and the two applications.
- `updateApplicationStatusSchema` is the same decision enumeration as the bulk schema's status, and it is modelled by `ApplicationSchema.ParseDecision` (no service call uses it).
