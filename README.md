# Guide app backend core, modelled in Dafny

This project models the core of a Django marketplace backend for tourists, guides and travel
agencies. It covers:

- **Accounts.** The user account has a role tag (`tourist`, `agency`, `admin`), approval,
  verification and staff flags, and social-login identities. `save` normalises the flags.
  The permission predicates and the display names are included.
- **Profiles.** The tourist and agency profile helpers: age, interest labels, completion
  percentage, license check, and the commission-rate validation.
- **Bookings and ratings.** Each row stores a kind tag and three nullable references. The
  model reads them as one tagged target.
- **Social login.** It checks an already-decoded Google ID token or Facebook reply. It
  searches for a free username. It resolves a social identity to a stored account: one
  found by provider id, one linked by email, or one newly created.
- **Serializers.** Registration, login, the custom token claims, and the user block of the
  token response.
- **Admin pages.** The computed columns: contact name, joined lists, approval badge,
  service name, and rating stars.

Layout, one module per file:

- `wrappers.dfy`: `Option`, `Result` and `Outcome`.
- `text.dfy`: the Python string operations the core relies on. These are `strip`, ASCII
  `lower`, `replace`, `split('@')[0]`, `c * n`, `', '.join` with its inverse, and decimal
  rendering.
- `models.dfy`: the data model.
  - `User` is a class. Its `Save` updates the flags in place.
  - Profiles, packages, bookings and ratings are datatypes.
- `oauth.dfy`: the payload checks, the username search and the `UserStore` class.
  - `UserStore` holds the user objects.
  - `GetOrCreateUserFromSocialData` looks up, links or inserts users.
  - The store keeps email, username and the two provider ids unique.
- `serializers.dfy`: the serializers over a small JSON value type.
- `admin.dfy`: the admin columns.

Money, commission rates and average ratings are decimals with two places in the source. Here
they are integers in hundredths. A commission rate of 15.00% is `1500`. The score a tourist
gives in a rating is a whole number of stars from 1 to 5, in the source and here.

## Model

| member | source | states |
|---|---|---|
| Text.Strip | core/models.py:73 | `str.strip()`: the result is a contiguous slice of the input, only whitespace was removed on either side, and it neither starts nor ends with whitespace |
| Text.StripEmptyIffAllSpace | core/models.py:73-74 | stripping leaves nothing exactly when the string is all whitespace, which is when `get_full_name` falls back to the username |
| Text.Lower | core/oauth_utils.py:112 | `lower()` keeps the length and maps each character on its own (ASCII letters only) |
| Text.ReplaceChar | core/oauth_utils.py:112 | `replace(' ', '_')` keeps the length and changes exactly the occurrences of the old character |
| Text.PrefixBefore | core/oauth_utils.py:114 | `split('@')[0]` is the longest prefix without `@`, and it is followed by `@` when it is not the whole string |
| Text.PrefixBeforeFirst | core/oauth_utils.py:114 | splitting `x + c + y` at its first `c` gives back `x` when `x` has no `c` |
| Text.Repeat | core/admin.py:265 | `c * n` has `n` characters, all `c`, and is empty for `n <= 0` |
| Text.Join | core/admin.py:62 | `', '.join(xs)`: the items with `", "` between consecutive ones (its partner is `Text.SplitJoin`) |
| Text.SplitJoin | core/admin.py:62 | `', '.join` is undone by `split(', ')` on a non-empty list whose items contain no `", "` |
| Text.Decimal | core/oauth_utils.py:120 | `f"{n}"` is a non-empty string of digits that starts with `0` only for `n == 0` (partners: `Text.ParseDecimalOfDecimal`, `Text.DecimalInjective`) |
| Text.DecimalInjective | core/oauth_utils.py:120 | distinct counters are rendered as distinct digit strings (proved through the parse round trip) |
| Models.Normalize | core/models.py:50-58 | the flags `save` writes: only the staff, approved and verified flags change; staff is set for an admin, approval for a tourist or admin, and verification for a tourist or admin that was unapproved |
| Models.IsTourist | core/models.py:34-36 | the account's tag is "tourist" (partners: `Models.SaveApprovalRules`, `Models.SavedAccountRights`) |
| Models.IsAgency | core/models.py:38-40 | the account's tag is "agency" (partners: `Models.RequiresApprovalMatchesSave`, `Models.AgencyApprovalSurvivesSave`) |
| Models.IsAdmin | core/models.py:42-44 | the account's tag is "admin" (partners: `Models.SavedAccountIsClean`, `Models.SaveApprovalRules`) |
| Models.CanBookServices | core/models.py:82-84 | an account may book exactly when it is an active, approved tourist (partner: `Models.ServiceRightsExclusive`, `Models.SavedAccountRights`) |
| Models.CanManageServices | core/models.py:86-88 | an account may manage exactly when it is an active, approved agency or admin (partner: `Models.SavedAccountRights`, `Models.AgencyManagesOnlyWhenApproved`) |
| Models.RequiresApproval | core/models.py:90-92 | exactly agency accounts need an admin's approval (partner: `Models.RequiresApprovalMatchesSave`) |
| Models.Clean | core/models.py:46-48 | `User.clean` fails exactly for an admin that is not staff |
| Models.User.constructor | core/models.py:22-32 | a new user object holds exactly the given field values |
| Models.User.Save | core/models.py:50-60 | after `save` the object holds the normalised value of its old state: admins become staff, and unapproved tourists and admins become approved and verified |
| Models.SavedAccountIsClean | core/models.py:46-60 | after `save` every admin is staff, so a saved account always passes `clean` |
| Models.SaveApprovalRules | core/models.py:50-59 | `save` changes only the staff, approved and verified flags; tourists and admins end approved; other roles keep their approval and verification |
| Models.SaveIdempotent | core/models.py:50-59 | saving twice gives the same flags as saving once |
| Models.RequiresApprovalMatchesSave | core/models.py:90-92 | among the declared roles, `requires_approval` holds exactly for the role whose pending approval `save` leaves pending |
| Models.ServiceRightsExclusive | core/models.py:82-88 | no account may both book and manage services |
| Models.SavedAccountRights | core/models.py:82-88 | after `save`, an active tourist may book and an active admin may manage at once; an agency may manage only once approved |
| Models.UndeclaredTypeHasNoRights | core/models.py:82-92 | an account whose tag is not a declared role cannot book or manage, needs no approval, and is unchanged by `save` |
| Models.SpacedName | core/models.py:73 | `f'{first} {last}'` is the first name, one space, then the last name |
| Models.FullName | core/models.py:71-74 | the full name is the stripped pair of names, non-empty with no outer whitespace, or the username when the pair is blank |
| Models.FullNameOfTidyNames | core/models.py:71-74 | for non-empty names without surrounding whitespace the full name is exactly `first + " " + last` |
| Models.GetProfile | core/models.py:62-68 | a tourist gets its tourist profile and an agency its agency profile; a missing profile or any other role gives none |
| Models.DisplayName | core/models.py:76-80 | an agency with a profile and a non-empty company name shows the company name; every other case shows the full name |
| Models.TouristClean | core/models.py:139-141 | `Tourist.clean` passes exactly when the owner is a tourist |
| Models.Age | core/models.py:143-151 | with a date of birth, the age is the number of birthdays reached by today: that birthday has come and the next has not; without one there is no age |
| Models.AgeIsUnique | core/models.py:148-150 | any count with that birthday property is the age |
| Models.LookupLabel | core/models.py:155-156 | `dict(choices).get(key, key)` returns the label of the last pair with the key when the key is a choice (a dict keeps the last of repeated keys), and the key itself otherwise |
| Models.TravelInterestsDisplay | core/models.py:153-156 | each stored interest in order, known keys replaced by their label and unknown ones kept |
| Models.InterestLabelChangesKnownKeys | core/models.py:113-126 | a displayed interest differs from the stored one exactly when the stored one is a known key |
| Models.LookupLabelChangesKeys | core/models.py:155-156 | over choices whose labels differ from their keys, the lookup changes a key exactly when the key is one of the choices |
| Models.InterestLabelsDifferFromKeys | core/models.py:113-126 | no travel-interest choice has its key as its label |
| Models.HasCompletedProfile | core/models.py:158-161 | a tourist profile is complete when its nationality, date of birth and emergency contact are all present and non-empty (partner: `Models.CompletedProfileHasAge`) |
| Models.CompletedProfileHasAge | core/models.py:158-161 | a completed tourist profile has a date of birth, so its age is defined |
| Models.AgencyClean | core/models.py:224-229 | `Agency.clean` passes exactly for an agency owner with a rate in [0, 50]%; a wrong owner is reported before a bad rate |
| Models.AgencyIsApproved | core/models.py:231-233 | an agency is approved when its owning account is (partners: `Models.AgencyApprovalSurvivesSave`, `Models.AgencyManagesOnlyWhenApproved`) |
| Models.AgencyApprovalSurvivesSave | core/models.py:231-233 | saving an agency owner never approves it: the agency's approval after `save` is what it was before |
| Models.AgencyManagesOnlyWhenApproved | core/models.py:231-233 | an agency owner that may manage services is an approved agency |
| Models.YearsInBusiness | core/models.py:235-240 | there is a value exactly when an established year is set and non-zero (0 is falsy), and it added to that year gives the current year |
| Models.ActivePackagesCount | core/models.py:242-243 | the active count is at most the number of packages; it equals it exactly when all are active, and is 0 exactly when none is |
| Models.ActivePackagesCountAppend | core/models.py:242-243 | adding a package raises the count by one exactly when that package is active |
| Models.FilledCount | core/models.py:251 | the number of truthy fields is at most their number; it equals it exactly when all are filled, and is 0 exactly when none is |
| Models.CompletionPercentage | core/models.py:245-252 | the percentage lies in 0..100, is the floor of filled*100/6, is 100 exactly when all six fields are filled and 0 exactly when none is |
| Models.CompletionMonotone | core/models.py:245-252 | filling more of the six fields never lowers the percentage |
| Models.FilledCountMonotone | core/models.py:251 | pointwise more filled fields never give a smaller count |
| Models.HasValidLicense | core/models.py:254-256 | the license check holds when both the license file and the registration number are present and non-empty (partners: `Models.LicenseReadsOnlyLicenseColumns`, `Models.LicenseNeedsBothColumns`, `Models.CompleteProfileMayLackLicense`) |
| Models.LicenseReadsOnlyLicenseColumns | core/models.py:254-256 | two profiles with the same license file and registration number agree on the license check, whatever their other fields |
| Models.LicenseNeedsBothColumns | core/models.py:254-256 | a missing or empty license file or registration number fails the check; both non-empty pass it |
| Models.CompleteProfileMayLackLicense | core/models.py:245-256 | a profile at 100% completion with an empty registration number stays at 100% yet fails the license check |
| Models.TargetOf | core/models.py:312-325 | a booking or rating has a target exactly when the reference its tag names is present; the target has that kind and is that reference |
| OAuth.CheckGooglePayload | core/oauth_utils.py:26-42 | a payload is accepted exactly when its audience is the configured client id and its issuer is one of Google's two; each failure has its message; the accepted data carries the subject as provider id, the email, the given and family names, the full name and the picture, a missing name part as the empty string |
| OAuth.GoogleAudienceRule | core/oauth_utils.py:22-27 | with a client id configured an accepted token names it; with none configured a token without audience passes the audience check |
| OAuth.CheckFacebookReplies | core/oauth_utils.py:70-100 | the replies are accepted exactly when the debug reply has no error and says valid and the profile reply has no error; each failure has its message, including the missing-message case; the accepted data carries the profile's id, email, first, last and full names and picture URL, a missing one as the empty string |
| OAuth.CleanBase | core/oauth_utils.py:111-114 | a non-empty name gives the name with each space turned into `_` and each capital lower-cased, character by character; an empty name gives the lower-cased part of the email before `@` |
| OAuth.Candidate | core/oauth_utils.py:117-120 | attempt 0 is the base; attempt `k > 0` is the base, `_`, then digits without a leading zero that read back as `k` |
| OAuth.CandidateInjective | core/oauth_utils.py:117-121 | two attempts try the same username exactly when they are the same attempt |
| OAuth.CandidatesCount | core/oauth_utils.py:117-121 | the first `n` attempts are `n` distinct usernames, so the loop ends once it has passed every taken name |
| OAuth.GenerateUniqueUsername | core/oauth_utils.py:106-123 | the result is not taken; it is the first free candidate, every earlier candidate being taken; the base itself is returned when free |
| OAuth.IndexOfEmail | core/oauth_utils.py:149 | the email lookup finds a user holding that email, or reports that none does |
| OAuth.IndexOfProviderId | core/oauth_utils.py:139-143 | the provider-id lookup finds a user holding the id for that provider, or reports that none does; an email login never matches |
| OAuth.Linked | core/oauth_utils.py:151-159 | linking sets the provider, provider id and verified flag and the id column of that provider; every other field, the other provider's id among them, is unchanged |
| OAuth.NewSocialAccount | core/oauth_utils.py:169-185 | a new social account has the given id, the chosen username, the email and the first and last names from the data; it is a verified, approved, active tourist, not staff, with no phone, and carries the provider id in exactly its provider's column |
| OAuth.NewSocialAccountIsSaved | core/oauth_utils.py:169-185 | a new social account is already in saved form and may book services at once |
| OAuth.HasIdentity | core/oauth_utils.py:132-136 | the social data has a non-empty email and a non-empty provider id; without them resolution fails (see `OAuth.UserStore.GetOrCreateUserFromSocialData`) |
| OAuth.UniqueColumns | core/models.py:24-107 | email, username and the Google and Facebook ids (where set) are unique across rows; every store operation keeps this |
| OAuth.LinkKeepsColumnsUnique | core/oauth_utils.py:150-161 | linking an id that no row holds, then saving, keeps email, username and provider ids unique |
| OAuth.AppendKeepsColumnsUnique | core/oauth_utils.py:163-185 | inserting a row with an unused email, username and provider id keeps the columns unique |
| OAuth.LinkUser | core/oauth_utils.py:151-160 | the user object ends holding the saved, linked form of its old value |
| OAuth.NewUser | core/oauth_utils.py:185 | the created object is new and holds the saved form of the given account |
| OAuth.UserStore.GetOrCreateUserFromSocialData | core/oauth_utils.py:125-195 | missing email or provider id is an error and changes nothing; a provider-id match returns that user unchanged; else an email match is linked and saved; else a fresh user is added whose username is the first generated candidate no row held (every earlier candidate was held); when that candidate is empty `create_user` refuses it with "The given username must be set" and nothing changes; the store stays valid and unique throughout |
| OAuth.UserStore.PickUsername | core/oauth_utils.py:164-167 | the picked username is held by no row and is the first generated candidate no row holds; it is empty exactly when the base is empty and no row has the empty username |
| OAuth.UserStore.CreateUser | core/oauth_utils.py:169-185 | the created user is new, appended to the store, and holds the new social account with the given unused username |
| OAuth.UserStore.FreshAccount | core/oauth_utils.py:169-183 | the new account carries the given unused username and the social data; it is already in saved form, and adding it keeps the columns unique |
| OAuth.UserStore.LinkProvider | core/oauth_utils.py:150-161 | the matched row becomes the saved, linked account; no other row changes |
| OAuth.UserStore.Insert | core/oauth_utils.py:185 | inserting appends the object and its value and keeps the store valid |
| Serializers.ValidateRegistration | core/serializers.py:57-60 | registration data passes unchanged exactly when the two passwords are equal; otherwise it fails with "Passwords don't match" |
| Serializers.CreateUserFields | core/serializers.py:62-70 | the create arguments drop the confirmation and force the "user" type and the two flags; every other field is passed through |
| Serializers.RegisteredAccountHasNoServiceRights | core/serializers.py:65-68 | a registered account, tagged "user", can neither book nor manage services and is unchanged by `save` |
| Serializers.ValidateLogin | core/serializers.py:78-93 | missing credentials, an unknown user and a disabled user each give their message; otherwise the form gains the authenticated active user |
| Serializers.LoginSucceedsIff | core/serializers.py:82-93 | a login succeeds exactly when both credentials are given and authentication returns an active user |
| Serializers.GetToken | core/serializers.py:11-21 | the token keeps the library's other claims and gains the five custom claims; reading them back gives the user's type, username, email and flags |
| Serializers.ClaimsDecideRights | core/serializers.py:14-19 | tokens whose claims read the same belong to users with the same role and approval, so, given equal activity, the same service rights |
| Serializers.UserPayload | core/serializers.py:27-37 | the user block has exactly the nine response keys |
| Serializers.ValidateTokenRequest | core/serializers.py:23-39 | the response keeps the token pair and gains a "user" block that reads back as the user's id, names, email, type, flags and phone (null when missing) |
| Admin.UserName | core/admin.py:51-52 | the contact-name column is the unstripped first name, one space, then the last name |
| Admin.UserNameSplits | core/admin.py:51-52 | when the first name has no space, the column splits back into the first and last names |
| Admin.UserNameAndFullName | core/admin.py:51-52 | the model's full name is this column stripped, or the username when the column is blank |
| Admin.JoinOrNone | core/admin.py:62 | an empty list shows "None"; any other list shows its `", "` join |
| Admin.JoinOrNoneRoundTrip | core/admin.py:62 | any non-empty list whose items contain no `", "` can be read back from its column |
| Admin.JoinOrNoneConflatesNone | core/admin.py:62 | the empty list and the list `["None"]` show the same text |
| Admin.TravelInterestsColumn | core/admin.py:61-62 | no interests show "None"; any other list shows its `", "` join, which splits back into the stored keys when no key contains `", "` |
| Admin.SpecializationsColumn | core/admin.py:102-103 | no specialisations show "None"; any other list shows its `", "` join, which splits back into the guide's list when no item contains `", "` |
| Admin.ApprovalStatus | core/admin.py:143-147 | the badge is one of the two labels |
| Admin.ApprovalStatusReflectsFlag | core/admin.py:143-147 | the badge reads approved exactly when the owner is approved; two owners share a badge exactly when their flags agree |
| Admin.ApprovalStatusAfterSave | core/admin.py:143-147 | after `save`, tourists and admins always show approved; other owners show pending exactly when saved unapproved |
| Admin.ServiceName | core/admin.py:216-223 | no target gives "N/A"; a package gives its name; a guide gives its contact name; an agency gives its company name, which may be null |
| Admin.ServiceNameIgnoresOtherReferences | core/admin.py:216-223 | the column depends only on the reference the tag selects |
| Admin.BookingServiceName | core/admin.py:216-223 | a booking's service column follows the tag rule, and a booking without a target shows "N/A" |
| Admin.RatingServiceName | core/admin.py:254-261 | a rating's service column follows the same tag rule, and a rating without a target shows "N/A" |
| Admin.RatingStars | core/admin.py:264-266 | the stars have length max(r,0)+max(5−r,0); position k is filled exactly when k < r; every character is a filled or an empty star |
| Admin.RatingStarsReadBack | core/admin.py:264-266 | a rating of 1..5 shows five stars, and counting the filled ones gives the rating back |

## Left out

- Network and library calls are not modelled. This covers Google's signature check, the two
  Facebook HTTP requests and `authenticate`. The model takes their decoded replies, or the
  authentication result, as parameters. The library's generic failure messages ("Failed to
  verify Google token", "Failed to connect to Facebook") are therefore not modelled.
- `save_profile_image_from_url` is not modelled. It downloads a file and swallows every
  error. Account resolution never reads its outcome.
- The Google `email_verified` field is not modelled. Nothing downstream reads it.
- Views, URL routes, management commands, HTML markup, `__str__` and Django Meta options
  (ordering, verbose names) are not modelled.
- `get_user_email` is not modelled. It is a plain field read.
- Ids, today's date and the current year are parameters. The source takes them from UUIDs
  and the clock.
- Models.User.Save: persisting the row is not part of `Save`. The store's `Insert` and the
  ghost rows of `UserStore` stand for the table.
- Models.Normalize and the rest of the model: `create_user` normalises the email domain and
  hashes the password. The model stores the email as given and has no password or
  `is_superuser` fields.
- Text.Lower: only ASCII letters are lower-cased, unlike Python's full Unicode `lower()`.
- Models.Guide: the nullable `user` link is modelled as always present. A guide without a
  user cannot be shown by any admin column anyway.
- Models.CompletionPercentage: `int((completed / 6) * 100)` in floating point is modelled
  as the integer floor of `completed * 100 / 6`. The two agree for the values 0..6.
- Decimal columns are modelled as integers in hundredths. The digit-count limits of the
  database columns are not enforced.
- OAuth.UserStore.GetOrCreateUserFromSocialData: `.first()` follows the table's
  newest-first ordering. The model scans in insertion order. The two can differ only when
  two rows share a unique column, and the store's invariant rules that out.
- Rating's `unique_together` on (tourist, package, guide, agency) is not modelled. Nothing
  in the core reads it.
- Serializers.ValidateLogin: the email-format check of the `EmailField` is not modelled, nor
  is the debug `print` of the authenticated user (console output).
- Serializers.ValidateRegistration: Django's password validators on the `password` field
  are not modelled; they run before `validate` and come from the framework.
- OAuth.UserStore.GetOrCreateUserFromSocialData: `create_user` stores the username
  NFKC-normalised and the email with its domain lower-cased; the model stores both as
  given. So where the source would hit a unique constraint (a name like "ﬁona" when "fiona"
  is taken, or `a@EXAMPLE.com` when `a@example.com` is stored) and fail, the model inserts a
  new row. Password hashing is not modelled either; of `create_user`'s refusals only the
  empty username is, since the generated username can be empty.
- JSON list columns (interests, specialisations) are modelled as lists of strings. A
  non-string item, which would make the join fail, is not modelled.
