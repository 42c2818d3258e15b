/** The account and profile rules of the marketplace: the user account with its role tag and
    flags (normalised on every save), the permission predicates, the display names, the
    tourist and agency profile helpers, and the booking and rating records whose target is
    one of a package, a guide or an agency. */
module Models {

  import opened Wrappers
  import opened Text

  // ---------------------------------------------------------------- accounts

  /** The declared account roles. `user_type` is a free text column, so other tags can be
      stored (registration stores "user"). */
  const Tourist: string := "tourist"
  const Agency: string := "agency"
  const Admin: string := "admin"
  const DeclaredUserTypes: set<string> := {Tourist, Agency, Admin}

  /** How the account signs in. */
  datatype Provider = EmailLogin | Google | Facebook

  function ProviderName(p: Provider): string
  {
    match p
    case EmailLogin => "email"
    case Google => "google"
    case Facebook => "facebook"
  }

  /** The value of one user row. */
  datatype Account = Account(
    id: string,
    username: string,
    email: string,
    firstName: string,
    lastName: string,
    userType: string,
    phoneNumber: Option<string>,
    isStaff: bool,
    isVerified: bool,
    isApproved: bool,
    isActive: bool,
    provider: Provider,
    providerId: Option<string>,
    googleId: Option<string>,
    facebookId: Option<string>)

  predicate IsTourist(a: Account) { a.userType == Tourist }
  predicate IsAgency(a: Account) { a.userType == Agency }
  predicate IsAdmin(a: Account) { a.userType == Admin }

  /** What `save` does to the flags before writing the row: an admin becomes staff, and an
      unapproved tourist or admin is approved and verified. */
  function Normalize(a: Account): (r: Account)
    ensures r.(isStaff := a.isStaff, isApproved := a.isApproved, isVerified := a.isVerified) == a
    ensures r.isStaff == (a.isStaff || IsAdmin(a))
    ensures r.isApproved == (a.isApproved || IsTourist(a) || IsAdmin(a))
    ensures r.isVerified == (a.isVerified || ((IsTourist(a) || IsAdmin(a)) && !a.isApproved))
  {
    var staffed := if IsAdmin(a) then a.(isStaff := true) else a;
    if (IsTourist(staffed) || IsAdmin(staffed)) && !staffed.isApproved
    then staffed.(isApproved := true, isVerified := true)
    else staffed
  }

  /** `clean`: an admin account must be staff. */
  function Clean(a: Account): (r: Outcome<string>)
    ensures r.Fail? <==> IsAdmin(a) && !a.isStaff
  {
    if IsAdmin(a) && !a.isStaff then Fail("Admin must have is_staff=True.") else Pass
  }

  predicate CanBookServices(a: Account)
  {
    IsTourist(a) && a.isActive && a.isApproved
  }

  predicate CanManageServices(a: Account)
  {
    (IsAgency(a) || IsAdmin(a)) && a.isActive && a.isApproved
  }

  predicate RequiresApproval(a: Account)
  {
    a.userType == Agency
  }

  /** A user row as an object: `save` updates its flags in place. */
  class User {
    const id: string
    var username: string
    var email: string
    var firstName: string
    var lastName: string
    var userType: string
    var phoneNumber: Option<string>
    var isStaff: bool
    var isVerified: bool
    var isApproved: bool
    var isActive: bool
    var provider: Provider
    var providerId: Option<string>
    var googleId: Option<string>
    var facebookId: Option<string>

    /** The current value of the row. */
    function Snapshot(): Account
      reads this
    {
      Account(id, username, email, firstName, lastName, userType, phoneNumber,
              isStaff, isVerified, isApproved, isActive, provider, providerId, googleId, facebookId)
    }

    /** `User(**fields)`: an unsaved instance holding the given values. */
    constructor (a: Account)
      ensures Snapshot() == a
    {
      id := a.id;
      username := a.username;
      email := a.email;
      firstName := a.firstName;
      lastName := a.lastName;
      userType := a.userType;
      phoneNumber := a.phoneNumber;
      isStaff := a.isStaff;
      isVerified := a.isVerified;
      isApproved := a.isApproved;
      isActive := a.isActive;
      provider := a.provider;
      providerId := a.providerId;
      googleId := a.googleId;
      facebookId := a.facebookId;
    }

    /** `save`: normalise the flags, then persist (the store holds this object). */
    method Save()
      modifies this
      ensures Snapshot() == Normalize(old(Snapshot()))
    {
      if userType == Admin {
        isStaff := true;
      }
      if (userType == Tourist || userType == Admin) && !isApproved {
        isApproved := true;
        isVerified := true;
      }
    }
  }

  /** After a save every admin is staff, so a saved account always passes `clean`. */
  lemma SavedAccountIsClean(a: Account)
    ensures IsAdmin(a) ==> Normalize(a).isStaff
    ensures Clean(Normalize(a)) == Pass
  {
  }

  /** Saving changes only the three flags: it approves and verifies an unapproved tourist or
      admin, and leaves an agency's (or any other role's) approval and verification alone. */
  lemma SaveApprovalRules(a: Account)
    ensures var r := Normalize(a);
      && r.(isStaff := a.isStaff, isApproved := a.isApproved, isVerified := a.isVerified) == a
      && ((IsTourist(a) || IsAdmin(a)) && !a.isApproved ==> r.isApproved && r.isVerified)
      && (!IsTourist(a) && !IsAdmin(a) ==> r.isApproved == a.isApproved && r.isVerified == a.isVerified)
      && (IsTourist(a) || IsAdmin(a) ==> r.isApproved)
      && (a.isApproved ==> r.isVerified == a.isVerified)
      && r.isStaff == (a.isStaff || IsAdmin(a))
  {
  }

  /** Saving twice is the same as saving once. */
  lemma SaveIdempotent(a: Account)
    ensures Normalize(Normalize(a)) == Normalize(a)
  {
  }

  /** Among the declared roles, exactly the agency is the one whose approval `save` does not
      grant: `requires_approval` names the role that an admin must approve. */
  lemma RequiresApprovalMatchesSave(a: Account)
    requires a.userType in DeclaredUserTypes && !a.isApproved
    ensures RequiresApproval(a) <==> !Normalize(a).isApproved
  {
  }

  /** No account may both book services and manage them. */
  lemma ServiceRightsExclusive(a: Account)
    ensures !(CanBookServices(a) && CanManageServices(a))
  {
  }

  /** The rights of a saved account: an active tourist may book and an active admin may
      manage without further approval; an agency may manage only once approved. */
  lemma SavedAccountRights(a: Account)
    ensures CanBookServices(Normalize(a)) <==> IsTourist(a) && a.isActive
    ensures CanManageServices(Normalize(a)) <==>
              a.isActive && (IsAdmin(a) || (IsAgency(a) && a.isApproved))
  {
  }

  /** An account whose tag is not a declared role has no service rights and no approval
      requirement, and saving leaves its approval as it was. */
  lemma UndeclaredTypeHasNoRights(a: Account)
    requires a.userType !in DeclaredUserTypes
    ensures !CanBookServices(a) && !CanManageServices(a) && !RequiresApproval(a)
    ensures Normalize(a) == a
  {
  }

  /** `f'{first} {last}'`, the unstripped pair of names. */
  function SpacedName(first: string, last: string): (r: string)
    ensures |r| == |first| + 1 + |last|
    ensures r[..|first|] == first && r[|first|] == ' ' && r[|first| + 1..] == last
  {
    first + " " + last
  }

  /** `get_full_name`: the first and last names joined by a space and stripped, or the
      username when that leaves nothing. */
  function FullName(a: Account): (r: string)
    ensures AllSpace(SpacedName(a.firstName, a.lastName)) ==> r == a.username
    ensures !AllSpace(SpacedName(a.firstName, a.lastName)) ==>
              r == Strip(SpacedName(a.firstName, a.lastName)) && r != [] &&
              !IsSpace(r[0]) && !IsSpace(r[|r| - 1])
  {
    StripEmptyIffAllSpace(SpacedName(a.firstName, a.lastName));
    var full := Strip(SpacedName(a.firstName, a.lastName));
    if full != [] then full else a.username
  }

  /** With non-empty names that carry no surrounding whitespace, the full name is exactly
      `"first last"`. */
  lemma FullNameOfTidyNames(a: Account)
    requires a.firstName != [] && !IsSpace(a.firstName[0]) && !IsSpace(a.firstName[|a.firstName| - 1])
    requires a.lastName != [] && !IsSpace(a.lastName[0]) && !IsSpace(a.lastName[|a.lastName| - 1])
    ensures FullName(a) == a.firstName + " " + a.lastName
  {
    var s := SpacedName(a.firstName, a.lastName);
    assert s[0] == a.firstName[0];
    assert s[|s| - 1] == a.lastName[|a.lastName| - 1];
    StripTidy(s);
  }

  // ---------------------------------------------------------------- dates

  datatype Date = Date(year: int, month: int, day: int)

  /** `(m1, d1) < (m2, d2)` as Python compares tuples. */
  predicate MonthDayBefore(m1: int, d1: int, m2: int, d2: int)
  {
    m1 < m2 || (m1 == m2 && d1 < d2)
  }

  predicate OnOrBefore(a: Date, b: Date)
  {
    a.year < b.year || (a.year == b.year && !MonthDayBefore(b.month, b.day, a.month, a.day))
  }

  /** The date `k` years after `d`, on the same month and day. */
  function Anniversary(d: Date, k: int): Date
  {
    Date(d.year + k, d.month, d.day)
  }

  // ---------------------------------------------------------------- profiles

  /** A text column that may be NULL; it is filled when it holds a non-empty string. */
  predicate Filled(o: Option<string>)
  {
    o.Some? && o.value != []
  }

  datatype TouristProfile = TouristProfile(
    travelInterests: seq<string>,
    emergencyContact: Option<string>,
    emergencyContactName: Option<string>,
    nationality: Option<string>,
    dateOfBirth: Option<Date>,
    preferredLanguage: string,
    travelBudgetRange: Option<string>,
    totalBookings: int,
    totalSpent: int)  // hundredths

  /** `Tourist.clean`: the owning account must be a tourist. */
  function TouristClean(owner: Account): (r: Outcome<string>)
    ensures r.Pass? <==> IsTourist(owner)
  {
    if !IsTourist(owner) then Fail("User must be of type tourist") else Pass
  }

  /** `Tourist.age`, with today's date passed in: the number of birthdays that have come
      round by `today`. */
  function Age(dateOfBirth: Option<Date>, today: Date): (r: Option<int>)
    ensures r.Some? <==> dateOfBirth.Some?
    ensures r.Some? ==> OnOrBefore(Anniversary(dateOfBirth.value, r.value), today) &&
                        !OnOrBefore(Anniversary(dateOfBirth.value, r.value + 1), today)
  {
    match dateOfBirth
    case None => None
    case Some(d) =>
      Some(today.year - d.year - if MonthDayBefore(today.month, today.day, d.month, d.day) then 1 else 0)
  }

  /** The age is the unique count of anniversaries reached: any `k` with the anniversary
      property is the age. */
  lemma AgeIsUnique(dob: Date, today: Date, k: int)
    requires OnOrBefore(Anniversary(dob, k), today) && !OnOrBefore(Anniversary(dob, k + 1), today)
    ensures Age(Some(dob), today) == Some(k)
  {
  }

  /** The travel-interest choices, key and label. */
  const TravelInterestChoices: seq<(string, string)> := [
    ("adventure", "Adventure"),
    ("cultural", "Cultural"),
    ("religious", "Religious"),
    ("wildlife", "Wildlife"),
    ("beach", "Beach"),
    ("mountain", "Mountain"),
    ("city", "City Tours"),
    ("heritage", "Heritage"),
    ("food", "Food & Cuisine"),
    ("photography", "Photography"),
    ("relaxation", "Relaxation"),
    ("family", "Family Friendly")
  ]

  /** `dict(choices).get(key, key)` over a list of pairs. A dict built from pairs keeps the
      last pair of a repeated key, so the label is that of the last pair with the key. */
  function LookupLabel(choices: seq<(string, string)>, key: string): (r: string)
    ensures (exists i :: 0 <= i < |choices| && choices[i].0 == key) ==>
              exists i :: 0 <= i < |choices| && choices[i] == (key, r) &&
                          forall j :: i < j < |choices| ==> choices[j].0 != key
    ensures (forall i :: 0 <= i < |choices| ==> choices[i].0 != key) ==> r == key
  {
    if choices == [] then key
    else if choices[|choices| - 1].0 == key then choices[|choices| - 1].1
    else
      var r := LookupLabel(choices[..|choices| - 1], key);
      assert forall i :: 0 <= i < |choices| - 1 ==> choices[i] == choices[..|choices| - 1][i];
      r
  }

  predicate IsInterestKey(key: string)
  {
    exists i :: 0 <= i < |TravelInterestChoices| && TravelInterestChoices[i].0 == key
  }

  /** `get_travel_interests_display`: each interest in order, known keys replaced by their
      label and unknown ones kept as they are. */
  function TravelInterestsDisplay(t: TouristProfile): (r: seq<string>)
    ensures |r| == |t.travelInterests|
    ensures forall k :: 0 <= k < |r| && IsInterestKey(t.travelInterests[k]) ==>
              exists i :: 0 <= i < |TravelInterestChoices| &&
                          TravelInterestChoices[i] == (t.travelInterests[k], r[k])
    ensures forall k :: 0 <= k < |r| && !IsInterestKey(t.travelInterests[k]) ==>
              r[k] == t.travelInterests[k]
  {
    seq(|t.travelInterests|, k requires 0 <= k < |t.travelInterests| =>
      LookupLabel(TravelInterestChoices, t.travelInterests[k]))
  }

  /** No choice has its key as its label, so a displayed interest differs from the stored
      one exactly when the stored one is a known key. */
  lemma InterestLabelChangesKnownKeys(key: string)
    ensures LookupLabel(TravelInterestChoices, key) != key <==> IsInterestKey(key)
  {
    InterestLabelsDifferFromKeys();
    LookupLabelChangesKeys(TravelInterestChoices, key);
  }

  lemma InterestLabelsDifferFromKeys()
    ensures forall i :: 0 <= i < |TravelInterestChoices| ==>
              TravelInterestChoices[i].0 != TravelInterestChoices[i].1
  {
  }

  /** Over choices whose labels all differ from their keys, the lookup changes a key exactly
      when the key is one of the choices. */
  lemma LookupLabelChangesKeys(choices: seq<(string, string)>, key: string)
    requires forall i :: 0 <= i < |choices| ==> choices[i].0 != choices[i].1
    ensures LookupLabel(choices, key) != key <==> exists i :: 0 <= i < |choices| && choices[i].0 == key
  {
    var r := LookupLabel(choices, key);
    if exists i :: 0 <= i < |choices| && choices[i].0 == key {
      var i :| 0 <= i < |choices| && choices[i] == (key, r);
      assert choices[i].0 != choices[i].1;
    }
  }

  /** `has_completed_profile`: nationality, date of birth and emergency contact are set. */
  predicate HasCompletedProfile(t: TouristProfile)
  {
    Filled(t.nationality) && t.dateOfBirth.Some? && Filled(t.emergencyContact)
  }

  /** A completed profile always has an age. */
  lemma CompletedProfileHasAge(t: TouristProfile, today: Date)
    requires HasCompletedProfile(t)
    ensures Age(t.dateOfBirth, today).Some?
  {
  }

  datatype Guide = Guide(
    user: Account,
    licenseNumber: Option<string>,
    licenseDocument: Option<string>,
    languages: seq<string>,
    specializations: seq<string>,
    hourlyRate: int,   // hundredths
    dailyRate: int,    // hundredths
    experienceYears: int,
    bio: Option<string>,
    averageRating: int,  // hundredths
    totalTrips: int)

  datatype AgencyProfile = AgencyProfile(
    companyName: Option<string>,
    agencyType: Option<string>,
    companyLicense: Option<string>,  // the stored file's name
    registrationNumber: Option<string>,
    taxId: Option<string>,
    address: Option<string>,
    city: Option<string>,
    state: Option<string>,
    country: Option<string>,
    postalCode: Option<string>,
    website: Option<string>,
    commissionRate: int,  // hundredths of a percent
    description: Option<string>,
    establishedYear: Option<int>,
    averageRating: int,   // hundredths
    totalBookings: int)

  /** The largest commission rate `clean` accepts, 50.00%, in hundredths of a percent. */
  const MaxCommissionRate: int := 5000

  /** `Agency.clean`: the owner must be an agency, then the commission rate must lie in
      [0, 50]%. */
  function AgencyClean(owner: Account, a: AgencyProfile): (r: Outcome<string>)
    ensures r.Pass? <==> IsAgency(owner) && 0 <= a.commissionRate <= MaxCommissionRate
    ensures !IsAgency(owner) ==> r == Fail("User must be of type agency")
    ensures IsAgency(owner) && r.Fail? ==> r == Fail("Commission rate must be between 0% and 50%")
  {
    if !IsAgency(owner) then Fail("User must be of type agency")
    else if a.commissionRate < 0 || a.commissionRate > MaxCommissionRate then
      Fail("Commission rate must be between 0% and 50%")
    else Pass
  }

  /** The number of filled entries of `fields`. */
  function FilledCount(fields: seq<Option<string>>): (n: nat)
    ensures n <= |fields|
    ensures n == |fields| <==> forall k :: 0 <= k < |fields| ==> Filled(fields[k])
    ensures n == 0 <==> forall k :: 0 <= k < |fields| ==> !Filled(fields[k])
  {
    if fields == [] then 0
    else
      var rest := FilledCount(fields[1..]);
      assert forall k :: 1 <= k < |fields| ==> fields[k] == fields[1..][k - 1];
      (if Filled(fields[0]) then 1 else 0) + rest
  }

  function CompletionFields(a: AgencyProfile): seq<Option<string>>
  {
    [a.companyName, a.agencyType, a.address, a.city, a.country, a.description]
  }

  /** `get_completion_percentage`: the share of the six profile fields that are filled, as a
      whole percentage rounded down. */
  function CompletionPercentage(a: AgencyProfile): (r: int)
    ensures 0 <= r <= 100
    ensures r == 100 <==> forall k :: 0 <= k < 6 ==> Filled(CompletionFields(a)[k])
    ensures r == 0 <==> forall k :: 0 <= k < 6 ==> !Filled(CompletionFields(a)[k])
    ensures r * 6 <= FilledCount(CompletionFields(a)) * 100 < (r + 1) * 6
  {
    FilledCount(CompletionFields(a)) * 100 / 6
  }

  /** Filling one more field never lowers the percentage. */
  lemma CompletionMonotone(a: AgencyProfile, b: AgencyProfile)
    requires forall k :: 0 <= k < 6 && Filled(CompletionFields(a)[k]) ==> Filled(CompletionFields(b)[k])
    ensures CompletionPercentage(a) <= CompletionPercentage(b)
  {
    FilledCountMonotone(CompletionFields(a), CompletionFields(b));
  }

  lemma {:induction false} FilledCountMonotone(xs: seq<Option<string>>, ys: seq<Option<string>>)
    requires |xs| == |ys|
    requires forall k :: 0 <= k < |xs| && Filled(xs[k]) ==> Filled(ys[k])
    ensures FilledCount(xs) <= FilledCount(ys)
  {
    if xs != [] {
      FilledCountMonotone(xs[1..], ys[1..]);
    }
  }

  /** `has_valid_license`: a license file is stored and a registration number is given. */
  predicate HasValidLicense(a: AgencyProfile)
  {
    Filled(a.companyLicense) && Filled(a.registrationNumber)
  }

  /** The license check reads only the two license columns: profiles that agree on them
      agree on the check, whatever their other fields (the completion fields among them). */
  lemma LicenseReadsOnlyLicenseColumns(a: AgencyProfile, b: AgencyProfile)
    requires a.companyLicense == b.companyLicense && a.registrationNumber == b.registrationNumber
    ensures HasValidLicense(a) == HasValidLicense(b)
  {
  }

  /** A missing or empty license file or registration number fails the check (the empty
      string is falsy). */
  lemma LicenseNeedsBothColumns(a: AgencyProfile)
    ensures !HasValidLicense(a.(registrationNumber := None)) && !HasValidLicense(a.(registrationNumber := Some("")))
    ensures !HasValidLicense(a.(companyLicense := None)) && !HasValidLicense(a.(companyLicense := Some("")))
    ensures Filled(a.companyLicense) && Filled(a.registrationNumber) ==> HasValidLicense(a)
  {
  }

  /** A fully completed profile can still fail the license check: completion does not look at
      the license columns. */
  lemma CompleteProfileMayLackLicense(a: AgencyProfile)
    requires CompletionPercentage(a) == 100
    ensures var b := a.(registrationNumber := Some(""));
            CompletionPercentage(b) == 100 && !HasValidLicense(b)
  {
    assert CompletionFields(a.(registrationNumber := Some(""))) == CompletionFields(a);
  }

  /** `Agency.is_approved`: the owning account's approval flag. */
  predicate AgencyIsApproved(owner: Account)
  {
    owner.isApproved
  }

  /** Saving never approves an agency: its approval is what it was before the save. */
  lemma AgencyApprovalSurvivesSave(owner: Account)
    requires IsAgency(owner)
    ensures AgencyIsApproved(Normalize(owner)) == AgencyIsApproved(owner)
  {
  }

  /** An agency may manage services only when it is approved. */
  lemma AgencyManagesOnlyWhenApproved(owner: Account)
    ensures IsAgency(owner) && CanManageServices(owner) ==> AgencyIsApproved(owner)
  {
  }

  /** `years_in_business`, with the current year passed in. An established year of 0 is
      falsy in Python and counts as unset. */
  function YearsInBusiness(establishedYear: Option<int>, currentYear: int): (r: Option<int>)
    ensures r.Some? <==> establishedYear.Some? && establishedYear.value != 0
    ensures r.Some? ==> establishedYear.value + r.value == currentYear
  {
    if establishedYear.Some? && establishedYear.value != 0 then Some(currentYear - establishedYear.value)
    else None
  }

  /** `get_active_packages_count`, over the agency's packages: how many are active. */
  function ActivePackagesCount(packages: seq<Package>): (n: nat)
    ensures n <= |packages|
    ensures n == |packages| <==> forall k :: 0 <= k < |packages| ==> packages[k].isActive
    ensures n == 0 <==> forall k :: 0 <= k < |packages| ==> !packages[k].isActive
  {
    if packages == [] then 0
    else
      var rest := ActivePackagesCount(packages[1..]);
      assert forall k :: 1 <= k < |packages| ==> packages[k] == packages[1..][k - 1];
      (if packages[0].isActive then 1 else 0) + rest
  }

  /** Adding a package raises the count by one exactly when the new package is active. */
  lemma {:induction false} ActivePackagesCountAppend(packages: seq<Package>, p: Package)
    ensures ActivePackagesCount(packages + [p]) == ActivePackagesCount(packages) + if p.isActive then 1 else 0
  {
    if packages != [] {
      assert (packages + [p])[1..] == packages[1..] + [p];
      ActivePackagesCountAppend(packages[1..], p);
    }
  }

  /** The profile attached to an account. */
  datatype Profile = TouristOf(tourist: TouristProfile) | AgencyOf(agency: AgencyProfile)

  /** `get_profile`: the tourist profile of a tourist, the agency profile of an agency, and
      nothing for any other role or when the profile row is missing. */
  function GetProfile(a: Account, tourist: Option<TouristProfile>, agency: Option<AgencyProfile>): (r: Option<Profile>)
    ensures r.Some? ==> (IsTourist(a) && r.value.TouristOf?) || (IsAgency(a) && r.value.AgencyOf?)
    ensures IsTourist(a) ==> (r.Some? <==> tourist.Some?) && (r.Some? ==> r.value.tourist == tourist.value)
    ensures IsAgency(a) ==> (r.Some? <==> agency.Some?) && (r.Some? ==> r.value.agency == agency.value)
    ensures !IsTourist(a) && !IsAgency(a) ==> r.None?
  {
    if IsTourist(a) then (if tourist.Some? then Some(TouristOf(tourist.value)) else None)
    else if IsAgency(a) then (if agency.Some? then Some(AgencyOf(agency.value)) else None)
    else None
  }

  /** `get_display_name`: an agency with a profile shows its company name when it has one;
      every other case shows the full name. */
  function DisplayName(a: Account, agency: Option<AgencyProfile>): (r: string)
    ensures IsAgency(a) && agency.Some? && Filled(agency.value.companyName) ==> r == agency.value.companyName.value
    ensures !(IsAgency(a) && agency.Some? && Filled(agency.value.companyName)) ==> r == FullName(a)
  {
    if IsAgency(a) && agency.Some? then
      (if Filled(agency.value.companyName) then agency.value.companyName.value else FullName(a))
    else FullName(a)
  }

  // ---------------------------------------------------------------- bookings and ratings

  datatype Package = Package(
    id: string,
    name: string,
    description: string,
    packageType: string,
    agency: AgencyProfile,
    durationDays: int,
    price: int,  // hundredths
    maxPeople: int,
    destinations: seq<string>,
    isActive: bool)

  /** The kind of thing a booking or rating is about. */
  datatype TargetKind = PackageKind | GuideKind | AgencyKind

  /** The thing itself: exactly one of a package, a guide or an agency. */
  datatype Target = PackageTarget(package: Package) | GuideTarget(guide: Guide) | AgencyTarget(agency: AgencyProfile)

  function KindOf(t: Target): TargetKind
  {
    match t
    case PackageTarget(_) => PackageKind
    case GuideTarget(_) => GuideKind
    case AgencyTarget(_) => AgencyKind
  }

  /** The rows store a kind tag and three nullable references; the target exists when the
      reference the tag names is present, whatever the other two hold. */
  function TargetOf(kind: TargetKind, package: Option<Package>, guide: Option<Guide>, agency: Option<AgencyProfile>): (r: Option<Target>)
    ensures r.Some? ==> KindOf(r.value) == kind
    ensures r.Some? <==> match kind
                         case PackageKind => package.Some?
                         case GuideKind => guide.Some?
                         case AgencyKind => agency.Some?
    ensures r.Some? ==> match r.value
                        case PackageTarget(p) => package == Some(p)
                        case GuideTarget(g) => guide == Some(g)
                        case AgencyTarget(ag) => agency == Some(ag)
  {
    match kind
    case PackageKind => if package.Some? then Some(PackageTarget(package.value)) else None
    case GuideKind => if guide.Some? then Some(GuideTarget(guide.value)) else None
    case AgencyKind => if agency.Some? then Some(AgencyTarget(agency.value)) else None
  }

  datatype BookingStatus = Pending | Confirmed | InProgress | Completed | Cancelled

  datatype Booking = Booking(
    id: string,
    tourist: Account,  // the booking tourist's account
    bookingType: TargetKind,
    package: Option<Package>,
    guide: Option<Guide>,
    agency: Option<AgencyProfile>,
    status: BookingStatus,
    startDate: Date,
    endDate: Date,
    numberOfPeople: int,
    totalPrice: int,  // hundredths
    specialRequests: Option<string>)

  /** A star rating: a whole number from 1 to 5. */
  type Stars = n: int | 1 <= n <= 5 witness 1

  datatype Rating = Rating(
    id: string,
    tourist: Account,  // the rating tourist's account
    ratingType: TargetKind,
    package: Option<Package>,
    guide: Option<Guide>,
    agency: Option<AgencyProfile>,
    rating: Stars,
    review: Option<string>)
}
