/** The computed columns of the admin pages: the contact name, the joined lists, the agency
    approval badge, the name of the service a booking or rating is about, and the star
    rendering of a rating. HTML wrapping (`format_html`, colours) is not modelled; each
    function gives the text inside the markup. */
module Admin {

  import opened Wrappers
  import opened Text
  import opened Models

  // ---------------------------------------------------------------- names

  /** `get_user_name` / `get_tourist_name`: `f"{first} {last}"`, neither stripped nor
      falling back to the username. */
  function UserName(a: Account): (r: string)
    ensures |r| == |a.firstName| + 1 + |a.lastName|
    ensures r[..|a.firstName|] == a.firstName && r[|a.firstName|] == ' '
    ensures r[|a.firstName| + 1..] == a.lastName
  {
    SpacedName(a.firstName, a.lastName)
  }

  /** When the first name holds no space, the column can be split back into the two names
      at its first space. */
  lemma UserNameSplits(a: Account)
    requires ' ' !in a.firstName
    ensures PrefixBefore(UserName(a), ' ') == a.firstName
    ensures UserName(a)[|a.firstName| + 1..] == a.lastName
  {
    PrefixBeforeFirst(a.firstName, a.lastName, ' ');
  }

  /** The admin column and the model's full name differ only by the stripping and the
      fallback: the full name is the stripped column, or the username when the column is
      blank. */
  lemma UserNameAndFullName(a: Account)
    ensures !AllSpace(UserName(a)) ==> FullName(a) == Strip(UserName(a))
    ensures AllSpace(UserName(a)) ==> FullName(a) == a.username
    ensures |UserName(a)| >= 1 && UserName(a)[|a.firstName|] == ' '
  {
  }

  // ---------------------------------------------------------------- lists

  const NoneLabel: string := "None"

  /** `', '.join(xs) if xs else 'None'`. */
  function JoinOrNone(xs: seq<string>): (r: string)
    ensures xs == [] ==> r == NoneLabel
    ensures xs != [] ==> r == Join(xs)
  {
    if xs == [] then NoneLabel else Join(xs)
  }

  /** A non-empty list whose items contain no `", "` can be read back from its column. */
  lemma JoinOrNoneRoundTrip(xs: seq<string>)
    ensures xs != [] && (forall k :: 0 <= k < |xs| ==> NoSeparator(xs[k])) ==> Split(JoinOrNone(xs)) == xs
  {
    if xs != [] && forall k :: 0 <= k < |xs| ==> NoSeparator(xs[k]) {
      SplitJoin(xs);
    }
  }

  /** An empty list and the one-item list `["None"]` show the same text. */
  lemma JoinOrNoneConflatesNone()
    ensures JoinOrNone([]) == JoinOrNone([NoneLabel])
  {
  }

  /** `TouristAdmin.get_travel_interests`: the stored interest keys, joined. */
  function TravelInterestsColumn(t: TouristProfile): (r: string)
    ensures t.travelInterests == [] ==> r == NoneLabel
    ensures t.travelInterests != [] ==> r == Join(t.travelInterests)
    ensures t.travelInterests != [] && (forall k :: 0 <= k < |t.travelInterests| ==> NoSeparator(t.travelInterests[k])) ==>
              Split(r) == t.travelInterests
  {
    JoinOrNoneRoundTrip(t.travelInterests);
    JoinOrNone(t.travelInterests)
  }

  /** `GuideAdmin.get_specializations`: the guide's specialisations, joined. */
  function SpecializationsColumn(g: Guide): (r: string)
    ensures g.specializations == [] ==> r == NoneLabel
    ensures g.specializations != [] ==> r == Join(g.specializations)
    ensures g.specializations != [] && (forall k :: 0 <= k < |g.specializations| ==> NoSeparator(g.specializations[k])) ==>
              Split(r) == g.specializations
  {
    JoinOrNoneRoundTrip(g.specializations);
    JoinOrNone(g.specializations)
  }

  // ---------------------------------------------------------------- approval badge

  const ApprovedLabel: string := "✓ Approved"
  const PendingLabel: string := "✗ Pending"

  /** `AgencyAdmin.get_approval_status`: the badge text for the owning account. */
  function ApprovalStatus(owner: Account): (r: string)
    ensures r == ApprovedLabel || r == PendingLabel
  {
    if owner.isApproved then ApprovedLabel else PendingLabel
  }

  /** The badge shows the approval flag and nothing else: two accounts get the same badge
      exactly when their flags agree, and an account is shown approved exactly when it is. */
  lemma ApprovalStatusReflectsFlag(a: Account, b: Account)
    ensures ApprovalStatus(a) == ApprovedLabel <==> a.isApproved
    ensures ApprovalStatus(a) == ApprovalStatus(b) <==> a.isApproved == b.isApproved
  {
    assert ApprovedLabel[0] != PendingLabel[0];
  }

  /** After a save, a tourist or admin is always shown approved; any other account (an agency
      in particular) is shown pending exactly when it was saved unapproved. */
  lemma ApprovalStatusAfterSave(a: Account)
    ensures IsTourist(a) || IsAdmin(a) ==> ApprovalStatus(Normalize(a)) == ApprovedLabel
    ensures !IsTourist(a) && !IsAdmin(a) ==>
              (ApprovalStatus(Normalize(a)) == PendingLabel <==> !a.isApproved)
  {
    SaveApprovalRules(a);
    ApprovalStatusReflectsFlag(Normalize(a), a);
  }

  // ---------------------------------------------------------------- service names

  const NotAvailable: string := "N/A"

  /** `get_service_name` of the booking and rating pages, on the kind tag and the three
      references. The agency's company name may be NULL, in which case the column shows no
      value (`None`). */
  function ServiceName(kind: TargetKind, package: Option<Package>, guide: Option<Guide>, agency: Option<AgencyProfile>): (r: Option<string>)
    ensures match TargetOf(kind, package, guide, agency)
            case None => r == Some(NotAvailable)
            case Some(PackageTarget(p)) => r == Some(p.name)
            case Some(GuideTarget(g)) => r == Some(UserName(g.user))
            case Some(AgencyTarget(ag)) => r == ag.companyName
  {
    if kind == PackageKind && package.Some? then Some(package.value.name)
    else if kind == GuideKind && guide.Some? then
      Some(UserName(guide.value.user))
    else if kind == AgencyKind && agency.Some? then agency.value.companyName
    else Some(NotAvailable)
  }

  /** The column depends only on the reference the tag selects: references of the other two
      kinds, whatever they hold, do not change it. */
  lemma ServiceNameIgnoresOtherReferences(
    kind: TargetKind,
    p1: Option<Package>, g1: Option<Guide>, a1: Option<AgencyProfile>,
    p2: Option<Package>, g2: Option<Guide>, a2: Option<AgencyProfile>)
    requires kind == PackageKind ==> p1 == p2
    requires kind == GuideKind ==> g1 == g2
    requires kind == AgencyKind ==> a1 == a2
    ensures ServiceName(kind, p1, g1, a1) == ServiceName(kind, p2, g2, a2)
  {
  }

  /** `BookingAdmin.get_service_name`. */
  function BookingServiceName(b: Booking): (r: Option<string>)
    ensures TargetOf(b.bookingType, b.package, b.guide, b.agency).None? ==> r == Some(NotAvailable)
    ensures r == ServiceName(b.bookingType, b.package, b.guide, b.agency)
  {
    ServiceName(b.bookingType, b.package, b.guide, b.agency)
  }

  /** `RatingAdmin.get_service_name`: the same rule on the rating's tag and references. */
  function RatingServiceName(rating: Rating): (r: Option<string>)
    ensures TargetOf(rating.ratingType, rating.package, rating.guide, rating.agency).None? ==> r == Some(NotAvailable)
    ensures r == ServiceName(rating.ratingType, rating.package, rating.guide, rating.agency)
  {
    ServiceName(rating.ratingType, rating.package, rating.guide, rating.agency)
  }

  // ---------------------------------------------------------------- stars

  const FullStar: char := '★'
  const EmptyStar: char := '☆'

  /** `'★' * rating + '☆' * (5 - rating)`, on any stored integer. */
  function RatingStars(rating: int): (r: string)
    ensures |r| == (if rating <= 0 then 0 else rating) + (if 5 - rating <= 0 then 0 else 5 - rating)
    ensures forall k :: 0 <= k < |r| ==> (r[k] == FullStar <==> k < rating)
    ensures forall k :: 0 <= k < |r| ==> r[k] == FullStar || r[k] == EmptyStar
  {
    Repeat(FullStar, rating) + Repeat(EmptyStar, 5 - rating)
  }

  /** The number of occurrences of `c` in `s`. */
  function Occurrences(s: string, c: char): nat
  {
    if s == [] then 0 else Occurrences(s[..|s| - 1], c) + (if s[|s| - 1] == c then 1 else 0)
  }

  lemma {:induction false} OccurrencesAppend(s: string, t: string, c: char)
    ensures Occurrences(s + t, c) == Occurrences(s, c) + Occurrences(t, c)
    decreases |t|
  {
    if t != [] {
      assert (s + t)[..|s + t| - 1] == s + t[..|t| - 1];
      OccurrencesAppend(s, t[..|t| - 1], c);
    } else {
      assert s + t == s;
    }
  }

  lemma {:induction false} OccurrencesRepeat(c: char, d: char, n: int)
    ensures Occurrences(Repeat(c, n), d) == if c == d && n > 0 then n else 0
    decreases n
  {
    if n > 0 {
      OccurrencesRepeat(c, d, n - 1);
      assert Repeat(c, n) == Repeat(c, n - 1) + [c];
      OccurrencesAppend(Repeat(c, n - 1), [c], d);
      assert [c][..0] == [];
    }
  }

  /** For a valid rating the stars always number five, and the filled ones count the
      rating: the column reads back as the rating. */
  lemma RatingStarsReadBack(rating: Stars)
    ensures |RatingStars(rating)| == 5
    ensures Occurrences(RatingStars(rating), FullStar) == rating
    ensures Occurrences(RatingStars(rating), EmptyStar) == 5 - rating
  {
    OccurrencesAppend(Repeat(FullStar, rating), Repeat(EmptyStar, 5 - rating), FullStar);
    OccurrencesAppend(Repeat(FullStar, rating), Repeat(EmptyStar, 5 - rating), EmptyStar);
    OccurrencesRepeat(FullStar, FullStar, rating);
    OccurrencesRepeat(FullStar, EmptyStar, rating);
    OccurrencesRepeat(EmptyStar, FullStar, 5 - rating);
    OccurrencesRepeat(EmptyStar, EmptyStar, 5 - rating);
  }
}
