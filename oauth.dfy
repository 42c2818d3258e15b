/** Social login: the checks applied to an already-decoded Google ID token or Facebook
    debug/profile reply, the search for a free username, and the resolution of a social
    identity to a stored account (found by provider id, linked by email, or created). */
module OAuth {

  import opened Wrappers
  import opened Text
  import opened Models

  // ---------------------------------------------------------------- decoded payloads

  /** The fields of a decoded Google ID token that the backend reads. */
  datatype GooglePayload = GooglePayload(
    aud: Option<string>,
    iss: Option<string>,
    sub: Option<string>,
    email: Option<string>,
    givenName: Option<string>,
    familyName: Option<string>,
    name: Option<string>,
    picture: Option<string>,
    emailVerified: Option<bool>)

  /** The user data handed to the account resolution; `providerId` is the entry under
      `"<provider>_id"`. A missing optional name part reads as the empty string. */
  datatype SocialData = SocialData(
    providerId: Option<string>,
    email: Option<string>,
    firstName: string,
    lastName: string,
    name: string,
    profileImage: string)

  const GoogleIssuers: set<string> := {"accounts.google.com", "https://accounts.google.com"}

  function OrEmpty(o: Option<string>): string
  {
    if o.Some? then o.value else ""
  }

  /** The audience and issuer checks of `verify_google_token`, then the user data it builds.
      `clientId` is the configured client id, absent when the setting is missing. */
  function CheckGooglePayload(p: GooglePayload, clientId: Option<string>): (r: Result<SocialData, string>)
    ensures r.Ok? <==> p.aud == clientId && p.iss.Some? && p.iss.value in GoogleIssuers
    ensures p.aud != clientId ==> r == Err("Invalid Google token: Invalid audience.")
    ensures p.aud == clientId && !(p.iss.Some? && p.iss.value in GoogleIssuers) ==>
              r == Err("Invalid Google token: Invalid issuer.")
    ensures r.Ok? ==> r.value.providerId == p.sub && r.value.email == p.email &&
                      r.value.firstName == OrEmpty(p.givenName) && r.value.lastName == OrEmpty(p.familyName) &&
                      r.value.name == OrEmpty(p.name) && r.value.profileImage == OrEmpty(p.picture)
  {
    if p.aud != clientId then Err("Invalid Google token: Invalid audience.")
    else if !(p.iss.Some? && p.iss.value in GoogleIssuers) then Err("Invalid Google token: Invalid issuer.")
    else Ok(SocialData(p.sub, p.email, OrEmpty(p.givenName), OrEmpty(p.familyName),
                       OrEmpty(p.name), OrEmpty(p.picture)))
  }

  /** With the client id configured, an accepted token names it as audience; with no client
      id configured, a token that carries no audience passes the audience check. */
  lemma GoogleAudienceRule(p: GooglePayload, clientId: Option<string>)
    ensures clientId.Some? && CheckGooglePayload(p, clientId).Ok? ==> p.aud == clientId
    ensures clientId.None? && p.aud.None? && p.iss == Some("accounts.google.com") ==>
              CheckGooglePayload(p, clientId).Ok?
  {
  }

  /** The reply of the Facebook debug-token endpoint. */
  datatype FacebookDebug = FacebookDebug(hasError: bool, data: Option<DebugData>)
  datatype DebugData = DebugData(isValid: Option<bool>)

  /** The reply of the Facebook profile endpoint. */
  datatype FacebookProfile = FacebookProfile(
    error: Option<GraphError>,
    id: Option<string>,
    email: Option<string>,
    firstName: Option<string>,
    lastName: Option<string>,
    name: Option<string>,
    pictureUrl: Option<string>)
  datatype GraphError = GraphError(message: Option<string>)

  /** `debug_data.get('data', {}).get('is_valid')` is true. */
  predicate DebugSaysValid(d: FacebookDebug)
  {
    d.data.Some? && d.data.value.isValid == Some(true)
  }

  /** The checks of `verify_facebook_token` on the two decoded replies, then the user data. */
  function CheckFacebookReplies(debug: FacebookDebug, profile: FacebookProfile): (r: Result<SocialData, string>)
    ensures r.Ok? <==> !debug.hasError && DebugSaysValid(debug) && profile.error.None?
    ensures debug.hasError || !DebugSaysValid(debug) ==> r == Err("Invalid Facebook token: Invalid Facebook token")
    ensures !debug.hasError && DebugSaysValid(debug) && profile.error.Some? ==>
              r == Err(if profile.error.value.message.Some?
                       then "Invalid Facebook token: Facebook API error: " + profile.error.value.message.value
                       else "Failed to verify Facebook token: 'message'")
    ensures r.Ok? ==> r.value.providerId == profile.id && r.value.email == profile.email &&
                      r.value.firstName == OrEmpty(profile.firstName) && r.value.lastName == OrEmpty(profile.lastName) &&
                      r.value.name == OrEmpty(profile.name) && r.value.profileImage == OrEmpty(profile.pictureUrl)
  {
    if debug.hasError || !DebugSaysValid(debug) then Err("Invalid Facebook token: Invalid Facebook token")
    else if profile.error.Some? then
      match profile.error.value.message
      case Some(m) => Err("Invalid Facebook token: Facebook API error: " + m)
      case None => Err("Failed to verify Facebook token: 'message'")
    else Ok(SocialData(profile.id, profile.email, OrEmpty(profile.firstName), OrEmpty(profile.lastName),
                       OrEmpty(profile.name), OrEmpty(profile.pictureUrl)))
  }

  // ---------------------------------------------------------------- usernames

  /** The base of a generated username: the name lower-cased with spaces turned into
      underscores, or, for an empty name, the lower-cased part of the email before `@`. */
  function CleanBase(name: string, email: string): (r: string)
    ensures name != [] ==> |r| == |name| && ' ' !in r &&
                           forall k :: 0 <= k < |r| ==> !('A' <= r[k] <= 'Z')
    ensures name != [] ==> forall k :: 0 <= k < |r| ==> r[k] == if name[k] == ' ' then '_' else LowerChar(name[k])
    ensures name == [] ==> r == Lower(PrefixBefore(email, '@')) && '@' !in r
  {
    var cleaned := ReplaceChar(Lower(name), ' ', '_');
    if cleaned != [] then cleaned else Lower(PrefixBefore(email, '@'))
  }

  /** The `k`-th name tried: the base itself, then `base_1`, `base_2`, ... */
  function Candidate(base: string, k: nat): (r: string)
    ensures k == 0 ==> r == base
    ensures k > 0 ==> |r| > |base| + 1 && r[..|base|] == base && r[|base|] == '_' &&
                      IsDigits(r[|base| + 1..]) && ParseDecimal(r[|base| + 1..]) == k &&
                      r[|base| + 1] != '0'
  {
    if k == 0 then base
    else
      var r := base + "_" + Decimal(k);
      assert r[|base| + 1..] == Decimal(k);
      ParseDecimalOfDecimal(k);
      r
  }

  /** Different attempts try different names. */
  lemma CandidateInjective(base: string, j: nat, k: nat)
    ensures Candidate(base, j) == Candidate(base, k) <==> j == k
  {
    if j != 0 && k != 0 && Candidate(base, j) == Candidate(base, k) {
      assert Decimal(j) == Candidate(base, j)[|base| + 1..];
      assert Decimal(k) == Candidate(base, k)[|base| + 1..];
      DecimalInjective(j, k);
    }
  }

  /** The first `n` attempts are `n` distinct names. */
  lemma {:induction false} CandidatesCount(base: string, n: nat)
    ensures |set j | 0 <= j < n :: Candidate(base, j)| == n
  {
    if n > 0 {
      var before := set j | 0 <= j < n - 1 :: Candidate(base, j);
      var now := set j | 0 <= j < n :: Candidate(base, j);
      assert now == before + {Candidate(base, n - 1)};
      forall j | 0 <= j < n - 1 ensures Candidate(base, j) != Candidate(base, n - 1) {
        CandidateInjective(base, j, n - 1);
      }
      CandidatesCount(base, n - 1);
    }
  }

  /** `generate_unique_username`: the first of `base`, `base_1`, `base_2`, ... that is not
      already taken. */
  method GenerateUniqueUsername(baseName: string, email: string, taken: set<string>) returns (username: string)
    ensures username !in taken
    ensures exists k: nat :: username == Candidate(CleanBase(baseName, email), k) &&
                             forall j :: 0 <= j < k ==> Candidate(CleanBase(baseName, email), j) in taken
    ensures CleanBase(baseName, email) !in taken ==> username == CleanBase(baseName, email)
  {
    var base := CleanBase(baseName, email);
    username := base;
    var counter := 1;
    while username in taken
      invariant counter >= 1
      invariant username == Candidate(base, counter - 1)
      invariant forall j :: 0 <= j < counter - 1 ==> Candidate(base, j) in taken
      decreases |taken| - (counter - 1)
    {
      CandidatesCount(base, counter);
      var tried := set j | 0 <= j < counter :: Candidate(base, j);
      assert taken == tried + (taken - tried);
      username := base + "_" + Decimal(counter);
      counter := counter + 1;
    }
  }

  // ---------------------------------------------------------------- the user store

  /** The id an account holds for `provider`; an e-mail login has none. */
  function ProviderIdOf(a: Account, provider: Provider): Option<string>
  {
    match provider
    case Google => a.googleId
    case Facebook => a.facebookId
    case EmailLogin => None
  }

  /** The first stored user with the given email (`filter(email=...).first()`). */
  function IndexOfEmail(users: seq<User>, email: string): (r: Option<nat>)
    reads users
    ensures r.Some? ==> r.value < |users| && users[r.value].email == email
    ensures r.None? ==> forall j :: 0 <= j < |users| ==> users[j].email != email
  {
    if users == [] then None
    else if users[0].email == email then Some(0)
    else match IndexOfEmail(users[1..], email)
      case None => None
      case Some(i) => Some(i + 1)
  }

  /** The first stored user holding `providerId` as its id for `provider`. */
  function IndexOfProviderId(users: seq<User>, provider: Provider, providerId: string): (r: Option<nat>)
    reads users
    ensures r.Some? ==> r.value < |users| && ProviderIdOf(users[r.value].Snapshot(), provider) == Some(providerId)
    ensures r.None? ==> forall j :: 0 <= j < |users| ==> ProviderIdOf(users[j].Snapshot(), provider) != Some(providerId)
  {
    if users == [] then None
    else if ProviderIdOf(users[0].Snapshot(), provider) == Some(providerId) then Some(0)
    else match IndexOfProviderId(users[1..], provider, providerId)
      case None => None
      case Some(i) => Some(i + 1)
  }

  /** An existing account after it is linked to a social provider, before `save`. */
  function Linked(a: Account, provider: Provider, providerId: string): (r: Account)
    ensures r.email == a.email && r.username == a.username
    ensures r.isVerified && r.provider == provider && r.providerId == Some(providerId)
    ensures provider != EmailLogin ==> ProviderIdOf(r, provider) == Some(providerId)
    ensures provider != Google ==> r.googleId == a.googleId
    ensures provider != Facebook ==> r.facebookId == a.facebookId
    ensures r.(googleId := a.googleId, facebookId := a.facebookId, provider := a.provider,
               providerId := a.providerId, isVerified := a.isVerified) == a
  {
    var withId := match provider
      case Google => a.(googleId := Some(providerId))
      case Facebook => a.(facebookId := Some(providerId))
      case EmailLogin => a;
    withId.(provider := provider, providerId := Some(providerId), isVerified := true)
  }

  /** The account `create_user` builds from the social data, before `save`; unlisted fields
      take the model defaults (a tourist, active, not staff, no phone). */
  function NewSocialAccount(id: string, username: string, email: string, data: SocialData,
                            provider: Provider, providerId: string): (r: Account)
    ensures r.id == id && r.username == username && r.email == email
    ensures r.firstName == data.firstName && r.lastName == data.lastName
    ensures !r.isStaff && r.phoneNumber.None?
    ensures r.isVerified && r.isApproved && r.isActive && IsTourist(r)
    ensures r.provider == provider && r.providerId == Some(providerId)
    ensures provider != EmailLogin ==> ProviderIdOf(r, provider) == Some(providerId)
    ensures provider != Google ==> r.googleId.None?
    ensures provider != Facebook ==> r.facebookId.None?
  {
    Account(id, username, email, data.firstName, data.lastName, Tourist, None,
            false, true, true, true, provider, Some(providerId),
            if provider == Google then Some(providerId) else None,
            if provider == Facebook then Some(providerId) else None)
  }

  /** A new social account is already in saved form, and may book services at once. */
  lemma NewSocialAccountIsSaved(id: string, username: string, email: string, data: SocialData,
                                provider: Provider, providerId: string)
    ensures var a := NewSocialAccount(id, username, email, data, provider, providerId);
            Normalize(a) == a && CanBookServices(a)
  {
  }

  /** Django's `create_user` refuses an empty username with this message. */
  const UsernameRequired: string := "The given username must be set"

  /** Email and provider id are both given and non-empty. */
  predicate HasIdentity(data: SocialData)
  {
    data.email.Some? && data.email.value != [] && data.providerId.Some? && data.providerId.value != []
  }

  /** The unique columns of the user table: email, username, and the Google and Facebook
      ids where set. */
  predicate UniqueColumns(rows: seq<Account>)
  {
    && (forall i, j :: 0 <= i < j < |rows| ==> rows[i].email != rows[j].email)
    && (forall i, j :: 0 <= i < j < |rows| ==> rows[i].username != rows[j].username)
    && (forall i, j :: 0 <= i < j < |rows| && rows[i].googleId.Some? ==> rows[i].googleId != rows[j].googleId)
    && (forall i, j :: 0 <= i < j < |rows| && rows[i].facebookId.Some? ==> rows[i].facebookId != rows[j].facebookId)
  }

  /** Linking a provider id that no row holds yet, then saving, keeps the columns unique. */
  lemma LinkKeepsColumnsUnique(rows: seq<Account>, i: nat, provider: Provider, providerId: string)
    requires UniqueColumns(rows) && i < |rows|
    requires forall j :: 0 <= j < |rows| ==> ProviderIdOf(rows[j], provider) != Some(providerId)
    ensures UniqueColumns(rows[i := Normalize(Linked(rows[i], provider, providerId))])
  {
    var a := Normalize(Linked(rows[i], provider, providerId));
    SaveApprovalRules(Linked(rows[i], provider, providerId));
    var rows' := rows[i := a];
    forall j, k | 0 <= j < k < |rows'| && rows'[j].googleId.Some?
      ensures rows'[j].googleId != rows'[k].googleId
    {
      if provider == Google && (j == i || k == i) {
        assert ProviderIdOf(rows[if j == i then k else j], provider) != Some(providerId);
      }
    }
    forall j, k | 0 <= j < k < |rows'| && rows'[j].facebookId.Some?
      ensures rows'[j].facebookId != rows'[k].facebookId
    {
      if provider == Facebook && (j == i || k == i) {
        assert ProviderIdOf(rows[if j == i then k else j], provider) != Some(providerId);
      }
    }
  }

  /** Adding a row whose email, username and provider id no row holds keeps the columns
      unique. */
  lemma AppendKeepsColumnsUnique(rows: seq<Account>, a: Account, provider: Provider, providerId: string)
    requires UniqueColumns(rows)
    requires forall j :: 0 <= j < |rows| ==> rows[j].email != a.email && rows[j].username != a.username
    requires forall j :: 0 <= j < |rows| ==> ProviderIdOf(rows[j], provider) != Some(providerId)
    requires provider == Google ==> a.googleId == Some(providerId)
    requires provider != Google ==> a.googleId.None?
    requires provider == Facebook ==> a.facebookId == Some(providerId)
    requires provider != Facebook ==> a.facebookId.None?
    ensures UniqueColumns(rows + [a])
  {
  }

  /** The email branch on one user object: set the provider id, the provider and the
      verified flag, then save. */
  method LinkUser(user: User, provider: Provider, providerId: string)
    modifies user
    ensures user.Snapshot() == Normalize(Linked(old(user.Snapshot()), provider, providerId))
  {
    ghost var before := user.Snapshot();
    if provider == Google {
      user.googleId := Some(providerId);
    } else if provider == Facebook {
      user.facebookId := Some(providerId);
    }
    user.provider := provider;
    user.providerId := Some(providerId);
    user.isVerified := true;
    assert user.Snapshot() == Linked(before, provider, providerId);
    user.Save();
  }

  /** `create_user`'s construction and save of a new user object. */
  method NewUser(a: Account) returns (user: User)
    ensures fresh(user)
    ensures user.Snapshot() == Normalize(a)
  {
    user := new User(a);
    user.Save();
  }

  /** The user table: a list of user objects, with the value of each row kept alongside. */
  class UserStore {
    var users: seq<User>
    ghost var rows: seq<Account>

    /** `rows` holds the current value of each user object; each object is stored once; the
        unique columns are unique. */
    ghost predicate Valid()
      reads this, users
    {
      && |rows| == |users|
      && (forall k :: 0 <= k < |users| ==> users[k].Snapshot() == rows[k])
      && (forall j, k :: 0 <= j < k < |users| ==> users[j] != users[k])
      && UniqueColumns(rows)
    }

    ghost function Usernames(): set<string>
      reads this
    {
      set a | a in rows :: a.username
    }

    constructor ()
      ensures Valid() && users == [] && rows == []
    {
      users := [];
      rows := [];
    }

    /** `get_or_create_user_from_social_data`: reject data without email or provider id;
        return the user already holding the provider id; otherwise link the provider to the
        user with that email; otherwise create a user with a fresh username. The flag says
        whether a user was created; `newId` is the id a created user receives. */
    method GetOrCreateUserFromSocialData(data: SocialData, provider: Provider, newId: string)
      returns (r: Result<(User, bool), string>)
      requires Valid()
      modifies this, users
      ensures Valid()
      ensures !HasIdentity(data) ==>
                r == Err("Email and " + ProviderName(provider) + " ID are required") &&
                users == old(users) && rows == old(rows)
      ensures HasIdentity(data) && old(IndexOfProviderId(users, provider, data.providerId.value)).Some? ==>
                var i := old(IndexOfProviderId(users, provider, data.providerId.value)).value;
                r == Ok((old(users)[i], false)) && users == old(users) && rows == old(rows)
      ensures HasIdentity(data) && old(IndexOfProviderId(users, provider, data.providerId.value)).None? &&
              old(IndexOfEmail(users, data.email.value)).Some? ==>
                var i := old(IndexOfEmail(users, data.email.value)).value;
                r == Ok((old(users)[i], false)) && users == old(users) &&
                rows == old(rows)[i := Normalize(Linked(old(rows)[i], provider, data.providerId.value))]
      ensures HasIdentity(data) && old(IndexOfProviderId(users, provider, data.providerId.value)).None? &&
              old(IndexOfEmail(users, data.email.value)).None? ==>
                var base := CleanBase(data.name, data.email.value);
                && (r.Err? <==> base == [] && [] !in old(Usernames()))
                && (r.Err? ==> r.error == UsernameRequired && users == old(users) && rows == old(rows))
                && (r.Ok? ==>
                      && r.value.1
                      && fresh(r.value.0)
                      && users == old(users) + [r.value.0]
                      && rows == old(rows) + [r.value.0.Snapshot()]
                      && r.value.0.username !in old(Usernames())
                      && (exists k: nat :: r.value.0.username == Candidate(base, k) &&
                                           forall j :: 0 <= j < k ==> Candidate(base, j) in old(Usernames()))
                      && r.value.0.Snapshot() ==
                           NewSocialAccount(newId, r.value.0.username, data.email.value, data, provider, data.providerId.value))
    {
      if !HasIdentity(data) {
        return Err("Email and " + ProviderName(provider) + " ID are required");
      }
      var email := data.email.value;
      var providerId := data.providerId.value;

      var byProvider := IndexOfProviderId(users, provider, providerId);
      if byProvider.Some? {
        return Ok((users[byProvider.value], false));
      }

      var byEmail := IndexOfEmail(users, email);
      if byEmail.Some? {
        var user := users[byEmail.value];
        LinkProvider(byEmail.value, provider, providerId);
        return Ok((user, false));
      }

      var username := PickUsername(data);
      if username == [] {
        return Err(UsernameRequired);
      }
      var user := CreateUser(data, provider, newId, username);
      return Ok((user, true));
    }

    /** `generate_unique_username` on the stored usernames: the first candidate no row
        holds. It is empty exactly when the base is empty and no row has the empty username. */
    method PickUsername(data: SocialData) returns (username: string)
      requires Valid() && HasIdentity(data)
      ensures username !in Usernames()
      ensures exists k: nat :: username == Candidate(CleanBase(data.name, data.email.value), k) &&
                               forall j :: 0 <= j < k ==> Candidate(CleanBase(data.name, data.email.value), j) in Usernames()
      ensures username == [] <==> CleanBase(data.name, data.email.value) == [] && [] !in Usernames()
    {
      var taken := set u | u in users :: u.username;
      forall x | x in taken ensures x in Usernames() {
        var u :| u in users && u.username == x;
        var k :| 0 <= k < |users| && users[k] == u;
        assert rows[k].username == x && rows[k] in rows;
      }
      forall x | x in Usernames() ensures x in taken {
        var a :| a in rows && a.username == x;
        var k :| 0 <= k < |rows| && rows[k] == a;
        assert users[k].Snapshot() == a && users[k] in users;
      }
      username := GenerateUniqueUsername(data.name, data.email.value, taken);
      ghost var base := CleanBase(data.name, data.email.value);
      ghost var k: nat :| username == Candidate(base, k) && forall j :: 0 <= j < k ==> Candidate(base, j) in taken;
      assert k > 0 ==> Candidate(base, 0) in taken;
    }

    /** The last branch: pick a free username, build the new account and insert it. */
    method CreateUser(data: SocialData, provider: Provider, newId: string, username: string) returns (user: User)
      requires Valid() && HasIdentity(data)
      requires IndexOfProviderId(users, provider, data.providerId.value).None?
      requires IndexOfEmail(users, data.email.value).None?
      requires username !in Usernames()
      modifies this
      ensures Valid()
      ensures fresh(user)
      ensures users == old(users) + [user]
      ensures rows == old(rows) + [user.Snapshot()]
      ensures user.Snapshot() ==
                NewSocialAccount(newId, username, data.email.value, data, provider, data.providerId.value)
    {
      var account := FreshAccount(data, provider, newId, username);
      user := NewUser(account);
      Insert(user);
    }

    /** The account a new social user receives: the given free username, the social data,
        and the provider id in its provider's column. No row holds its email, username or
        provider id, so adding it keeps the columns unique. */
    method FreshAccount(data: SocialData, provider: Provider, newId: string, username: string) returns (account: Account)
      requires Valid() && HasIdentity(data)
      requires IndexOfProviderId(users, provider, data.providerId.value).None?
      requires IndexOfEmail(users, data.email.value).None?
      requires username !in Usernames()
      ensures account ==
                NewSocialAccount(newId, username, data.email.value, data, provider, data.providerId.value)
      ensures Normalize(account) == account
      ensures UniqueColumns(rows + [account])
    {
      var email := data.email.value;
      var providerId := data.providerId.value;
      account := NewSocialAccount(newId, username, email, data, provider, providerId);
      forall j | 0 <= j < |rows|
        ensures rows[j].email != account.email && rows[j].username != account.username
        ensures ProviderIdOf(rows[j], provider) != Some(providerId)
      {
        assert users[j].Snapshot() == rows[j];
        assert rows[j] in rows;
      }
      AppendKeepsColumnsUnique(rows, account, provider, providerId);
      NewSocialAccountIsSaved(newId, username, email, data, provider, providerId);
    }

    /** The email branch: set the provider id, the provider and the verified flag on the
        user at index `i`, then save it. */
    method LinkProvider(i: nat, provider: Provider, providerId: string)
      requires Valid() && i < |users|
      requires forall j :: 0 <= j < |rows| ==> ProviderIdOf(rows[j], provider) != Some(providerId)
      modifies users[i], this`rows
      ensures Valid() && users == old(users)
      ensures rows == old(rows)[i := Normalize(Linked(old(rows)[i], provider, providerId))]
    {
      var user := users[i];
      LinkUser(user, provider, providerId);
      LinkKeepsColumnsUnique(rows, i, provider, providerId);
      rows := rows[i := user.Snapshot()];
      forall k | 0 <= k < |users| && k != i
        ensures users[k].Snapshot() == rows[k]
      {
        assert users[k] != user;
      }
    }

    /** `create_user`'s insert of a new, already saved user object. */
    method Insert(user: User)
      requires Valid() && user !in users
      requires UniqueColumns(rows + [user.Snapshot()])
      modifies this
      ensures Valid()
      ensures users == old(users) + [user] && rows == old(rows) + [user.Snapshot()]
    {
      users := users + [user];
      rows := rows + [user.Snapshot()];
    }
  }
}
