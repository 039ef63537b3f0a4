/** The authentication context: the session, the signed-in user's profile, the unread
    counter, and how sign-in, sign-out and profile edits change them. Profile fetches
    are supplied as a function from attempt number to what that attempt returned. */
module UseAuth {
  import opened Wrappers
  import opened Types

  datatype AuthUser = AuthUser(id: string)

  datatype Session = Session(user: Option<AuthUser>)

  datatype AuthState = AuthState(session: Option<Session>, user: Option<User>, unreadMessages: int, isInitializing: bool)

  const MaxAttempts: nat := 3

  /** `!!session?.user` */
  predicate IsAuthenticated(s: AuthState) {
    s.session.Some? && s.session.value.user.Some?
  }

  // ---------------------------------------------------------------------------
  // Loading the profile

  /** The first non-null answer among attempts `from` .. `MaxAttempts - 1`. */
  function FirstProfile(fetch: nat -> Option<User>, from: nat): (r: Option<User>)
    requires from <= MaxAttempts
    ensures r.Some? ==> exists i :: from <= i < MaxAttempts && fetch(i) == r
    ensures r.None? <==> forall i :: from <= i < MaxAttempts ==> fetch(i).None?
    decreases MaxAttempts - from
  {
    if from == MaxAttempts then None
    else if fetch(from).Some? then fetch(from)
    else FirstProfile(fetch, from + 1)
  }

  /** The retry loop of `loadUserProfile`: at most three attempts, stopping at the first one
      that returns a profile. */
  method FetchProfile(fetch: nat -> Option<User>) returns (profile: Option<User>, attempts: nat)
    ensures 1 <= attempts <= MaxAttempts
    ensures profile == fetch(attempts - 1)
    ensures forall i :: 0 <= i < attempts - 1 ==> fetch(i).None?
    ensures profile.None? ==> attempts == MaxAttempts
    ensures profile == FirstProfile(fetch, 0)
  {
    profile := None;
    attempts := 0;
    while attempts < MaxAttempts
      invariant 0 <= attempts <= MaxAttempts
      invariant forall i :: 0 <= i < attempts ==> fetch(i).None?
      invariant profile.None?
      invariant FirstProfile(fetch, 0) == FirstProfile(fetch, attempts)
    {
      profile := fetch(attempts);
      attempts := attempts + 1;
      if profile.Some? {
        return;
      }
    }
  }

  /** The outcome of `loadUserProfile`: the profile and its unread count, or no user and 0. */
  function ApplyProfile(s: AuthState, profile: Option<User>): (r: AuthState)
    ensures profile.Some? ==> r.user == profile && r.unreadMessages == profile.value.unreadMessages
    ensures profile.None? ==> r.user.None? && r.unreadMessages == 0
    ensures r.session == s.session && r.isInitializing == s.isInitializing
  {
    match profile
    case Some(u) => s.(user := Some(u), unreadMessages := u.unreadMessages)
    case None => s.(user := None, unreadMessages := 0)
  }

  /** Without a signed-in user the unread counter is 0. */
  predicate NoUserNoUnread(s: AuthState) {
    s.user.None? ==> s.unreadMessages == 0
  }

  /** `loadUserProfile` as a whole. */
  method LoadUserProfile(s: AuthState, fetch: nat -> Option<User>) returns (r: AuthState)
    ensures r == ApplyProfile(s, FirstProfile(fetch, 0))
    ensures NoUserNoUnread(r)
  {
    var profile, attempts := FetchProfile(fetch);
    r := ApplyProfile(s, profile);
  }

  // ---------------------------------------------------------------------------
  // Auth events

  /** `onAuthStateChange`: the session is stored; with a session user the profile is loaded,
      otherwise the user is cleared and the counter reset. */
  method OnAuthChange(s: AuthState, session: Option<Session>, fetch: nat -> Option<User>) returns (r: AuthState)
    ensures r.session == session && r.isInitializing == s.isInitializing
    ensures IsAuthenticated(r) <==> session.Some? && session.value.user.Some?
    ensures !IsAuthenticated(r) ==> r.user.None? && r.unreadMessages == 0
    ensures IsAuthenticated(r) ==> r == ApplyProfile(s.(session := session), FirstProfile(fetch, 0))
    ensures NoUserNoUnread(r)
  {
    var t := s.(session := session);
    if session.Some? && session.value.user.Some? {
      r := LoadUserProfile(t, fetch);
    } else {
      r := t.(user := None, unreadMessages := 0);
    }
  }

  /** The initial session check: `isInitializing` is raised, the session is stored, the
      profile is loaded when there is a session user, and `isInitializing` ends false. */
  method Initialize(s: AuthState, session: Option<Session>, fetch: nat -> Option<User>) returns (r: AuthState)
    ensures !r.isInitializing
    ensures r.session == session
    ensures IsAuthenticated(r) ==> r.user == FirstProfile(fetch, 0)
    ensures IsAuthenticated(r) ==>
      r == ApplyProfile(s.(session := session), FirstProfile(fetch, 0)).(isInitializing := false)
    ensures !IsAuthenticated(r) ==> r.user == s.user && r.unreadMessages == s.unreadMessages
    ensures NoUserNoUnread(s) ==> NoUserNoUnread(r)
    ensures IsAuthenticated(r) <==> session.Some? && session.value.user.Some?
  {
    r := s.(isInitializing := true, session := session);
    if session.Some? && session.value.user.Some? {
      r := LoadUserProfile(r, fetch);
    }
    r := r.(isInitializing := false);
  }

  // ---------------------------------------------------------------------------
  // Partial updates

  /** `Partial<User>`: a present field overrides, an absent one keeps the current value. */
  datatype UserPatch = UserPatch(
    id: Option<string>, name: Option<string>, email: Option<string>, avatarUrl: Option<string>,
    tagline: Option<string>, roles: Option<seq<Role>>, points: Option<int>, usdBalance: Option<int>,
    rating: Option<int>, skills: Option<seq<string>>, isIdVerified: Option<bool>,
    isLinkedInVerified: Option<bool>, isPremium: Option<bool>, workHistory: Option<seq<JobInfo>>,
    bio: Option<string>, unreadMessages: Option<int>)

  /** The fields of `User`, so that "every field" can be quantified over. */
  datatype Field =
    | IdField | NameField | EmailField | AvatarUrlField | TaglineField | RolesField | PointsField
    | UsdBalanceField | RatingField | SkillsField | IsIdVerifiedField | IsLinkedInVerifiedField
    | IsPremiumField | WorkHistoryField | BioField | UnreadMessagesField

  datatype FieldValue =
    | Str(s: string) | Number(n: int) | Flag(b: bool) | Roles(roles: seq<Role>)
    | Strings(items: seq<string>) | Works(jobs: seq<JobInfo>)

  /** The value of field `f` of `u`. */
  function Get(u: User, f: Field): FieldValue {
    match f
    case IdField => Str(u.id)
    case NameField => Str(u.name)
    case EmailField => Str(u.email)
    case AvatarUrlField => Str(u.avatarUrl)
    case TaglineField => Str(u.tagline)
    case RolesField => Roles(u.roles)
    case PointsField => Number(u.points)
    case UsdBalanceField => Number(u.usdBalance)
    case RatingField => Number(u.rating)
    case SkillsField => Strings(u.skills)
    case IsIdVerifiedField => Flag(u.isIdVerified)
    case IsLinkedInVerifiedField => Flag(u.isLinkedInVerified)
    case IsPremiumField => Flag(u.isPremium)
    case WorkHistoryField => Works(u.workHistory)
    case BioField => Str(u.bio)
    case UnreadMessagesField => Number(u.unreadMessages)
  }

  function Wrap<T>(o: Option<T>, wrap: T -> FieldValue): Option<FieldValue> {
    if o.Some? then Some(wrap(o.value)) else None
  }

  /** The value the patch supplies for field `f`, if any. */
  function Supplied(p: UserPatch, f: Field): Option<FieldValue> {
    match f
    case IdField => Wrap(p.id, (x: string) => Str(x))
    case NameField => Wrap(p.name, (x: string) => Str(x))
    case EmailField => Wrap(p.email, (x: string) => Str(x))
    case AvatarUrlField => Wrap(p.avatarUrl, (x: string) => Str(x))
    case TaglineField => Wrap(p.tagline, (x: string) => Str(x))
    case RolesField => Wrap(p.roles, (x: seq<Role>) => Roles(x))
    case PointsField => Wrap(p.points, (x: int) => Number(x))
    case UsdBalanceField => Wrap(p.usdBalance, (x: int) => Number(x))
    case RatingField => Wrap(p.rating, (x: int) => Number(x))
    case SkillsField => Wrap(p.skills, (x: seq<string>) => Strings(x))
    case IsIdVerifiedField => Wrap(p.isIdVerified, (x: bool) => Flag(x))
    case IsLinkedInVerifiedField => Wrap(p.isLinkedInVerified, (x: bool) => Flag(x))
    case IsPremiumField => Wrap(p.isPremium, (x: bool) => Flag(x))
    case WorkHistoryField => Wrap(p.workHistory, (x: seq<JobInfo>) => Works(x))
    case BioField => Wrap(p.bio, (x: string) => Str(x))
    case UnreadMessagesField => Wrap(p.unreadMessages, (x: int) => Number(x))
  }

  /** `{ ...prev, ...updatedData }` */
  function Merge(u: User, p: UserPatch): (r: User)
    ensures forall f :: Get(r, f) == if Supplied(p, f).Some? then Supplied(p, f).value else Get(u, f)
  {
    User(p.id.GetOr(u.id), p.name.GetOr(u.name), p.email.GetOr(u.email), p.avatarUrl.GetOr(u.avatarUrl),
         p.tagline.GetOr(u.tagline), p.roles.GetOr(u.roles), p.points.GetOr(u.points),
         p.usdBalance.GetOr(u.usdBalance), p.rating.GetOr(u.rating), p.skills.GetOr(u.skills),
         p.isIdVerified.GetOr(u.isIdVerified), p.isLinkedInVerified.GetOr(u.isLinkedInVerified),
         p.isPremium.GetOr(u.isPremium), p.workHistory.GetOr(u.workHistory), p.bio.GetOr(u.bio),
         p.unreadMessages.GetOr(u.unreadMessages))
  }

  /** Two users with the same value in every field are the same user. */
  lemma FieldsDetermineUser(a: User, b: User)
    requires forall f :: Get(a, f) == Get(b, f)
    ensures a == b
  {
    assert a.id == b.id by { assert Get(a, IdField) == Get(b, IdField); }
    assert a.name == b.name by { assert Get(a, NameField) == Get(b, NameField); }
    assert a.email == b.email by { assert Get(a, EmailField) == Get(b, EmailField); }
    assert a.avatarUrl == b.avatarUrl by { assert Get(a, AvatarUrlField) == Get(b, AvatarUrlField); }
    assert a.tagline == b.tagline by { assert Get(a, TaglineField) == Get(b, TaglineField); }
    assert a.roles == b.roles by { assert Get(a, RolesField) == Get(b, RolesField); }
    assert a.points == b.points by { assert Get(a, PointsField) == Get(b, PointsField); }
    assert a.usdBalance == b.usdBalance by { assert Get(a, UsdBalanceField) == Get(b, UsdBalanceField); }
    assert a.rating == b.rating by { assert Get(a, RatingField) == Get(b, RatingField); }
    assert a.skills == b.skills by { assert Get(a, SkillsField) == Get(b, SkillsField); }
    assert a.isIdVerified == b.isIdVerified by { assert Get(a, IsIdVerifiedField) == Get(b, IsIdVerifiedField); }
    assert a.isLinkedInVerified == b.isLinkedInVerified by { assert Get(a, IsLinkedInVerifiedField) == Get(b, IsLinkedInVerifiedField); }
    assert a.isPremium == b.isPremium by { assert Get(a, IsPremiumField) == Get(b, IsPremiumField); }
    assert a.workHistory == b.workHistory by { assert Get(a, WorkHistoryField) == Get(b, WorkHistoryField); }
    assert a.bio == b.bio by { assert Get(a, BioField) == Get(b, BioField); }
    assert a.unreadMessages == b.unreadMessages by { assert Get(a, UnreadMessagesField) == Get(b, UnreadMessagesField); }
  }

  /** `updateUser`: the supplied fields are overwritten and every other field kept; with no
      user nothing happens. */
  function UpdateUser(user: Option<User>, p: UserPatch): (r: Option<User>)
    ensures user.None? <==> r.None?
    ensures user.Some? ==> forall f :: Get(r.value, f) == if Supplied(p, f).Some? then Supplied(p, f).value else Get(user.value, f)
  {
    if user.Some? then Some(Merge(user.value, p)) else None
  }

  /** Applying the same patch twice is applying it once. */
  lemma UpdateUserIdempotent(user: Option<User>, p: UserPatch)
    ensures UpdateUser(UpdateUser(user, p), p) == UpdateUser(user, p)
  {
    if user.Some? {
      var once := Merge(user.value, p);
      FieldsDetermineUser(Merge(once, p), once);
    }
  }

  /** A patch that supplies nothing leaves the user as it was. */
  lemma EmptyPatchKeepsUser(user: Option<User>)
    ensures UpdateUser(user, UserPatch(None, None, None, None, None, None, None, None, None, None, None, None, None, None, None, None)) == user
  {
    if user.Some? {
      var p := UserPatch(None, None, None, None, None, None, None, None, None, None, None, None, None, None, None, None);
      FieldsDetermineUser(Merge(user.value, p), user.value);
    }
  }
}
