/**
 * The user profile: the fully populated `AppUser` the client works with, the
 * partial record (`Partial<AppUser>`, and equally the raw profile document
 * whose properties may be missing), the projection of a document snapshot
 * onto an `AppUser` (App.tsx, lines 399-439) and the `{...user, ...partial}`
 * merge used by optimistic updates (App.tsx, line 344).
 */
module Profile {
  import opened Wrappers
  import Text

  /** Milliseconds since the epoch; stands for the source's Date and document timestamps. */
  datatype Timestamp = Timestamp(millis: int)

  /** The home-screen layout descriptor; its content is opaque to this model. */
  type HomeLayout = seq<string>

  datatype AppUser = AppUser(
    uid: string,
    email: string,
    userName: string,
    profilePictureUrl: string,
    createdAt: Timestamp,
    selectedSubjects: seq<string>,
    customSubjects: seq<string>,
    schoolName: string,
    className: string,
    educationLevel: string,
    languagePreference: string,
    themePreference: string,
    homeLayout: HomeLayout,
    hasCompletedTutorial: bool)

  /**
   * Some properties of an `AppUser`: a missing property is `None`. Where
   * the projection reads a property through `||`, a null one is `None` too.
   */
  datatype UserFields = UserFields(
    uid: Option<string>,
    email: Option<string>,
    userName: Option<string>,
    profilePictureUrl: Option<string>,
    createdAt: Option<Timestamp>,
    selectedSubjects: Option<seq<string>>,
    customSubjects: Option<seq<string>>,
    schoolName: Option<string>,
    className: Option<string>,
    educationLevel: Option<string>,
    languagePreference: Option<string>,
    themePreference: Option<string>,
    homeLayout: Option<HomeLayout>,
    hasCompletedTutorial: Option<bool>)

  /** The claims the identity provider gives about a signed-in user. */
  datatype Identity = Identity(uid: string, email: Option<string>, displayName: Option<string>, photoUrl: Option<string>)

  const NoFields := UserFields(None, None, None, None, None, None, None, None, None, None, None, None, None, None)

  /** The partial update issued when the tutorial is finished (App.tsx, line 382). */
  const TutorialCompleted := NoFields.(hasCompletedTutorial := Some(true))

  /** The partial update issued after an avatar upload (App.tsx, line 372). */
  function AvatarChanged(url: string): (p: UserFields)
    ensures p.profilePictureUrl == Some(url)
    ensures p.(profilePictureUrl := None) == NoFields
  {
    NoFields.(profilePictureUrl := Some(url))
  }

  const DefaultUserName := "Gebruiker"
  const DefaultLanguage := "nl"
  const DefaultTheme := "emerald"

  /** `v || d` for a string property: a missing or empty string falls back to `d`. */
  function OrText(v: Option<string>, d: string): string {
    if v.Some? && v.value != "" then v.value else d
  }

  /** `localStorage.getItem(key) || d`. */
  function StoredOr(storage: map<string, string>, key: string, d: string): string {
    if key in storage && storage[key] != "" then storage[key] else d
  }

  const AvatarPrefix := "https://ui-avatars.com/api/?name="
  const AvatarSuffix := "&background=random&color=fff"

  /**
   * The generated avatar address for a display name (App.tsx, lines 410 and
   * 427): the encoded name as the `name` query parameter, which the
   * encoding keeps from ending early.
   */
  function AvatarUrl(name: string): (url: string)
    ensures |url| > |name|
    ensures |url| >= |AvatarPrefix| + |AvatarSuffix|
    ensures url[..|AvatarPrefix|] == AvatarPrefix && url[|url| - |AvatarSuffix|..] == AvatarSuffix
    ensures url[|AvatarPrefix|..|url| - |AvatarSuffix|] == Text.EncodeUriComponent(name)
    ensures forall i :: |AvatarPrefix| <= i < |url| - |AvatarSuffix| ==> Text.UriSafe(url[i])
  {
    AvatarPrefix + Text.EncodeUriComponent(name) + AvatarSuffix
  }

  /**
   * A projected profile is normal for an identity when it belongs to it and
   * every property whose fallback is non-empty holds a non-empty value.
   */
  predicate Normal(u: AppUser, who: Identity) {
    && u.uid == who.uid
    && (u.email != "" || OrText(who.email, "") == "")
    && u.userName != ""
    && u.profilePictureUrl != ""
    && u.languagePreference != ""
    && u.themePreference != ""
  }

  /**
   * Projection of an existing profile document (App.tsx, lines 403-421):
   * every property takes the stored value when it is truthy and its fixed
   * default otherwise; the uid is always the signed-in identity's.
   */
  function ProjectExisting(who: Identity, doc: UserFields, now: Timestamp, layout: HomeLayout): (u: AppUser)
    ensures Normal(u, who)
    ensures u.email == OrText(doc.email, OrText(who.email, ""))
    ensures (doc.userName.Some? && doc.userName.value != "") ==> u.userName == doc.userName.value
    ensures (doc.userName.None? || doc.userName.value == "") ==> u.userName == DefaultUserName
    ensures (doc.profilePictureUrl.Some? && doc.profilePictureUrl.value != "") ==>
              u.profilePictureUrl == doc.profilePictureUrl.value
    ensures (doc.profilePictureUrl.None? || doc.profilePictureUrl.value == "") ==>
              u.profilePictureUrl == AvatarUrl(OrText(doc.userName, "S"))
    ensures u.createdAt == doc.createdAt.GetOr(now)
    ensures u.selectedSubjects == doc.selectedSubjects.GetOr([])
    ensures u.customSubjects == doc.customSubjects.GetOr([])
    ensures u.schoolName == OrText(doc.schoolName, "")
    ensures u.className == OrText(doc.className, "")
    ensures u.educationLevel == OrText(doc.educationLevel, "")
    ensures (doc.languagePreference.Some? && doc.languagePreference.value != "") ==>
              u.languagePreference == doc.languagePreference.value
    ensures (doc.languagePreference.None? || doc.languagePreference.value == "") ==>
              u.languagePreference == DefaultLanguage
    ensures u.themePreference == OrText(doc.themePreference, DefaultTheme)
    ensures u.homeLayout == doc.homeLayout.GetOr(layout)
    ensures u.hasCompletedTutorial <==> doc.hasCompletedTutorial == Some(true)
  {
    AppUser(
      who.uid,
      OrText(doc.email, OrText(who.email, "")),
      OrText(doc.userName, DefaultUserName),
      OrText(doc.profilePictureUrl, AvatarUrl(OrText(doc.userName, "S"))),
      doc.createdAt.GetOr(now),
      doc.selectedSubjects.GetOr([]),
      doc.customSubjects.GetOr([]),
      OrText(doc.schoolName, ""),
      OrText(doc.className, ""),
      OrText(doc.educationLevel, ""),
      OrText(doc.languagePreference, DefaultLanguage),
      OrText(doc.themePreference, DefaultTheme),
      doc.homeLayout.GetOr(layout),
      doc.hasCompletedTutorial == Some(true))
  }

  /**
   * The profile synthesized when no document exists yet (App.tsx, lines
   * 422-438): identity claims for email, name and photo, empty enrolment,
   * tutorial not completed, and the locally cached language and theme.
   */
  function ProjectMissing(who: Identity, guestName: string, storage: map<string, string>,
                          now: Timestamp, layout: HomeLayout): (u: AppUser)
    ensures u.uid == who.uid
    ensures u.email == OrText(who.email, "")
    ensures u.userName == OrText(who.displayName, guestName)
    ensures u.profilePictureUrl != ""
    ensures u.profilePictureUrl == OrText(who.photoUrl, AvatarUrl(OrText(who.displayName, "S")))
    ensures u.selectedSubjects == [] && u.customSubjects == []
    ensures u.schoolName == "" && u.className == "" && u.educationLevel == ""
    ensures u.languagePreference == StoredOr(storage, "appLanguage", DefaultLanguage) != ""
    ensures u.themePreference == StoredOr(storage, "themeColor", DefaultTheme) != ""
    ensures u.createdAt == now && u.homeLayout == layout
    ensures !u.hasCompletedTutorial
  {
    AppUser(
      who.uid,
      OrText(who.email, ""),
      OrText(who.displayName, guestName),
      OrText(who.photoUrl, AvatarUrl(OrText(who.displayName, "S"))),
      now,
      [], [], "", "", "",
      StoredOr(storage, "appLanguage", DefaultLanguage),
      StoredOr(storage, "themeColor", DefaultTheme),
      layout,
      false)
  }

  /** One profile snapshot: `None` when the document does not exist. */
  function Project(who: Identity, doc: Option<UserFields>, guestName: string, storage: map<string, string>,
                   now: Timestamp, layout: HomeLayout): (u: AppUser)
    ensures u.uid == who.uid
    ensures doc.Some? ==> Normal(u, who)
    ensures doc.None? ==> !u.hasCompletedTutorial && u.selectedSubjects == [] && u.customSubjects == []
  {
    match doc
    case Some(d) => ProjectExisting(who, d, now, layout)
    case None => ProjectMissing(who, guestName, storage, now, layout)
  }

  /** The document that stores every property of `u`. */
  function Stored(u: AppUser): (p: UserFields)
    ensures p.uid.Some? && p.hasCompletedTutorial.Some? && p.homeLayout.Some?
  {
    UserFields(Some(u.uid), Some(u.email), Some(u.userName), Some(u.profilePictureUrl), Some(u.createdAt),
               Some(u.selectedSubjects), Some(u.customSubjects), Some(u.schoolName), Some(u.className),
               Some(u.educationLevel), Some(u.languagePreference), Some(u.themePreference),
               Some(u.homeLayout), Some(u.hasCompletedTutorial))
  }

  /** A normal profile, stored and read back, projects to itself. */
  lemma ProjectStored(u: AppUser, who: Identity, now: Timestamp, layout: HomeLayout)
    requires Normal(u, who)
    ensures ProjectExisting(who, Stored(u), now, layout) == u
  {
  }

  /** Projection is a normal form: projecting a projected profile again changes nothing. */
  lemma ProjectionIdempotent(who: Identity, doc: UserFields, now: Timestamp, later: Timestamp, layout: HomeLayout)
    ensures var u := ProjectExisting(who, doc, now, layout);
            ProjectExisting(who, Stored(u), later, layout) == u
  {
    ProjectStored(ProjectExisting(who, doc, now, layout), who, later, layout);
  }

  /**
   * `{...u, ...p}`: every property `p` carries replaces the one in `u`, every
   * other property of `u` is kept; stored, the result is the stored form of
   * `u` overridden by `p`.
   */
  function Merge(u: AppUser, p: UserFields): (r: AppUser)
    ensures p == NoFields ==> r == u
    ensures p.hasCompletedTutorial.Some? ==> r.hasCompletedTutorial == p.hasCompletedTutorial.value
    ensures p.themePreference.Some? ==> r.themePreference == p.themePreference.value
    ensures p.languagePreference.Some? ==> r.languagePreference == p.languagePreference.value
    ensures p.uid.None? ==> r.uid == u.uid
    ensures Stored(r) == Override(Stored(u), p)
  {
    AppUser(
      p.uid.GetOr(u.uid),
      p.email.GetOr(u.email),
      p.userName.GetOr(u.userName),
      p.profilePictureUrl.GetOr(u.profilePictureUrl),
      p.createdAt.GetOr(u.createdAt),
      p.selectedSubjects.GetOr(u.selectedSubjects),
      p.customSubjects.GetOr(u.customSubjects),
      p.schoolName.GetOr(u.schoolName),
      p.className.GetOr(u.className),
      p.educationLevel.GetOr(u.educationLevel),
      p.languagePreference.GetOr(u.languagePreference),
      p.themePreference.GetOr(u.themePreference),
      p.homeLayout.GetOr(u.homeLayout),
      p.hasCompletedTutorial.GetOr(u.hasCompletedTutorial))
  }

  /** Applying the same partial update twice equals applying it once. */
  lemma MergeIdempotent(u: AppUser, p: UserFields)
    ensures Merge(Merge(u, p), p) == Merge(u, p)
  {
  }

  /** Merging the whole stored form of a profile replaces the profile by it. */
  lemma MergeStored(u: AppUser, v: AppUser)
    ensures Merge(u, Stored(v)) == v
  {
  }

  /** The later of two updates wins on the properties it carries. */
  function Override(p: UserFields, q: UserFields): UserFields {
    UserFields(
      if q.uid.Some? then q.uid else p.uid,
      if q.email.Some? then q.email else p.email,
      if q.userName.Some? then q.userName else p.userName,
      if q.profilePictureUrl.Some? then q.profilePictureUrl else p.profilePictureUrl,
      if q.createdAt.Some? then q.createdAt else p.createdAt,
      if q.selectedSubjects.Some? then q.selectedSubjects else p.selectedSubjects,
      if q.customSubjects.Some? then q.customSubjects else p.customSubjects,
      if q.schoolName.Some? then q.schoolName else p.schoolName,
      if q.className.Some? then q.className else p.className,
      if q.educationLevel.Some? then q.educationLevel else p.educationLevel,
      if q.languagePreference.Some? then q.languagePreference else p.languagePreference,
      if q.themePreference.Some? then q.themePreference else p.themePreference,
      if q.homeLayout.Some? then q.homeLayout else p.homeLayout,
      if q.hasCompletedTutorial.Some? then q.hasCompletedTutorial else p.hasCompletedTutorial)
  }

  /** Two successive updates equal one update with the later winning. */
  lemma MergeCompose(u: AppUser, p: UserFields, q: UserFields)
    ensures Merge(Merge(u, p), q) == Merge(u, Override(p, q))
  {
  }
}
