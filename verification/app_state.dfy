/**
 * The values behind the `App` component of App.tsx (lines 191-527): its
 * statuses and modal content, the listeners it keeps on the identity
 * provider and the document store, how its effects key and replace them,
 * and the predicates that make up the component's invariant.
 */
module AppState {
  import opened Wrappers
  import opened Profile
  import opened Feeds
  import Lookup
  import Text

  datatype AppStatus = Initializing | Unauthenticated | Authenticated

  /** What the modal's confirm button does: nothing beyond closing, or sign out. */
  datatype ModalAction = Acknowledge | ConfirmLogout

  datatype Modal = Modal(text: string, action: ModalAction)

  datatype FeedRole = EventsFeed | RecentFeed | SubjectFeed

  /** What a listener listens to. */
  datatype Target =
    | AuthState
    | ProfileDoc(who: Identity)
    | Resync(uid: string)
    | Feed(role: FeedRole, query: Query)

  /** An open subscription; `id` tells apart two subscriptions to the same target. */
  datatype Listener = Listener(id: nat, target: Target)

  /** A merge write of `fields` into the profile document of `uid`. */
  datatype ProfileWrite = ProfileWrite(uid: string, fields: UserFields)

  /** How the three awaited steps of an avatar upload end (App.tsx, lines 370-372). */
  datatype UploadOutcome = UploadFailed | UrlFailed | Uploaded(url: string, written: bool)

  const GuestUid := "guest-user"

  /** `user?.uid`. */
  function UidOf(user: Option<AppUser>): (uid: Option<string>)
    ensures uid.Some? <==> user.Some?
    ensures user.Some? ==> uid.value == user.value.uid
  {
    if user.Some? then Some(user.value.uid) else None
  }

  /**
   * The uid the data effects key their listeners on: present, non-empty and
   * not the guest's (App.tsx, lines 278 and 308).
   */
  function KeyOf(uid: Option<string>): (key: Option<string>)
    ensures key.Some? <==> uid.Some? && uid.value != "" && uid.value != GuestUid
    ensures key.Some? ==> key == uid
  {
    if uid.Some? && uid.value != "" && uid.value != GuestUid then uid else None
  }

  /** The (uid, subject) key of the subject-file listener; no subject, or the empty one, means none. */
  function SubjectKeyOf(uid: Option<string>, subject: Option<string>): (key: Option<(string, string)>)
    ensures key.Some? <==> KeyOf(uid).Some? && subject.Some? && subject.value != ""
    ensures key.Some? ==> key.value == (uid.value, subject.value)
  {
    if KeyOf(uid).Some? && subject.Some? && subject.value != "" then Some((uid.value, subject.value)) else None
  }

  /** `sessionStorage.getItem(key) === 'true'`. */
  predicate Marked(session: map<string, string>, key: string) {
    key in session && session[key] == "true"
  }

  /** The theme after preference reconciliation: the user's non-empty preference wins. */
  function ThemeAfter(user: Option<AppUser>, theme: string): string {
    if user.Some? && user.value.themePreference != "" then user.value.themePreference else theme
  }

  function LanguageAfter(user: Option<AppUser>, language: string): string {
    if user.Some? && user.value.languagePreference != "" then user.value.languagePreference else language
  }

  /** The tutorial must open: a user who has not completed it, just registered. */
  predicate TutorialDue(user: Option<AppUser>, session: map<string, string>) {
    user.Some? && !user.value.hasCompletedTutorial && Marked(session, "justRegistered")
  }

  /** The handle as a set: empty when there is none. */
  function Opt(sub: Option<Listener>): set<Listener> {
    if sub.Some? then {sub.value} else {}
  }

  /** The handle, if any, was issued before `n`. */
  predicate Below(sub: Option<Listener>, n: nat) {
    sub.Some? ==> sub.value.id < n
  }

  /** `sub` is a handle on `target`, or both are absent. */
  predicate Holds(sub: Option<Listener>, target: Option<Target>) {
    (sub.Some? <==> target.Some?) && (sub.Some? ==> sub.value.target == target.value)
  }

  predicate IsEventsFeed(t: Target) { t.Feed? && t.role == EventsFeed }
  predicate IsRecentFeed(t: Target) { t.Feed? && t.role == RecentFeed }
  predicate IsSubjectFeed(t: Target) { t.Feed? && t.role == SubjectFeed }

  /**
   * The handles the component's effects keep to close their listeners
   * (`authSubscriber`, `profileUnsubscribe`, `unsubscribeEvents`,
   * `unsubscribeFiles`, `unsubscribe`), and the listeners of failed-save
   * resyncs, for which nobody keeps a handle. `profileUnsubscribe` is kept
   * after its listener has closed on an error, hence `profileOpen`.
   */
  datatype Handles = Handles(
    nextId: nat,
    auth: Option<Listener>,
    profile: Option<Listener>,
    profileOpen: bool,
    events: Option<Listener>,
    recent: Option<Listener>,
    subject: Option<Listener>,
    resyncs: set<Listener>)
  {
    /** The open listeners. */
    function Live(): set<Listener> {
      Opt(auth) + OpenProfile() + Feeds() + resyncs
    }

    /** The profile listener, while it is open. */
    function OpenProfile(): set<Listener> {
      if profileOpen then Opt(profile) else {}
    }

    /** The listeners of the three data effects. */
    function Feeds(): set<Listener> {
      Opt(events) + Opt(recent) + Opt(subject)
    }

    /**
     * Every listener was issued before `nextId`, so a new one differs from
     * all of them, and each handle listens to what its effect opens.
     */
    predicate Valid() {
      && Below(auth, nextId) && Below(profile, nextId)
      && Below(events, nextId) && Below(recent, nextId) && Below(subject, nextId)
      && (auth.Some? ==> auth.value.target.AuthState?)
      && (profile.Some? ==> profile.value.target.ProfileDoc?)
      && (events.Some? ==> IsEventsFeed(events.value.target))
      && (recent.Some? ==> IsRecentFeed(recent.value.target))
      && (subject.Some? ==> IsSubjectFeed(subject.value.target))
      && forall r :: r in resyncs ==> r.id < nextId && r.target.Resync?
    }
  }

  const NoHandles := Handles(0, None, None, false, None, None, None, {})

  /**
   * An open listener is told apart by what it listens to: it is the handle
   * of the effect that opens listeners of its kind, or a resync listener.
   */
  lemma LiveByKind(h: Handles, l: Listener)
    requires h.Valid() && l in h.Live()
    ensures l.target.AuthState? <==> h.auth == Some(l)
    ensures l.target.ProfileDoc? <==> h.profileOpen && h.profile == Some(l)
    ensures IsEventsFeed(l.target) <==> h.events == Some(l)
    ensures IsRecentFeed(l.target) <==> h.recent == Some(l)
    ensures IsSubjectFeed(l.target) <==> h.subject == Some(l)
    ensures l.target.Resync? <==> l in h.resyncs
  {
  }

  /** A listener issued now was not open before. */
  lemma IssuedIsNew(h: Handles, l: Listener)
    requires h.Valid() && l.id >= h.nextId
    ensures l !in h.Live()
  {
  }

  /** Opening a profile listener closes the previous one, if it was still open. */
  lemma ProfileReplaced(h: Handles, who: Identity)
    requires h.Valid()
    ensures var p := Listener(h.nextId, ProfileDoc(who));
            var g := h.(nextId := h.nextId + 1, profile := Some(p), profileOpen := true);
            && g.Valid() && g.Live() == h.Live() - Opt(h.profile) + {p}
  {
    var p := Listener(h.nextId, ProfileDoc(who));
    var g := h.(nextId := h.nextId + 1, profile := Some(p), profileOpen := true);
    assert Opt(h.profile) !! Opt(h.auth) + h.Feeds() + h.resyncs;
  }

  /** A profile listener that ends in an error is closed, and only it. */
  lemma ProfileClosed(h: Handles)
    requires h.Valid()
    ensures h.(profileOpen := false).Valid()
    ensures h.(profileOpen := false).Live() == h.Live() - Opt(h.profile)
  {
  }

  /** Signing out closes the profile listener and the three data listeners and nothing else. */
  lemma SignedOut(h: Handles)
    requires h.Valid()
    ensures h.(profileOpen := false, events := None, recent := None, subject := None).Valid()
    ensures h.(profileOpen := false, events := None, recent := None, subject := None).Live()
            == h.Live() - (h.OpenProfile() + h.Feeds())
    ensures h.(profileOpen := false, events := None, recent := None, subject := None).Live()
            == Opt(h.auth) + h.resyncs
  {
  }

  /**
   * A new run of the authentication effect closes the identity listener
   * and the profile listener of the previous run and opens one new
   * identity listener.
   */
  lemma AuthRestarted(h: Handles)
    requires h.Valid()
    ensures var a := Listener(h.nextId, AuthState);
            var g := h.(nextId := h.nextId + 1, auth := Some(a), profile := None, profileOpen := false);
            && g.Valid() && g.Live() == h.Live() - Opt(h.auth) - Opt(h.profile) + {a}
  {
    var a := Listener(h.nextId, AuthState);
    var g := h.(nextId := h.nextId + 1, auth := Some(a), profile := None, profileOpen := false);
    assert g.Feeds() == h.Feeds() && g.OpenProfile() == {};
    assert Opt(h.auth) + h.OpenProfile() !! h.Feeds() + h.resyncs;
  }

  /** A resync listener is new and adds itself to the open listeners. */
  lemma ResyncOpened(h: Handles, uid: string)
    requires h.Valid()
    ensures var l := Listener(h.nextId, Resync(uid));
            var g := h.(nextId := h.nextId + 1, resyncs := h.resyncs + {l});
            && g.Valid() && l !in h.Live() && g.Live() == h.Live() + {l}
  {
    IssuedIsNew(h, Listener(h.nextId, Resync(uid)));
  }

  /** The cleanups of unmounting leave only the resync listeners open. */
  lemma UnmountLeavesResyncs(h: Handles)
    requires h.Valid()
    ensures var g := h.(auth := None, profileOpen := false, events := None, recent := None, subject := None);
            g.Valid() && g.Live() == h.resyncs
  {
  }

  /** Exactly while mounted the authentication effect keeps one identity listener. */
  predicate AuthOk(h: Handles, mounted: bool) {
    mounted <==> h.auth.Some?
  }

  /** The profile listener, while open, belongs to the current identity. */
  predicate ProfileOk(h: Handles, mounted: bool, currentUser: Option<Identity>) {
    h.profileOpen ==> mounted && h.profile.Some? && h.profile.value.target.ProfileDoc? &&
                      currentUser == Some(h.profile.value.target.who)
  }

  /** What the calendar listener of a mounted component with this uid listens to, if anything. */
  function EventsTarget(appId: string, mounted: bool, uid: Option<string>): Option<Target> {
    if mounted && KeyOf(uid).Some? then Some(Feed(EventsFeed, EventsQuery(appId, KeyOf(uid).value))) else None
  }

  function RecentTarget(appId: string, mounted: bool, uid: Option<string>): Option<Target> {
    if mounted && KeyOf(uid).Some? then Some(Feed(RecentFeed, RecentFilesQuery(appId, KeyOf(uid).value))) else None
  }

  function SubjectTarget(appId: string, mounted: bool, uid: Option<string>, subject: Option<string>): Option<Target> {
    var key := SubjectKeyOf(uid, subject);
    if mounted && key.Some? then Some(Feed(SubjectFeed, SubjectFilesQuery(appId, key.value.0, key.value.1))) else None
  }

  /** The calendar and recent-file listeners are keyed by `uid`; without a valid key both lists are empty. */
  predicate EventsKeyed(h: Handles, appId: string, mounted: bool, uid: Option<string>,
                        events: seq<CalendarEvent>, recent: seq<FileData>) {
    && Holds(h.events, EventsTarget(appId, mounted, uid))
    && Holds(h.recent, RecentTarget(appId, mounted, uid))
    && (KeyOf(uid).None? ==> events == [] && recent == [])
  }

  /** The subject-file listener is keyed by (uid, subject); without a key the list is empty. */
  predicate SubjectKeyed(h: Handles, appId: string, mounted: bool, uid: Option<string>, subject: Option<string>,
                         files: seq<FileData>) {
    && Holds(h.subject, SubjectTarget(appId, mounted, uid, subject))
    && (SubjectKeyOf(uid, subject).None? ==> files == [])
  }

  /** What the store's query guarantees leave in the lists. */
  predicate Bounded(events: seq<CalendarEvent>, recent: seq<FileData>, subjectFiles: seq<FileData>) {
    |recent| <= 5 && NewestFirst(recent) && NewestFirst(subjectFiles) && EarliestFirst(events)
  }

  /** The user's non-empty preferences are the theme and language in use. */
  predicate PreferencesHeld(user: Option<AppUser>, theme: string, language: string) {
    theme == ThemeAfter(user, theme) && language == LanguageAfter(user, language)
  }

  /**
   * The handles after the calendar and recent-files effect runs for `uid`
   * in a mounted component: both previous listeners are closed and, for a
   * valid key, two new ones listen to the user's calendar and newest files.
   */
  function DataRun(h: Handles, appId: string, uid: Option<string>): (g: Handles)
    ensures Holds(g.events, EventsTarget(appId, true, uid)) && Holds(g.recent, RecentTarget(appId, true, uid))
    ensures g.(nextId := h.nextId, events := h.events, recent := h.recent) == h
    ensures h.nextId <= g.nextId
    ensures g.events.Some? ==> h.nextId <= g.events.value.id < g.nextId
    ensures g.recent.Some? ==> h.nextId <= g.recent.value.id < g.nextId && g.recent != g.events
  {
    var key := KeyOf(uid);
    if key.None? then h.(events := None, recent := None)
    else
      h.(nextId := h.nextId + 2,
         events := Some(Listener(h.nextId, Feed(EventsFeed, EventsQuery(appId, key.value)))),
         recent := Some(Listener(h.nextId + 1, Feed(RecentFeed, RecentFilesQuery(appId, key.value)))))
  }

  /**
   * The handles after the subject-files effect runs for (`uid`, `subject`)
   * in a mounted component: the previous listener is closed and, for a
   * valid key, a new one listens to that subject's files.
   */
  function SubjectRun(h: Handles, appId: string, uid: Option<string>, subject: Option<string>): (g: Handles)
    ensures Holds(g.subject, SubjectTarget(appId, true, uid, subject))
    ensures g.(nextId := h.nextId, subject := h.subject) == h
    ensures h.nextId <= g.nextId
    ensures g.subject.Some? ==> h.nextId <= g.subject.value.id < g.nextId
  {
    var key := SubjectKeyOf(uid, subject);
    if key.None? then h.(subject := None)
    else
      h.(nextId := h.nextId + 1,
         subject := Some(Listener(h.nextId, Feed(SubjectFeed, SubjectFilesQuery(appId, key.value.0, key.value.1)))))
  }

  /**
   * The handles after a commit that changed the user from uid `prevUid` to
   * `uid`: the data effects, which depend on the uid only, run again when
   * it changed.
   */
  function UserRun(h: Handles, appId: string, prevUid: Option<string>, uid: Option<string>,
                   subject: Option<string>): Handles {
    if uid == prevUid then h else SubjectRun(DataRun(h, appId, uid), appId, uid, subject)
  }

  /**
   * The handles after the authentication effect runs again: the previous
   * identity and profile listeners are closed and one identity listener
   * is opened, with no profile listener yet.
   */
  function AuthRun(h: Handles): Handles {
    h.(nextId := h.nextId + 1, auth := Some(Listener(h.nextId, AuthState)), profile := None, profileOpen := false)
  }

  /** Both data effects keep the handles valid, and the listeners they open are new. */
  lemma DataRunValid(h: Handles, appId: string, uid: Option<string>)
    requires h.Valid()
    ensures var g := DataRun(h, appId, uid);
            && g.Valid()
            && (g.events.Some? ==> g.events.value !in h.Live())
            && (g.recent.Some? ==> g.recent.value !in h.Live())
  {
    var g := DataRun(h, appId, uid);
    if g.events.Some? {
      IssuedIsNew(h, g.events.value);
      IssuedIsNew(h, g.recent.value);
    }
  }

  lemma SubjectRunValid(h: Handles, appId: string, uid: Option<string>, subject: Option<string>)
    requires h.Valid()
    ensures var g := SubjectRun(h, appId, uid, subject);
            && g.Valid()
            && (g.subject.Some? ==> g.subject.value !in h.Live())
  {
    var g := SubjectRun(h, appId, uid, subject);
    if g.subject.Some? {
      IssuedIsNew(h, g.subject.value);
    }
  }

  /** A run of the subject-files effect replaces exactly that listener. */
  lemma SubjectRunLive(h: Handles, appId: string, uid: Option<string>, subject: Option<string>)
    requires h.Valid()
    ensures var g := SubjectRun(h, appId, uid, subject);
            g.Live() == h.Live() - Opt(h.subject) + Opt(g.subject)
  {
    assert Opt(h.subject) !! Opt(h.auth) + h.OpenProfile() + Opt(h.events) + Opt(h.recent) + h.resyncs;
  }

  /**
   * Running both data effects keeps the other handles, keys the three
   * feeds by `uid` and `subject`, and without a valid uid closes all three.
   */
  lemma FeedsRestarted(h: Handles, appId: string, uid: Option<string>, subject: Option<string>)
    requires h.Valid()
    ensures var g := SubjectRun(DataRun(h, appId, uid), appId, uid, subject);
            && g.Valid()
            && Holds(g.events, EventsTarget(appId, true, uid)) && Holds(g.recent, RecentTarget(appId, true, uid))
            && Holds(g.subject, SubjectTarget(appId, true, uid, subject))
            && g.auth == h.auth && g.profile == h.profile && g.profileOpen == h.profileOpen && g.resyncs == h.resyncs
            && (KeyOf(uid).None? ==> g == h.(events := None, recent := None, subject := None))
  {
    DataRunValid(h, appId, uid);
    SubjectRunValid(DataRun(h, appId, uid), appId, uid, subject);
  }
}
