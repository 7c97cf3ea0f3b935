/**
 * The `App` component of App.tsx as a class: its state cells are fields, and
 * each method is one event together with the effects it sets off.
 */
module AppModel {
  import opened Wrappers
  import opened Profile
  import opened Feeds
  import opened AppState
  import Lookup
  import Text

  class App {
    // The environment: fixed for the lifetime of the component.
    const appId: string
    const translations: Lookup.Table
    const subjectNames: Lookup.Table
    const themeStyles: Lookup.Table
    const defaultHomeLayout: HomeLayout
    const localStorage: map<string, string>

    var session: map<string, string>
    /** `auth.currentUser`. */
    var currentUser: Option<Identity>

    // The state cells of lines 193-208.
    var user: Option<AppUser>
    var appStatus: AppStatus
    var modal: Option<Modal>
    var themeColor: string
    var language: string
    var isTutorialOpen: bool
    var currentView: string
    var currentSubject: Option<string>
    var allSubjectFiles: seq<FileData>
    var searchQuery: string
    var userEvents: seq<CalendarEvent>
    var recentFiles: seq<FileData>

    /** Statuses of `finishLoading` timers not yet fired, oldest first. */
    var pendingStatus: seq<AppStatus>
    var mounted: bool
    var handles: Handles

    // Requests sent to the outside, whether or not they later succeed.
    /** Every profile write issued, oldest first. */
    var writes: seq<ProfileWrite>
    /** The storage path of every picture upload issued, oldest first. */
    var uploads: seq<string>
    /** How many sign-out requests were issued. */
    var signOuts: nat

    /** The listeners and lists agree with the user, the subject and the mount state. */
    ghost predicate Listening()
      reads this`handles, this`mounted, this`currentUser, this`user, this`currentSubject, this`userEvents,
            this`recentFiles, this`allSubjectFiles
    {
      && handles.Valid() && AuthOk(handles, mounted) && ProfileOk(handles, mounted, currentUser)
      && EventsKeyed(handles, appId, mounted, UidOf(user), userEvents, recentFiles)
      && SubjectKeyed(handles, appId, mounted, UidOf(user), currentSubject, allSubjectFiles)
      && Bounded(userEvents, recentFiles, allSubjectFiles)
      && (user.Some? ==> currentUser.Some?)
    }

    ghost predicate Valid()
      reads this`handles, this`mounted, this`currentUser, this`user, this`currentSubject, this`userEvents,
            this`recentFiles, this`allSubjectFiles, this`themeColor, this`language, this`session
    {
      Listening() && PreferencesHeld(user, themeColor, language) && !TutorialDue(user, session)
    }

    // ---------------------------------------------------------------------
    // Effects

    /**
     * The authentication effect (lines 387-461), run on mount and again
     * whenever `t` changes, that is whenever the language changes: the
     * previous run's identity and profile listeners are closed and a new
     * identity listener is opened, with no profile listener yet.
     */
    method AuthEffect()
      requires mounted && handles.Valid()
      modifies this`handles
      ensures handles.Valid() && AuthOk(handles, mounted) && ProfileOk(handles, mounted, currentUser)
      ensures handles == AuthRun(old(handles))
    {
      AuthRestarted(handles);
      var a := Listener(handles.nextId, AuthState);
      handles := handles.(nextId := handles.nextId + 1, auth := Some(a), profile := None, profileOpen := false);
    }

    /**
     * The preference effect (lines 464-477): the user's non-empty theme and
     * language preferences replace the ones in use, and a user who has not
     * completed the tutorial and just registered gets it opened, the marker
     * being removed so that it opens once.
     */
    method PreferenceEffect()
      modifies this`themeColor, this`language, this`session, this`isTutorialOpen
      ensures PreferencesHeld(user, themeColor, language) && !TutorialDue(user, session)
      ensures themeColor == ThemeAfter(user, old(themeColor)) && language == LanguageAfter(user, old(language))
      ensures isTutorialOpen == (old(isTutorialOpen) || TutorialDue(user, old(session)))
      ensures session == if TutorialDue(user, old(session)) then old(session) - {"justRegistered"} else old(session)
    {
      if user.Some? {
        var u := user.value;
        if u.themePreference != "" && u.themePreference != themeColor {
          themeColor := u.themePreference;
        }
        if u.languagePreference != "" && u.languagePreference != language {
          language := u.languagePreference;
        }
        if !u.hasCompletedTutorial && Marked(session, "justRegistered") {
          session := session - {"justRegistered"};
          isTutorialOpen := true;
        }
      }
    }

    /**
     * `setUser(u)` and the data effects of the commit that follows
     * (lines 277-328), which run again only when the uid changed.
     */
    method ReplaceUser(u: Option<AppUser>)
      requires Listening() && mounted && (u.Some? ==> currentUser.Some?)
      modifies this`user, this`handles, this`userEvents, this`recentFiles, this`allSubjectFiles
      ensures Listening() && user == u
      ensures handles.auth == old(handles.auth) && handles.profile == old(handles.profile)
      ensures handles.profileOpen == old(handles.profileOpen) && handles.resyncs == old(handles.resyncs)
      ensures UidOf(u) == UidOf(old(user)) ==>
                unchanged(this`handles, this`userEvents, this`recentFiles, this`allSubjectFiles)
      ensures UidOf(u) != UidOf(old(user)) ==>
                handles == SubjectRun(DataRun(old(handles), appId, UidOf(u)), appId, UidOf(u), currentSubject)
      ensures handles == UserRun(old(handles), appId, UidOf(old(user)), UidOf(u), currentSubject)
      ensures KeyOf(UidOf(u)).Some? ==> userEvents == old(userEvents) && recentFiles == old(recentFiles)
      ensures SubjectKeyOf(UidOf(u), currentSubject).Some? ==> allSubjectFiles == old(allSubjectFiles)
    {
      var prevUid := UidOf(user);
      user := u;
      if UidOf(user) != prevUid {
        FeedsRestarted(handles, appId, UidOf(user), currentSubject);
        handles := SubjectRun(DataRun(handles, appId, UidOf(user)), appId, UidOf(user), currentSubject);
        if KeyOf(UidOf(user)).None? {
          userEvents, recentFiles := [], [];
        }
        if SubjectKeyOf(UidOf(user), currentSubject).None? {
          allSubjectFiles := [];
        }
      }
    }

    /**
     * The preference effect and, when it changed the language, the commit
     * that follows, in which the authentication effect (which depends on
     * `t`) starts over.
     */
    method PreferenceCommit()
      requires Listening() && mounted
      modifies this`handles, this`themeColor, this`language, this`session, this`isTutorialOpen
      ensures Listening()
      ensures PreferencesHeld(user, themeColor, language) && !TutorialDue(user, session)
      ensures themeColor == ThemeAfter(user, old(themeColor)) && language == LanguageAfter(user, old(language))
      ensures isTutorialOpen == (old(isTutorialOpen) || TutorialDue(user, old(session)))
      ensures session == if TutorialDue(user, old(session)) then old(session) - {"justRegistered"} else old(session)
      ensures language == old(language) ==> handles == old(handles)
      ensures language != old(language) ==> handles == AuthRun(old(handles))
    {
      var languageBefore := language;
      PreferenceEffect();
      if language != languageBefore {
        AuthEffect();
      }
    }

    /**
     * `setUser(u)` and the commits that follow: the data effects run again
     * when the uid changed, then the preference effect.
     */
    method SetUser(u: AppUser)
      requires Valid() && mounted && currentUser.Some?
      modifies this`user, this`handles, this`userEvents, this`recentFiles, this`allSubjectFiles,
               this`themeColor, this`language, this`session, this`isTutorialOpen
      ensures Valid() && user == Some(u)
      ensures themeColor == ThemeAfter(user, old(themeColor)) && language == LanguageAfter(user, old(language))
      ensures isTutorialOpen == (old(isTutorialOpen) || TutorialDue(user, old(session)))
      ensures UidOf(user) == UidOf(old(user)) ==>
                userEvents == old(userEvents) && recentFiles == old(recentFiles) && allSubjectFiles == old(allSubjectFiles)
      ensures UserCommitted(old(handles), UidOf(old(user)), old(userEvents), old(recentFiles), old(allSubjectFiles),
                            old(language), old(session))
    {
      ghost var h0, uid0, events0, recent0, files0, language0, session0 :=
        handles, UidOf(user), userEvents, recentFiles, allSubjectFiles, language, session;
      ReplaceUser(Some(u));
      ghost var k := handles;
      PreferenceCommit();
      Committed(h0, uid0, events0, recent0, files0, language0, session0, k);
    }

    /** The facts `ReplaceUser` and `PreferenceCommit` leave, composed. */
    lemma Committed(h0: Handles, uid0: Option<string>, events0: seq<CalendarEvent>, recent0: seq<FileData>,
                    files0: seq<FileData>, language0: string, session0: map<string, string>, k: Handles)
      requires k == UserRun(h0, appId, uid0, UidOf(user), currentSubject)
      requires language == language0 ==> handles == k
      requires language != language0 ==> handles == AuthRun(k)
      requires KeyOf(UidOf(user)).Some? ==> userEvents == events0 && recentFiles == recent0
      requires SubjectKeyOf(UidOf(user), currentSubject).Some? ==> allSubjectFiles == files0
      requires session == if TutorialDue(user, session0) then session0 - {"justRegistered"} else session0
      ensures UserCommitted(h0, uid0, events0, recent0, files0, language0, session0)
    {
    }

    /**
     * What `setUser` and the commits after it leave, against the state
     * before (`h0`, `uid0`, ...): the data effects ran again if the uid
     * changed and the authentication effect if the language changed; a feed
     * that still has a key keeps its list, even under a new key, until its
     * new listener delivers (lines 277-328); the registration marker is
     * gone if the tutorial opened.
     */
    ghost predicate UserCommitted(h0: Handles, uid0: Option<string>, events0: seq<CalendarEvent>,
                                  recent0: seq<FileData>, files0: seq<FileData>, language0: string,
                                  session0: map<string, string>)
      reads this`handles, this`user, this`currentSubject, this`userEvents, this`recentFiles,
            this`allSubjectFiles, this`language, this`session
    {
      && handles == (var k := UserRun(h0, appId, uid0, UidOf(user), currentSubject);
                     if language == language0 then k else AuthRun(k))
      && (KeyOf(UidOf(user)).Some? ==> userEvents == events0 && recentFiles == recent0)
      && (SubjectKeyOf(UidOf(user), currentSubject).Some? ==> allSubjectFiles == files0)
      && session == if TutorialDue(user, session0) then session0 - {"justRegistered"} else session0
    }

    // ---------------------------------------------------------------------
    // Lifecycle

    /**
     * The first render (lines 193-208) and the mount effects: no user yet,
     * the status `initializing`, theme and language from local storage, and
     * one identity listener.
     */
    constructor (appId: string, translations: Lookup.Table, subjectNames: Lookup.Table,
                 themeStyles: Lookup.Table, defaultHomeLayout: HomeLayout,
                 localStorage: map<string, string>, session: map<string, string>,
                 currentUser: Option<Identity>)
      ensures Valid() && mounted
      ensures user.None? && appStatus == Initializing && pendingStatus == [] && modal.None?
      ensures themeColor == StoredOr(localStorage, "themeColor", DefaultTheme)
      ensures language == StoredOr(localStorage, "appLanguage", DefaultLanguage)
      ensures !isTutorialOpen && currentView == "home" && currentSubject.None? && searchQuery == ""
      ensures userEvents == [] && recentFiles == [] && allSubjectFiles == []
      ensures handles.Live() == {Listener(0, AuthState)}
      ensures this.appId == appId && this.translations == translations && this.subjectNames == subjectNames
      ensures this.themeStyles == themeStyles && this.defaultHomeLayout == defaultHomeLayout
      ensures this.localStorage == localStorage && this.session == session && this.currentUser == currentUser
      ensures writes == [] && uploads == [] && signOuts == 0
    {
      this.appId := appId;
      this.translations := translations;
      this.subjectNames := subjectNames;
      this.themeStyles := themeStyles;
      this.defaultHomeLayout := defaultHomeLayout;
      this.localStorage := localStorage;
      this.session := session;
      this.currentUser := currentUser;
      user := None;
      appStatus := Initializing;
      modal := None;
      themeColor := StoredOr(localStorage, "themeColor", DefaultTheme);
      language := StoredOr(localStorage, "appLanguage", DefaultLanguage);
      isTutorialOpen := false;
      currentView := "home";
      currentSubject := None;
      allSubjectFiles := [];
      searchQuery := "";
      userEvents := [];
      recentFiles := [];
      pendingStatus := [];
      mounted := true;
      handles := NoHandles;
      writes, uploads, signOuts := [], [], 0;
      new;
      AuthEffect();
    }

    /** The cleanups of every effect: only the listeners of failed-save resyncs stay open. */
    method Unmount()
      requires Valid() && mounted
      modifies this`mounted, this`handles
      ensures Valid() && !mounted
      ensures handles == old(handles).(auth := None, profileOpen := false, events := None, recent := None, subject := None)
      ensures handles.Live() == handles.resyncs
    {
      UnmountLeavesResyncs(handles);
      mounted := false;
      handles := handles.(auth := None, profileOpen := false, events := None, recent := None, subject := None);
    }

    // ---------------------------------------------------------------------
    // Lookups

    /**
     * `t` (lines 225-232): the translation of `key`, then each replacement in
     * order puts its value in place of the first `{name}`.
     */
    method T(key: string, replacements: seq<(string, string)>) returns (text: string)
      ensures text == Lookup.ApplyReplacements(Lookup.Translation(translations, language, key), replacements)
    {
      var base := Lookup.Translation(translations, language, key);
      text := base;
      var i := 0;
      while i < |replacements|
        invariant 0 <= i <= |replacements|
        invariant text == Lookup.ApplyReplacements(base, replacements[..i])
      {
        assert replacements[..i + 1][..i] == replacements[..i];
        text := Text.ReplaceFirst(text, Lookup.Placeholder(replacements[i].0), replacements[i].1);
        i := i + 1;
      }
      assert replacements[..i] == replacements;
    }

    /** The notice `showAppModal({ text: t(key) })` shows. */
    function Notice(key: string): Modal
      reads this`language
    {
      Modal(Lookup.Translation(translations, language, key), Acknowledge)
    }

    /** `subjectFiles` (lines 330-337). */
    function SubjectFiles(): (files: seq<FileData>)
      reads this`allSubjectFiles, this`searchQuery
      ensures IsSubsequence(files, allSubjectFiles)
      ensures Text.IsBlank(searchQuery) ==> files == allSubjectFiles
      ensures !Text.IsBlank(searchQuery) ==>
                forall f :: multiset(files)[f] ==
                  if Matches(f, Text.ToLower(searchQuery)) then multiset(allSubjectFiles)[f] else 0
    {
      SearchFiles(allSubjectFiles, searchQuery)
    }

    // ---------------------------------------------------------------------
    // Identity and profile

    /**
     * The identity listener's callback (lines 390-455): the previous profile
     * listener is closed first, then the identity is handled by `SignIn` or
     * `SignOut`. Only the listener the authentication effect keeps is open
     * (`LiveByKind`); a callback of a closed one changes nothing.
     */
    method OnAuthStateChanged(h: Listener, who: Option<Identity>)
      requires Valid()
      modifies this`currentUser, this`user, this`modal, this`session, this`pendingStatus,
               this`handles, this`userEvents, this`recentFiles, this`allSubjectFiles
      ensures Valid()
      ensures old(handles.auth) != Some(h) ==> unchanged(this)
      ensures old(handles.auth) == Some(h) && who.Some? ==>
                && currentUser == who && user == old(user) && pendingStatus == old(pendingStatus)
                && handles == old(handles).(nextId := old(handles.nextId) + 1, profileOpen := true,
                                            profile := Some(Listener(old(handles.nextId), ProfileDoc(who.value))))
      ensures old(handles.auth) == Some(h) && who.Some? ==>
                unchanged(this`modal, this`session, this`userEvents, this`recentFiles, this`allSubjectFiles)
      ensures old(handles.auth) == Some(h) && who.None? ==>
                && currentUser.None? && user.None? && pendingStatus == old(pendingStatus) + [Unauthenticated]
                && userEvents == [] && recentFiles == [] && allSubjectFiles == []
                && handles == old(handles).(profileOpen := false, events := None, recent := None, subject := None)
                && (Marked(old(session), "logout-event") ==>
                      session == old(session) - {"logout-event"} && modal == Some(Notice("success_logout")))
                && (!Marked(old(session), "logout-event") ==> session == old(session) && modal == old(modal))
    {
      if handles.auth == Some(h) {
        if who.Some? {
          SignIn(who.value);
        } else {
          SignOut();
        }
      }
    }

    /** A signed-in identity: a listener on its profile document (lines 399-447). */
    method SignIn(who: Identity)
      requires Valid() && mounted
      modifies this`currentUser, this`handles
      ensures Valid()
      ensures currentUser == Some(who)
      ensures handles == old(handles).(nextId := old(handles.nextId) + 1, profileOpen := true,
                                       profile := Some(Listener(old(handles.nextId), ProfileDoc(who))))
    {
      ProfileReplaced(handles, who);
      currentUser := Some(who);
      var p := Listener(handles.nextId, ProfileDoc(who));
      handles := handles.(nextId := handles.nextId + 1, profile := Some(p), profileOpen := true);
    }

    /**
     * No identity (lines 448-455): the user is cleared, which closes the
     * data listeners and empties the lists; the logout notice is shown when
     * the logout marker is set, removing it; the `unauthenticated` status is
     * queued. The preference effect runs too, and does nothing for a null
     * user.
     */
    method SignOut()
      requires Valid() && mounted
      modifies this`currentUser, this`user, this`modal, this`session, this`pendingStatus,
               this`handles, this`userEvents, this`recentFiles, this`allSubjectFiles
      ensures Valid()
      ensures currentUser.None? && user.None? && pendingStatus == old(pendingStatus) + [Unauthenticated]
      ensures userEvents == [] && recentFiles == [] && allSubjectFiles == []
      ensures handles == old(handles).(profileOpen := false, events := None, recent := None, subject := None)
      ensures Marked(old(session), "logout-event") ==>
                session == old(session) - {"logout-event"} && modal == Some(Notice("success_logout"))
      ensures !Marked(old(session), "logout-event") ==> session == old(session) && modal == old(modal)
    {
      ClearUser();
      LogoutNotice();
      pendingStatus := pendingStatus + [Unauthenticated];
    }

    /** `setUser(null)` after a sign-out: the identity, its profile listener and the user's data go. */
    method ClearUser()
      requires Valid() && mounted
      modifies this`currentUser, this`user, this`handles, this`userEvents, this`recentFiles, this`allSubjectFiles
      ensures Valid()
      ensures currentUser.None? && user.None?
      ensures userEvents == [] && recentFiles == [] && allSubjectFiles == []
      ensures handles == old(handles).(profileOpen := false, events := None, recent := None, subject := None)
    {
      ReplaceUser(None);
      currentUser := None;
      handles := handles.(profileOpen := false);
    }

    /** The notice after a confirmed logout (lines 450-453), shown once: the marker is removed. */
    method LogoutNotice()
      modifies this`modal, this`session
      ensures Marked(old(session), "logout-event") ==>
                session == old(session) - {"logout-event"} && modal == Some(Notice("success_logout"))
      ensures !Marked(old(session), "logout-event") ==> session == old(session) && modal == old(modal)
    {
      if Marked(session, "logout-event") {
        modal := Some(Notice("success_logout"));
        session := session - {"logout-event"};
      }
    }

    /**
     * The profile listener's callback (lines 401-441): the user becomes the
     * projection of the snapshot for the listener's identity, and the
     * `authenticated` status is queued.
     */
    method OnProfileSnapshot(h: Listener, doc: Option<UserFields>, now: Timestamp)
      requires Valid()
      modifies this`user, this`pendingStatus, this`handles, this`userEvents, this`recentFiles, this`allSubjectFiles,
               this`themeColor, this`language, this`session, this`isTutorialOpen
      ensures Valid()
      ensures !(old(handles.profileOpen) && old(handles.profile) == Some(h)) ==>
                unchanged(this`user, this`pendingStatus, this`handles, this`userEvents, this`recentFiles,
                          this`allSubjectFiles, this`themeColor, this`language, this`session, this`isTutorialOpen)
      ensures old(handles.profileOpen) && old(handles.profile) == Some(h) ==>
                UserCommitted(old(handles), UidOf(old(user)), old(userEvents), old(recentFiles), old(allSubjectFiles),
                              old(language), old(session))
      ensures old(handles.profileOpen) && old(handles.profile) == Some(h) ==>
                && user == Some(Project(h.target.who, doc,
                                        Lookup.Translation(translations, old(language), "guest_fallback_name"),
                                        localStorage, now, defaultHomeLayout))
                && pendingStatus == old(pendingStatus) + [Authenticated]
                && themeColor == ThemeAfter(user, old(themeColor))
                && language == LanguageAfter(user, old(language))
                && isTutorialOpen == (old(isTutorialOpen) || TutorialDue(user, old(session)))
    {
      if handles.profileOpen && handles.profile == Some(h) {
        AcceptProfile(h.target.who, doc, now);
      }
    }

    /** A snapshot of the open profile listener of `who`, the current identity, taken in. */
    method AcceptProfile(who: Identity, doc: Option<UserFields>, now: Timestamp)
      requires Valid() && mounted && currentUser.Some?
      modifies this`user, this`pendingStatus, this`handles, this`userEvents, this`recentFiles, this`allSubjectFiles,
               this`themeColor, this`language, this`session, this`isTutorialOpen
      ensures Valid()
      ensures UserCommitted(old(handles), UidOf(old(user)), old(userEvents), old(recentFiles), old(allSubjectFiles),
                            old(language), old(session))
      ensures user == Some(Project(who, doc, Lookup.Translation(translations, old(language), "guest_fallback_name"),
                                   localStorage, now, defaultHomeLayout))
      ensures pendingStatus == old(pendingStatus) + [Authenticated]
      ensures themeColor == ThemeAfter(user, old(themeColor)) && language == LanguageAfter(user, old(language))
      ensures isTutorialOpen == (old(isTutorialOpen) || TutorialDue(user, old(session)))
    {
      var guestName := Lookup.Translation(translations, language, "guest_fallback_name");
      pendingStatus := pendingStatus + [Authenticated];
      SetUser(Project(who, doc, guestName, localStorage, now, defaultHomeLayout));
    }

    /**
     * The profile listener's error callback (lines 442-446): a notice, the
     * `unauthenticated` status queued, the listener closed; the user is kept.
     */
    method OnProfileError(h: Listener)
      requires Valid()
      modifies this`modal, this`pendingStatus, this`handles
      ensures Valid()
      ensures !(old(handles.profileOpen) && old(handles.profile) == Some(h)) ==>
                unchanged(this`modal, this`pendingStatus, this`handles)
      ensures old(handles.profileOpen) && old(handles.profile) == Some(h) ==>
                && modal == Some(Notice("error_profile_load_failed"))
                && pendingStatus == old(pendingStatus) + [Unauthenticated]
                && handles == old(handles).(profileOpen := false)
    {
      if handles.profileOpen && handles.profile == Some(h) {
        modal := Some(Notice("error_profile_load_failed"));
        pendingStatus := pendingStatus + [Unauthenticated];
        handles := handles.(profileOpen := false);
      }
    }

    /**
     * A `finishLoading` timer fires (lines 393-397): the oldest queued
     * status becomes the app status; after unmount the update is dropped.
     */
    method LoadingDelayElapsed()
      requires Valid()
      modifies this`appStatus, this`pendingStatus
      ensures Valid()
      ensures old(pendingStatus) == [] ==> pendingStatus == [] && appStatus == old(appStatus)
      ensures old(pendingStatus) != [] ==>
                pendingStatus == old(pendingStatus)[1..] &&
                appStatus == (if mounted then old(pendingStatus)[0] else old(appStatus))
    {
      if pendingStatus != [] {
        if mounted {
          appStatus := pendingStatus[0];
        }
        pendingStatus := pendingStatus[1..];
      }
    }

    // ---------------------------------------------------------------------
    // Feeds

    /** The calendar listener's callback (line 287); the store answers in the query's order. */
    method OnEventsSnapshot(h: Listener, events: seq<CalendarEvent>)
      requires Valid()
      requires h.target.Feed? ==> AnswersEvents(h.target.query, events)
      modifies this`userEvents
      ensures Valid()
      ensures handles.events == Some(h) ==> userEvents == events
      ensures handles.events != Some(h) ==> userEvents == old(userEvents)
      ensures EarliestFirst(userEvents)
    {
      if handles.events == Some(h) {
        userEvents := events;
      }
    }

    /** The recent-files (line 295) and subject-files (line 322) listeners' callbacks. */
    method OnFilesSnapshot(h: Listener, files: seq<FileData>)
      requires Valid()
      requires h.target.Feed? ==> AnswersFiles(h.target.query, files)
      modifies this`recentFiles, this`allSubjectFiles
      ensures Valid()
      ensures handles.recent == Some(h) ==> recentFiles == files && allSubjectFiles == old(allSubjectFiles)
      ensures handles.subject == Some(h) ==> allSubjectFiles == files && recentFiles == old(recentFiles)
      ensures handles.recent != Some(h) && handles.subject != Some(h) ==>
                recentFiles == old(recentFiles) && allSubjectFiles == old(allSubjectFiles)
      ensures |recentFiles| <= 5 && NewestFirst(recentFiles) && NewestFirst(allSubjectFiles)
    {
      if handles.recent == Some(h) {
        recentFiles := files;
      } else if handles.subject == Some(h) {
        allSubjectFiles := files;
      }
    }

    // ---------------------------------------------------------------------
    // User actions

    /** `showAppModal` (line 239). */
    method ShowModal(m: Modal)
      requires Valid() && mounted
      modifies this`modal
      ensures Valid() && modal == Some(m)
    {
      modal := Some(m);
    }

    /** `closeAppModal` (line 240). */
    method CloseModal()
      requires Valid() && mounted
      modifies this`modal
      ensures Valid() && modal.None?
    {
      modal := None;
    }

    /** `handleLogout` (lines 260-269): only asks for confirmation. */
    method HandleLogout()
      requires Valid() && mounted
      modifies this`modal
      ensures Valid()
      ensures modal == Some(Modal(Lookup.Translation(translations, language, "confirm_logout"), ConfirmLogout))
    {
      modal := Some(Modal(Lookup.Translation(translations, language, "confirm_logout"), ConfirmLogout));
    }

    /** The logout confirmation (lines 263-266): set the marker, then ask for the sign-out. */
    method ConfirmLogoutAction()
      requires Valid() && mounted
      requires modal.Some? && modal.value.action == ConfirmLogout
      modifies this`session, this`signOuts
      ensures Valid()
      ensures session == old(session)["logout-event" := "true"] && signOuts == old(signOuts) + 1
    {
      session := session["logout-event" := "true"];
      signOuts := signOuts + 1;
    }

    /** `handleGoHome` (lines 271-274): back home, and the subject-file listener closes. */
    method GoHome()
      requires Valid() && mounted
      modifies this`currentView, this`currentSubject, this`handles, this`allSubjectFiles
      ensures Valid()
      ensures currentView == "home" && currentSubject.None? && allSubjectFiles == []
      ensures old(currentSubject) != None ==> handles == SubjectRun(old(handles), appId, UidOf(user), None)
      ensures old(currentSubject) == None ==> handles == old(handles)
      ensures handles.subject.None?
    {
      var prevSubject := currentSubject;
      currentView := "home";
      currentSubject := None;
      if prevSubject != None {
        SubjectRunValid(handles, appId, UidOf(user), None);
        handles := SubjectRun(handles, appId, UidOf(user), None);
        allSubjectFiles := [];
      }
    }

    method SetCurrentView(view: string)
      requires Valid() && mounted
      modifies this`currentView
      ensures Valid() && currentView == view
    {
      currentView := view;
    }

    /**
     * `setCurrentSubject`: the subject-files effect runs again when the
     * subject changed, closing the previous listener and opening one for
     * the new subject, if there is one and the user has a valid uid.
     */
    method SetCurrentSubject(subject: Option<string>)
      requires Valid() && mounted
      modifies this`currentSubject, this`handles, this`allSubjectFiles
      ensures Valid()
      ensures currentSubject == subject
      ensures subject == old(currentSubject) ==> handles == old(handles) && allSubjectFiles == old(allSubjectFiles)
      ensures subject != old(currentSubject) ==> handles == SubjectRun(old(handles), appId, UidOf(user), subject)
      ensures SubjectKeyOf(UidOf(user), subject).None? ==> allSubjectFiles == []
      ensures SubjectKeyOf(UidOf(user), subject).Some? ==> allSubjectFiles == old(allSubjectFiles)
    {
      var prevSubject := currentSubject;
      currentSubject := subject;
      if subject != prevSubject {
        SubjectRunValid(handles, appId, UidOf(user), subject);
        handles := SubjectRun(handles, appId, UidOf(user), subject);
        if SubjectKeyOf(UidOf(user), subject).None? {
          allSubjectFiles := [];
        }
      }
    }

    method SetSearchQuery(query: string)
      requires Valid() && mounted
      modifies this`searchQuery
      ensures Valid() && searchQuery == query
      ensures SubjectFiles() == SearchFiles(allSubjectFiles, query)
    {
      searchQuery := query;
    }

    /**
     * `setThemeColor`: the preference effect runs again, so a user's
     * non-empty theme preference overrides the colour chosen.
     */
    method SetThemeColor(color: string)
      requires Valid() && mounted
      modifies this`themeColor, this`language, this`session, this`isTutorialOpen
      ensures Valid()
      ensures themeColor == ThemeAfter(user, color)
      ensures language == old(language) && session == old(session) && isTutorialOpen == old(isTutorialOpen)
    {
      if color != themeColor {
        themeColor := color;
        PreferenceEffect();
      }
    }

    /**
     * `setLanguage`: `t` changes, so the authentication effect starts over
     * with a new identity listener and no profile listener until the
     * identity listener reports again (`AuthRestarted`); a user's non-empty
     * language preference overrides the choice.
     */
    method SetLanguage(lang: string)
      requires Valid() && mounted
      modifies this`themeColor, this`language, this`session, this`isTutorialOpen, this`handles
      ensures Valid()
      ensures language == LanguageAfter(user, lang) && themeColor == old(themeColor)
      ensures session == old(session) && isTutorialOpen == old(isTutorialOpen)
      ensures lang == old(language) ==> handles == old(handles)
      ensures lang != old(language) ==>
                && old(handles.nextId) < handles.nextId
                && handles == old(handles).(nextId := handles.nextId, auth := Some(Listener(handles.nextId - 1, AuthState)),
                                            profile := None, profileOpen := false)
    {
      if lang != language {
        language := lang;
        AuthEffect();
        PreferenceCommit();
      }
    }

    /**
     * `handleProfileUpdate` (lines 339-360): nothing without an identity;
     * otherwise the user, if any, becomes `{...user, ...patch}` at once and a
     * merge write of the patch is sent for the identity's uid.
     */
    method HandleProfileUpdate(patch: UserFields)
      requires Valid() && mounted
      modifies this`user, this`writes, this`handles, this`userEvents, this`recentFiles, this`allSubjectFiles,
               this`themeColor, this`language, this`session, this`isTutorialOpen
      ensures Valid()
      ensures old(currentUser).None? ==>
                unchanged(this`user, this`writes, this`handles, this`userEvents, this`recentFiles, this`allSubjectFiles,
                          this`themeColor, this`language, this`session, this`isTutorialOpen)
      ensures old(currentUser).Some? ==>
                UserCommitted(old(handles), UidOf(old(user)), old(userEvents), old(recentFiles), old(allSubjectFiles),
                              old(language), old(session))
      ensures old(currentUser).Some? ==>
                && user == (if old(user).Some? then Some(Merge(old(user).value, patch)) else None)
                && writes == old(writes) + [ProfileWrite(old(currentUser).value.uid, patch)]
                && themeColor == ThemeAfter(user, old(themeColor)) && language == LanguageAfter(user, old(language))
      ensures isTutorialOpen == (old(isTutorialOpen) || TutorialDue(user, old(session)))
    {
      if currentUser.Some? {
        var uid := currentUser.value.uid;
        if user.Some? {
          SetUser(Merge(user.value, patch));
        }
        writes := writes + [ProfileWrite(uid, patch)];
      }
    }

    /**
     * The failure path of a profile write (lines 349-358): a listener on the
     * user's document is opened, and never closed (`ResyncOpened`), and a
     * notice is shown.
     */
    method OnProfileWriteFailed(uid: string)
      requires Valid()
      requires exists w :: w in writes && w.uid == uid
      modifies this`handles, this`modal
      ensures Valid()
      ensures handles == old(handles).(nextId := old(handles.nextId) + 1,
                                       resyncs := old(handles.resyncs) + {Listener(old(handles.nextId), Resync(uid))})
      ensures mounted ==> modal == Some(Notice("error_save_settings_failed"))
      ensures !mounted ==> modal == old(modal)
    {
      OpenResync(uid);
      if mounted {
        modal := Some(Notice("error_save_settings_failed"));
      }
    }

    /** A listener on the document of `uid` that nothing closes. */
    method OpenResync(uid: string)
      requires Valid()
      modifies this`handles
      ensures Valid()
      ensures handles == old(handles).(nextId := old(handles.nextId) + 1,
                                       resyncs := old(handles.resyncs) + {Listener(old(handles.nextId), Resync(uid))})
    {
      ResyncOpened(handles, uid);
      var l := Listener(handles.nextId, Resync(uid));
      handles := handles.(nextId := handles.nextId + 1, resyncs := handles.resyncs + {l});
    }

    /** The resync listener's callback (lines 352-356): an existing document is merged into a non-null user. */
    method OnResyncSnapshot(h: Listener, doc: Option<UserFields>)
      requires Valid()
      modifies this`user, this`handles, this`userEvents, this`recentFiles, this`allSubjectFiles,
               this`themeColor, this`language, this`session, this`isTutorialOpen
      ensures Valid()
      ensures h in old(handles.resyncs) && old(mounted) && doc.Some? && old(user).Some? ==>
                && user == Some(Merge(old(user).value, doc.value))
                && themeColor == ThemeAfter(user, old(themeColor)) && language == LanguageAfter(user, old(language))
                && isTutorialOpen == (old(isTutorialOpen) || TutorialDue(user, old(session)))
      ensures h in old(handles.resyncs) && old(mounted) && doc.Some? && old(user).Some? ==>
                UserCommitted(old(handles), UidOf(old(user)), old(userEvents), old(recentFiles), old(allSubjectFiles),
                              old(language), old(session))
      ensures !(h in old(handles.resyncs) && old(mounted) && doc.Some? && old(user).Some?) ==>
                unchanged(this`user, this`handles, this`userEvents, this`recentFiles, this`allSubjectFiles,
                          this`themeColor, this`language, this`session, this`isTutorialOpen)
    {
      if h in handles.resyncs && mounted && doc.Some? && user.Some? {
        SetUser(Merge(user.value, doc.value));
      }
    }

    /**
     * `handleProfilePicUpload` (lines 362-377): refused with a notice and no
     * request for a missing or guest user; otherwise the file goes to
     * `profilePictures/<uid>/<name>`, its address is written into the
     * profile, and a notice reports the outcome. The local user is not
     * changed; the profile listener delivers the new address.
     */
    method HandleProfilePicUpload(fileName: string, outcome: UploadOutcome)
      requires Valid() && mounted
      modifies this`modal, this`uploads, this`writes
      ensures Valid()
      ensures old(user).None? || old(user).value.uid == GuestUid ==>
                && modal == Some(Notice("error_guest_action_not_allowed"))
                && uploads == old(uploads) && writes == old(writes)
      ensures old(user).Some? && old(user).value.uid != GuestUid ==>
                && uploads == old(uploads) + ["profilePictures/" + user.value.uid + "/" + fileName]
                && (outcome.Uploaded? ==> writes == old(writes) + [ProfileWrite(user.value.uid, AvatarChanged(outcome.url))])
                && (!outcome.Uploaded? ==> writes == old(writes))
                && (outcome.Uploaded? && outcome.written ==> modal == Some(Notice("profile_picture_upload_success")))
                && (!(outcome.Uploaded? && outcome.written) ==> modal == Some(Notice("error_profile_pic_upload_failed")))
    {
      if user.None? || user.value.uid == GuestUid {
        modal := Some(Notice("error_guest_action_not_allowed"));
        return;
      }
      UploadPicture(user.value.uid, fileName, outcome);
    }

    /** The upload and the profile write for a signed-in, non-guest `uid`, and the notice reporting them. */
    method UploadPicture(uid: string, fileName: string, outcome: UploadOutcome)
      modifies this`modal, this`uploads, this`writes
      ensures uploads == old(uploads) + ["profilePictures/" + uid + "/" + fileName]
      ensures outcome.Uploaded? ==> writes == old(writes) + [ProfileWrite(uid, AvatarChanged(outcome.url))]
      ensures !outcome.Uploaded? ==> writes == old(writes)
      ensures outcome.Uploaded? && outcome.written ==> modal == Some(Notice("profile_picture_upload_success"))
      ensures !(outcome.Uploaded? && outcome.written) ==> modal == Some(Notice("error_profile_pic_upload_failed"))
    {
      uploads := uploads + ["profilePictures/" + uid + "/" + fileName];
      if outcome.Uploaded? {
        writes := writes + [ProfileWrite(uid, AvatarChanged(outcome.url))];
      }
      var key := if outcome.Uploaded? && outcome.written then "profile_picture_upload_success"
                 else "error_profile_pic_upload_failed";
      modal := Some(Notice(key));
    }

    /**
     * `handleTutorialFinished` (lines 379-384): the tutorial closes, and a
     * user gets `{hasCompletedTutorial: true}` merged in and written.
     */
    method HandleTutorialFinished()
      requires Valid() && mounted
      modifies this`isTutorialOpen, this`user, this`writes, this`handles, this`userEvents, this`recentFiles,
               this`allSubjectFiles, this`themeColor, this`language, this`session
      ensures Valid()
      ensures !isTutorialOpen
      ensures old(user).None? ==>
                unchanged(this`user, this`writes, this`handles, this`userEvents, this`recentFiles, this`allSubjectFiles,
                          this`themeColor, this`language, this`session)
      ensures old(user).Some? ==>
                UserCommitted(old(handles), UidOf(old(user)), old(userEvents), old(recentFiles), old(allSubjectFiles),
                              old(language), old(session))
      ensures old(user).Some? ==>
                && user == Some(Merge(old(user).value, TutorialCompleted))
                && user.value.hasCompletedTutorial
                && writes == old(writes) + [ProfileWrite(old(currentUser).value.uid, TutorialCompleted)]
                && themeColor == ThemeAfter(user, old(themeColor)) && language == LanguageAfter(user, old(language))
    {
      isTutorialOpen := false;
      if user.Some? {
        HandleProfileUpdate(TutorialCompleted);
      }
    }
  }
}
