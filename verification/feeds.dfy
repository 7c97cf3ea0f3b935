/**
 * The collections the client keeps live copies of: calendar events and files,
 * the queries that select them (App.tsx, lines 284, 292 and 313-318), what a
 * snapshot of each query guarantees, and the local search over subject files
 * (App.tsx, lines 330-337).
 */
module Feeds {
  import opened Wrappers
  import opened Profile
  import Text

  datatype FileData = FileData(
    id: string,
    title: string,
    description: Option<string>,
    ownerId: string,
    subject: string,
    createdAt: Timestamp)

  /** A calendar entry; its payload beyond the start time is opaque here. */
  datatype CalendarEvent = CalendarEvent(id: string, start: Timestamp, payload: string)

  datatype Direction = Ascending | Descending

  /** A live query: collection path, equality filters, ordering and an optional limit. */
  datatype Query = Query(
    path: string,
    owner: Option<string>,
    subject: Option<string>,
    orderBy: string,
    direction: Direction,
    limit: Option<nat>)

  function EventsPath(appId: string, uid: string): string {
    "artifacts/" + appId + "/users/" + uid + "/calendarEvents"
  }

  function FilesPath(appId: string): string {
    "artifacts/" + appId + "/public/data/files"
  }

  /** The user's calendar, by start time ascending, unbounded (App.tsx, line 284). */
  function EventsQuery(appId: string, uid: string): (q: Query)
    ensures q.orderBy == "start" && q.direction == Ascending && q.limit == None
    ensures q.owner == None && q.subject == None
  {
    Query(EventsPath(appId, uid), None, None, "start", Ascending, None)
  }

  /** The user's five newest files (App.tsx, line 292). */
  function RecentFilesQuery(appId: string, uid: string): (q: Query)
    ensures q.path == FilesPath(appId) && q.owner == Some(uid) && q.subject == None
    ensures q.orderBy == "createdAt" && q.direction == Descending && q.limit == Some(5)
  {
    Query(FilesPath(appId), Some(uid), None, "createdAt", Descending, Some(5))
  }

  /** The user's files of one subject, newest first, unbounded (App.tsx, lines 313-318). */
  function SubjectFilesQuery(appId: string, uid: string, subject: string): (q: Query)
    ensures q.path == FilesPath(appId) && q.owner == Some(uid) && q.subject == Some(subject)
    ensures q.orderBy == "createdAt" && q.direction == Descending && q.limit == None
  {
    Query(FilesPath(appId), Some(uid), Some(subject), "createdAt", Descending, None)
  }

  predicate NewestFirst(files: seq<FileData>) {
    forall i, j :: 0 <= i < j < |files| ==> files[j].createdAt.millis <= files[i].createdAt.millis
  }

  predicate EarliestFirst(events: seq<CalendarEvent>) {
    forall i, j :: 0 <= i < j < |events| ==> events[i].start.millis <= events[j].start.millis
  }

  /** What the document store guarantees of a file snapshot delivered for `q`. */
  predicate AnswersFiles(q: Query, files: seq<FileData>) {
    && (q.limit.Some? ==> |files| <= q.limit.value)
    && (forall i :: 0 <= i < |files| ==> q.owner.Some? ==> files[i].ownerId == q.owner.value)
    && (forall i :: 0 <= i < |files| ==> q.subject.Some? ==> files[i].subject == q.subject.value)
    && (q.orderBy == "createdAt" && q.direction == Descending ==> NewestFirst(files))
  }

  /** What the document store guarantees of an event snapshot delivered for `q`. */
  predicate AnswersEvents(q: Query, events: seq<CalendarEvent>) {
    q.orderBy == "start" && q.direction == Ascending ==> EarliestFirst(events)
  }

  // ---------------------------------------------------------------------
  // Local search over the subject files

  /** `a` is `b` with some elements deleted, the rest kept in order. */
  predicate IsSubsequence<T(==)>(a: seq<T>, b: seq<T>) {
    a == [] || (b != [] && ((a[0] == b[0] && IsSubsequence(a[1..], b[1..])) || IsSubsequence(a, b[1..])))
  }

  /** The search rule for one file (App.tsx, lines 334-335), for an already lower-cased query. */
  predicate Matches(f: FileData, lowerQuery: string) {
    || Text.Contains(Text.ToLower(f.title), lowerQuery)
    || (f.description.Some? && f.description.value != "" &&
        Text.Contains(Text.ToLower(f.description.value), lowerQuery))
  }

  /** `files.filter(...)`: every matching file, as often as it occurs, in the original order. */
  function KeepMatching(files: seq<FileData>, lowerQuery: string): (r: seq<FileData>)
    ensures |r| <= |files|
    ensures IsSubsequence(r, files)
    ensures forall f :: f in r <==> f in files && Matches(f, lowerQuery)
    ensures forall f :: multiset(r)[f] == if Matches(f, lowerQuery) then multiset(files)[f] else 0
  {
    if files == [] then []
    else
      var rest := KeepMatching(files[1..], lowerQuery);
      assert files == [files[0]] + files[1..];
      if Matches(files[0], lowerQuery) then [files[0]] + rest else rest
  }

  /**
   * The `subjectFiles` view: a blank query leaves the files as they are;
   * otherwise exactly the files whose lower-cased title, or non-empty
   * description, contains the lower-cased (untrimmed) query, each as often
   * as it occurs, in order.
   */
  function SearchFiles(files: seq<FileData>, query: string): (r: seq<FileData>)
    ensures Text.IsBlank(query) ==> r == files
    ensures IsSubsequence(r, files)
    ensures !Text.IsBlank(query) ==> forall f :: f in r <==> f in files && Matches(f, Text.ToLower(query))
    ensures !Text.IsBlank(query) ==>
              forall f :: multiset(r)[f] == if Matches(f, Text.ToLower(query)) then multiset(files)[f] else 0
  {
    if Text.Trim(query) == "" then
      SubsequenceReflexive(files);
      files
    else
      KeepMatching(files, Text.ToLower(query))
  }

  lemma {:induction false} SubsequenceReflexive<T>(a: seq<T>)
    ensures IsSubsequence(a, a)
  {
    if a != [] {
      SubsequenceReflexive(a[1..]);
    }
  }

  /** Filtering already-filtered files again changes nothing. */
  lemma {:induction false} KeepMatchingIdempotent(files: seq<FileData>, lowerQuery: string)
    ensures KeepMatching(KeepMatching(files, lowerQuery), lowerQuery) == KeepMatching(files, lowerQuery)
  {
    if files != [] {
      KeepMatchingIdempotent(files[1..], lowerQuery);
      if Matches(files[0], lowerQuery) {
        var r := [files[0]] + KeepMatching(files[1..], lowerQuery);
        assert r[0] == files[0] && r[1..] == KeepMatching(files[1..], lowerQuery);
      }
    }
  }

  /** Searching the search result with the same query gives the same result. */
  lemma SearchIdempotent(files: seq<FileData>, query: string)
    ensures SearchFiles(SearchFiles(files, query), query) == SearchFiles(files, query)
  {
    if !Text.IsBlank(query) {
      KeepMatchingIdempotent(files, Text.ToLower(query));
    }
  }

  /** When every file matches, the search returns the files unchanged. */
  lemma {:induction false} KeepAllMatching(files: seq<FileData>, lowerQuery: string)
    requires forall i :: 0 <= i < |files| ==> Matches(files[i], lowerQuery)
    ensures KeepMatching(files, lowerQuery) == files
  {
    if files != [] {
      KeepAllMatching(files[1..], lowerQuery);
    }
  }

  /** The search keeps the store's ordering: newest-first files stay newest first. */
  lemma {:induction false} SubsequenceKeepsOrder(a: seq<FileData>, b: seq<FileData>)
    requires IsSubsequence(a, b) && NewestFirst(b)
    ensures NewestFirst(a)
  {
    if a != [] {
      if a[0] == b[0] && IsSubsequence(a[1..], b[1..]) {
        SubsequenceKeepsOrder(a[1..], b[1..]);
        SubsequenceElements(a[1..], b[1..]);
        forall i, j | 0 <= i < j < |a|
          ensures a[j].createdAt.millis <= a[i].createdAt.millis
        {
          assert a[j] == a[1..][j - 1];
          if i == 0 {
            assert a[j] in b[1..];
            var k :| 0 <= k < |b[1..]| && b[1..][k] == a[j];
            assert b[k + 1] == a[j];
          } else {
            assert a[i] == a[1..][i - 1];
          }
        }
      } else {
        SubsequenceKeepsOrder(a, b[1..]);
      }
    }
  }

  /** Every element of a subsequence is an element of the sequence. */
  lemma {:induction false} SubsequenceElements<T>(a: seq<T>, b: seq<T>)
    requires IsSubsequence(a, b)
    ensures forall x :: x in a ==> x in b
  {
    if a != [] {
      if a[0] == b[0] && IsSubsequence(a[1..], b[1..]) {
        SubsequenceElements(a[1..], b[1..]);
      } else {
        SubsequenceElements(a, b[1..]);
      }
      forall x | x in a
        ensures x in b
      {
        if x != a[0] {
          assert x in a[1..];
        }
      }
    }
  }
}
