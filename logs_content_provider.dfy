/**
 * `LogsContentProvider`: a read-only content provider that exposes the app's log table
 * to other processes. `query` routes `content://<authority>/logs` and
 * `content://<authority>/logs/<id>` to the two read calls of `LogDao`; every other
 * entry point refuses to run.
 */
module LogsProvider {
  import opened Wrappers
  import opened Uris
  import opened UriMatchers

  const CONTENT_AUTHORITY: string := "com.example.android.hilt.provider"
  const PATH_LOGS: string := "logs"

  /** Matcher codes: the whole "logs" table, and one log by id. */
  const LOGS: nat := 1
  const LOG_ID: nat := 2

  const READ_ONLY_MESSAGE: string := "Only read operations allowed"
  const UNKNOWN_URI_PREFIX: string := "Cannot query unknown URI "

  /** A result set handed out by the log store; its rows are not modelled. */
  datatype Cursor = Cursor(handle: nat)

  /** A cursor after `setNotificationUri`: observers of `notificationUri` are told when its data changes. */
  datatype NotifyingCursor = NotifyingCursor(cursor: Cursor, notificationUri: Uri)

  /** The log store: what each of its two queries returns (`None` is a null cursor). */
  datatype LogDao = LogDao(allLogsCursor: Option<Cursor>, logByIdCursor: int -> Option<Cursor>)

  /** The application context, through which the provider reaches its `LogDao`. */
  datatype AppContext = AppContext(logDao: LogDao)

  /** A call made on the log store. */
  datatype DaoCall = SelectAllLogsCursor | SelectLogById(id: int)

  /** The exceptions the provider's entry points throw. */
  datatype Failure = IllegalState | UnsupportedOperation(message: string) | NumberFormat(input: string)

  /** What an entry point does: the store calls it makes, in order, and what it returns or throws. */
  datatype Response<+T> = Response(calls: seq<DaoCall>, result: Result<T, Failure>)

  type ContentValues = map<string, string>

  /** The `matcher` property: a fresh matcher with `logs` and `logs/#` registered on the authority. */
  function ProviderMatcher(): (m: Node)
    ensures Lookup(m, [CONTENT_AUTHORITY, PATH_LOGS]) == Some(LOGS)
    ensures Lookup(m, [CONTENT_AUTHORITY, PATH_LOGS, "#"]) == Some(LOG_ID)
  {
    var withLogs := AddUri(NewMatcher(NO_MATCH), CONTENT_AUTHORITY, [PATH_LOGS], LOGS);
    var withLogId := AddUri(withLogs, CONTENT_AUTHORITY, [PATH_LOGS, "#"], LOG_ID);
    assert [CONTENT_AUTHORITY] + [PATH_LOGS] != [CONTENT_AUTHORITY] + [PATH_LOGS, "#"];
    withLogId
  }

  /** The tree the two registrations build: authority, then "logs" (LOGS), then "#" (LOG_ID). */
  lemma ProviderMatcherTree()
    ensures ProviderMatcher() ==
      Node("", NO_MATCH, [Node(CONTENT_AUTHORITY, NO_MATCH, [Node(PATH_LOGS, LOGS, [Node("#", LOG_ID, [])])])])
  {
    var logs := Node(PATH_LOGS, LOGS, []);
    var logId := Node("#", LOG_ID, []);
    var seq1: seq<string> := [CONTENT_AUTHORITY, PATH_LOGS];
    var seq2: seq<string> := [CONTENT_AUTHORITY, PATH_LOGS, "#"];
    assert seq1[1..] == [PATH_LOGS] && seq2[1..] == [PATH_LOGS, "#"] && seq2[1..][1..] == ["#"];
    // First registration: every token is new, so each level appends one child.
    assert InsertPath(Node(PATH_LOGS, NO_MATCH, []), [], LOGS) == logs;
    assert InsertPath(Node(CONTENT_AUTHORITY, NO_MATCH, []), [PATH_LOGS], LOGS) == Node(CONTENT_AUTHORITY, NO_MATCH, [logs]);
    var t1 := Node("", NO_MATCH, [Node(CONTENT_AUTHORITY, NO_MATCH, [logs])]);
    assert InsertPath(NewMatcher(NO_MATCH), seq1, LOGS) == t1;
    // Second registration: reuses the authority and "logs" nodes and appends "#" below "logs".
    assert InsertPath(Node("#", NO_MATCH, []), [], LOG_ID) == logId;
    assert InsertPath(logs, ["#"], LOG_ID) == Node(PATH_LOGS, LOGS, [logId]);
    assert InsertPath(Node(CONTENT_AUTHORITY, NO_MATCH, [logs]), [PATH_LOGS, "#"], LOG_ID)
      == Node(CONTENT_AUTHORITY, NO_MATCH, [Node(PATH_LOGS, LOGS, [logId])]);
    assert InsertPath(t1, seq2, LOG_ID) == Node("", NO_MATCH, [Node(CONTENT_AUTHORITY, NO_MATCH, [Node(PATH_LOGS, LOGS, [logId])])]);
  }

  /** `content://<authority>/logs`. */
  predicate IsLogsUri(uri: Uri) {
    uri.authority == Some(CONTENT_AUTHORITY) && uri.segments == [PATH_LOGS]
  }

  /** `content://<authority>/logs/<digits>`. */
  predicate IsLogIdUri(uri: Uri) {
    uri.authority == Some(CONTENT_AUTHORITY) && |uri.segments| == 2 && uri.segments[0] == PATH_LOGS
    && AllDigits(uri.segments[1])
  }

  /** Below the authority node: `logs` reaches LOGS, `logs/<digits>` reaches LOG_ID, any other path NO_MATCH. */
  lemma WalkBelowAuthority(segs: seq<Segment>)
    ensures Walk(Node(CONTENT_AUTHORITY, NO_MATCH, [Node(PATH_LOGS, LOGS, [Node("#", LOG_ID, [])])]), segs) ==
      if segs == [PATH_LOGS] then LOGS
      else if |segs| == 2 && segs[0] == PATH_LOGS && AllDigits(segs[1]) then LOG_ID
      else NO_MATCH
  {
    var logId := Node("#", LOG_ID, []);
    var logs := Node(PATH_LOGS, LOGS, [logId]);
    var authority := Node(CONTENT_AUTHORITY, NO_MATCH, [logs]);
    assert KindOf(PATH_LOGS) == Exact && KindOf("#") == Number;
    if |segs| >= 1 && segs[0] == PATH_LOGS {
      assert FirstAccepting([logs], Some(segs[0])) == Some(logs);
      if |segs| >= 2 {
        assert segs[1..][0] == segs[1] && segs[1..][1..] == segs[2..];
        if AllDigits(segs[1]) {
          assert FirstAccepting([logId], Some(segs[1])) == Some(logId);
          assert Walk(authority, segs) == Walk(logId, segs[2..]);
          if |segs| == 2 {
            assert segs[2..] == [];
          }
        } else {
          assert FirstAccepting([logId], Some(segs[1])) == None;
          assert Walk(authority, segs) == Walk(logs, segs[1..]) == NO_MATCH;
        }
      } else {
        assert segs == [PATH_LOGS];
        assert Walk(authority, segs) == Walk(logs, []);
      }
    } else if |segs| >= 1 {
      assert FirstAccepting([logs], Some(segs[0])) == None;
    }
  }

  /**
   * The provider's matcher gives LOGS exactly for `<authority>/logs`, LOG_ID exactly for
   * `<authority>/logs/<digits>` and NO_MATCH for every other URI; the two shapes never overlap.
   */
  lemma MatchCharacterised(uri: Uri)
    ensures Match(ProviderMatcher(), uri) ==
      if IsLogsUri(uri) then LOGS else if IsLogIdUri(uri) then LOG_ID else NO_MATCH
    ensures !(IsLogsUri(uri) && IsLogIdUri(uri))
  {
    ProviderMatcherTree();
    var authority := Node(CONTENT_AUTHORITY, NO_MATCH, [Node(PATH_LOGS, LOGS, [Node("#", LOG_ID, [])])]);
    assert KindOf(CONTENT_AUTHORITY) == Exact;
    if uri.authority == Some(CONTENT_AUTHORITY) {
      assert FirstAccepting([authority], uri.authority) == Some(authority);
      WalkBelowAuthority(uri.segments);
    } else {
      assert FirstAccepting([authority], uri.authority) == None;
    }
  }

  /** The message of the exception `query` throws for a URI it does not route. */
  function UnknownUriMessage(uri: Uri): (m: string)
    ensures |UNKNOWN_URI_PREFIX| < |m| && m[..|UNKNOWN_URI_PREFIX|] == UNKNOWN_URI_PREFIX
    ensures m[|UNKNOWN_URI_PREFIX|..] == UriToString(uri)
  {
    UNKNOWN_URI_PREFIX + UriToString(uri)
  }

  /**
   * `cursor?.also { it.setNotificationUri(resolver, uri) }`: a null cursor stays null,
   * any other is returned unchanged, now watching `uri`.
   */
  function WithNotificationUri(cursor: Option<Cursor>, uri: Uri): (r: Option<NotifyingCursor>)
    ensures r.None? <==> cursor.None?
    ensures r.Some? ==> r.value.cursor == cursor.value && r.value.notificationUri == uri
  {
    match cursor
    case None => None
    case Some(c) => Some(NotifyingCursor(c, uri))
  }

  /**
   * `query(uri, projection, selection, selectionArgs, sortOrder)`. The projection, selection
   * and sort order are accepted and not used.
   */
  function Query(context: Option<AppContext>, uri: Uri, projection: Option<seq<string>>, selection: Option<string>,
                 selectionArgs: Option<seq<string>>, sortOrder: Option<string>): (r: Response<Option<NotifyingCursor>>)
    // Without a context the provider fails before looking at the URI.
    ensures context.None? ==> r == Response([], Failure(IllegalState))
    // The whole table: one call to selectAllLogsCursor, its cursor returned watching the URI.
    ensures context.Some? && IsLogsUri(uri) ==>
      r == Response([SelectAllLogsCursor], Success(WithNotificationUri(context.value.logDao.allLogsCursor, uri)))
    // One log: one call to selectLogById with the number in the last segment, if it fits in a Long.
    ensures context.Some? && IsLogIdUri(uri) ==>
      var id := DigitsValue(uri.segments[1]);
      r == if id <= LONG_MAX then Response([SelectLogById(id)], Success(WithNotificationUri(context.value.logDao.logByIdCursor(id), uri)))
           else Response([], Failure(NumberFormat(uri.segments[1])))
    // Anything else: unknown URI, and the store is not touched.
    ensures context.Some? && !IsLogsUri(uri) && !IsLogIdUri(uri) ==>
      r == Response([], Failure(UnsupportedOperation(UnknownUriMessage(uri))))
    // At most one store call, made exactly when the query succeeds.
    ensures |r.calls| <= 1 && (r.calls != [] <==> r.result.Success?)
  {
    MatchCharacterised(uri);
    match context
    case None => Response([], Failure(IllegalState))
    case Some(app) =>
      var code := Match(ProviderMatcher(), uri);
      if code == LOGS then
        Response([SelectAllLogsCursor], Success(WithNotificationUri(app.logDao.allLogsCursor, uri)))
      else if code == LOG_ID then
        match ParseId(uri)
        case Failure(e) => Response([], Failure(NumberFormat(e.input)))
        case Success(id) => Response([SelectLogById(id)], Success(WithNotificationUri(app.logDao.logByIdCursor(id), uri)))
      else
        Response([], Failure(UnsupportedOperation(UnknownUriMessage(uri))))
  }

  /** `getType`: always refused, without touching the store. */
  function GetType(uri: Uri): (r: Response<Option<string>>)
    ensures r.calls == [] && r.result == Failure(UnsupportedOperation(READ_ONLY_MESSAGE))
  {
    Response([], Failure(UnsupportedOperation(READ_ONLY_MESSAGE)))
  }

  /** `insert`: always refused, without touching the store. */
  function Insert(uri: Uri, values: Option<ContentValues>): (r: Response<Option<Uri>>)
    ensures r.calls == [] && r.result == Failure(UnsupportedOperation(READ_ONLY_MESSAGE))
  {
    Response([], Failure(UnsupportedOperation(READ_ONLY_MESSAGE)))
  }

  /** `delete`: always refused, without touching the store. */
  function Delete(uri: Uri, selection: Option<string>, selectionArgs: Option<seq<string>>): (r: Response<int>)
    ensures r.calls == [] && r.result == Failure(UnsupportedOperation(READ_ONLY_MESSAGE))
  {
    Response([], Failure(UnsupportedOperation(READ_ONLY_MESSAGE)))
  }

  /** `update`: always refused, without touching the store. */
  function Update(uri: Uri, values: Option<ContentValues>, selection: Option<string>,
                  selectionArgs: Option<seq<string>>): (r: Response<int>)
    ensures r.calls == [] && r.result == Failure(UnsupportedOperation(READ_ONLY_MESSAGE))
  {
    Response([], Failure(UnsupportedOperation(READ_ONLY_MESSAGE)))
  }

  /** `onCreate`: nothing to set up, so loading always succeeds. */
  function OnCreate(): (loaded: bool)
    ensures loaded
  {
    true
  }

  /** The two refusals carry different messages, so a caller can tell an unknown URI from a write attempt. */
  lemma UnknownUriIsNotReadOnlyRefusal(uri: Uri)
    ensures UnknownUriMessage(uri) != READ_ONLY_MESSAGE
  {
    var m := UnknownUriMessage(uri);
    assert m[0] == UNKNOWN_URI_PREFIX[0] == 'C';
    assert READ_ONLY_MESSAGE[0] == 'O';
  }

  /** `content://<authority>/logs`, the base URI of the table. */
  function LogsContentUri(): (u: Uri)
    ensures IsLogsUri(u)
  {
    Uri("content", Some(CONTENT_AUTHORITY), [PATH_LOGS])
  }

  /** Querying the URI `withAppendedId` builds for a non-negative long id asks the store for exactly that id. */
  lemma QueryOfAppendedId(app: AppContext, id: int)
    requires 0 <= id <= LONG_MAX
    ensures Query(Some(app), WithAppendedId(LogsContentUri(), id), None, None, None, None).calls == [SelectLogById(id)]
  {
    var uri := WithAppendedId(LogsContentUri(), id);
    DigitsOfNat(id);
    assert uri.segments == [PATH_LOGS, NatToDigits(id)];
  }

  /** A negative id is written with a '-', which `#` does not accept: the URI is unknown. */
  lemma QueryOfNegativeAppendedId(app: AppContext, id: int)
    requires id < 0
    ensures Query(Some(app), WithAppendedId(LogsContentUri(), id), None, None, None, None).result.Failure?
    ensures Query(Some(app), WithAppendedId(LogsContentUri(), id), None, None, None, None).calls == []
  {
  }

  /** `content://<authority>/logs/42` selects log 42. */
  lemma QueryLog42(app: AppContext)
    ensures Query(Some(app), Uri("content", Some(CONTENT_AUTHORITY), [PATH_LOGS, "42"]), None, None, None, None).calls
      == [SelectLogById(42)]
  {
    var uri := Uri("content", Some(CONTENT_AUTHORITY), [PATH_LOGS, "42"]);
    var digits := "42";
    assert digits[..1] == "4" && DigitsValue("4") == 4;
    assert DigitsValue(digits) == 42;
    assert IsLogIdUri(uri) && uri.segments[1] == digits;
  }

  /** `content://<authority>/logs/5/7`: a path that continues past `logs/<digits>` is an unknown URI. */
  lemma ExtraSegmentIsUnknownUri(app: AppContext)
    ensures Query(Some(app), Uri("content", Some(CONTENT_AUTHORITY), [PATH_LOGS, "5", "7"]), None, None, None, None)
      == Response([], Failure(UnsupportedOperation(UnknownUriMessage(Uri("content", Some(CONTENT_AUTHORITY), [PATH_LOGS, "5", "7"])))))
  {
  }
}
