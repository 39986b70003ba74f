# LogsContentProvider: a verified model

This project models the read-only logs content provider of the Hilt sample app
(`LogsContentProvider`). The provider exposes the app's activity log to other processes.
`query` matches the request URI against two routes on the authority
`com.example.android.hilt.provider`:

- `logs` gives code `LOGS = 1` and calls `LogDao.selectAllLogsCursor()`.
- `logs/#` gives code `LOG_ID = 2` and calls `LogDao.selectLogById(ContentUris.parseId(uri))`.

Any other URI throws `UnsupportedOperationException("Cannot query unknown URI $uri")`.
Without a context, `query` throws `IllegalStateException` before it looks at the URI.
A non-null cursor is returned with the queried URI set as its notification URI.
`getType`, `insert`, `delete` and `update` always throw
`UnsupportedOperationException("Only read operations allowed")`. `onCreate` returns `true`.

The model is pure: the provider has no mutable fields, so everything is datatypes, functions and lemmas.

- `wrappers.dfy` (`Wrappers`): `Option` stands for Kotlin's nullable types and `Result` for a call that may throw.
- `uris.dfy` (`Uris`): the platform pieces the provider relies on. These are a URI value (scheme,
  optional authority, decoded non-empty path segments), `Long.parseLong`, `Long.toString`,
  `ContentUris.parseId` and its inverse `ContentUris.withAppendedId`, with round-trip lemmas.
- `uri_matcher.dfy` (`UriMatchers`): the platform `UriMatcher`, a tree of tokens.
  `AddUri` builds it as `addURI` does, and `Match` walks it as `match` does. Every node owns a
  child list, so a path segment left over at a leaf finds no accepting child and gives `NO_MATCH`.
- `logs_content_provider.dfy` (`LogsProvider`): the provider's constants, its matcher, `query`, the four
  refused write-side entry points and `onCreate`. The `LogDao` is a parameter reached through the
  application context. Every entry point returns a `Response`: the DAO calls it made (a trace) and what
  it returned or threw.

The `matcher` property builds a new `UriMatcher` on every access. Here it is a function without
arguments, so every access yields the same tree (`ProviderMatcherTree`).

## Model

| member | source | states |
|---|---|---|
| Uris.ParseLong | app/src/main/java/com/example/android/hilt/contentprovider/LogsContentProvider.kt:105 | a parsed value always fits in a Long; a plain, `-`-signed or `+`-signed digit string yields its signed decimal value, or NumberFormatException when that does not fit; every other string, the empty one and a lone sign included, throws NumberFormatException carrying the input |
| Uris.LastPathSegment | app/src/main/java/com/example/android/hilt/contentprovider/LogsContentProvider.kt:105 | absent exactly for an empty path, otherwise the final segment |
| Uris.ParseId | app/src/main/java/com/example/android/hilt/contentprovider/LogsContentProvider.kt:105 | -1 for an empty path, otherwise Long.parseLong of the last segment |
| Uris.NatToDigits | app/src/main/java/com/example/android/hilt/contentprovider/LogsContentProvider.kt:105 | the decimal form of a number is non-empty, all digits, and has no leading zero; it starts with '0' exactly for zero |
| Uris.WithAppendedId | app/src/main/java/com/example/android/hilt/contentprovider/LogsContentProvider.kt:105 | the inverse of parseId: keeps scheme, authority and path, and appends Long.toString(id) as one new segment |
| Uris.DigitsOfNat | app/src/main/java/com/example/android/hilt/contentprovider/LogsContentProvider.kt:105 | reading back the decimal digits of n gives n |
| Uris.NatOfDigits | app/src/main/java/com/example/android/hilt/contentprovider/LogsContentProvider.kt:105 | a canonical digit string is the decimal form of its own value (the other direction of the round trip) |
| Uris.NonZeroLead | app/src/main/java/com/example/android/hilt/contentprovider/LogsContentProvider.kt:105 | a digit string without a leading zero has a positive value |
| Uris.ParseLongOfToString | app/src/main/java/com/example/android/hilt/contentprovider/LogsContentProvider.kt:105 | Long.parseLong(Long.toString(n)) == n for every long n, negative ones included |
| Uris.ParseIdOfAppendedId | app/src/main/java/com/example/android/hilt/contentprovider/LogsContentProvider.kt:105 | parseId(withAppendedId(uri, id)) == id for every long id |
| Uris.AppendedIdOfParseId | app/src/main/java/com/example/android/hilt/contentprovider/LogsContentProvider.kt:105 | withAppendedId(parent, parseId(uri)) == uri when the last segment is a canonical long |
| UriMatchers.NewMatcher | app/src/main/java/com/example/android/hilt/contentprovider/LogsContentProvider.kt:30 | `UriMatcher(NO_MATCH)` is a root that carries the given code and has no children |
| UriMatchers.IndexOfChild | app/src/main/java/com/example/android/hilt/contentprovider/LogsContentProvider.kt:33-35 | addURI reuses the FIRST child added with the same token: every earlier child has a different token |
| UriMatchers.AddUri | app/src/main/java/com/example/android/hilt/contentprovider/LogsContentProvider.kt:33-35 | after addURI, the authority followed by the path leads to the code, every other path already registered keeps its code, and the only paths that newly appear are prefixes of the added one, which lead to NO_MATCH |
| UriMatchers.InsertPathThenLookup | app/src/main/java/com/example/android/hilt/contentprovider/LogsContentProvider.kt:33-35 | inserting a token path and then following it by text finds the inserted code |
| UriMatchers.InsertPathKeepsOthers | app/src/main/java/com/example/android/hilt/contentprovider/LogsContentProvider.kt:33-35 | inserting one token path does not change the code of any other registered path |
| UriMatchers.InsertPathAddsOnlyPrefixes | app/src/main/java/com/example/android/hilt/contentprovider/LogsContentProvider.kt:33-35 | a path that appears through an insertion is a prefix of the inserted path and, unless it is the whole path, leads to NO_MATCH |
| UriMatchers.FirstAccepting | app/src/main/java/com/example/android/hilt/contentprovider/LogsContentProvider.kt:103 | match takes the first child in insertion order that accepts the token, and finds none exactly when no child accepts it |
| LogsProvider.ProviderMatcher | app/src/main/java/com/example/android/hilt/contentprovider/LogsContentProvider.kt:29-36 | the `matcher` property leads from the authority via `logs` to LOGS and via `logs/#` to LOG_ID |
| LogsProvider.ProviderMatcherTree | app/src/main/java/com/example/android/hilt/contentprovider/LogsContentProvider.kt:29-36 | the two addURI calls build one chain: authority, `logs` carrying LOGS, and `#` carrying LOG_ID below it; every access yields this same tree |
| LogsProvider.WalkBelowAuthority | app/src/main/java/com/example/android/hilt/contentprovider/LogsContentProvider.kt:33-35 | below the authority node, `logs` reaches LOGS, `logs/<digits>` reaches LOG_ID, and every other remaining path, longer ones included, reaches NO_MATCH |
| LogsProvider.MatchCharacterised | app/src/main/java/com/example/android/hilt/contentprovider/LogsContentProvider.kt:29-36 | UriMatcher.match on the provider's tree gives LOGS exactly for `<authority>/logs`, LOG_ID exactly for `<authority>/logs/<digits>` and NO_MATCH for everything else, including paths that continue past `logs/<digits>`; the two shapes are disjoint |
| LogsProvider.LogsContentUri | app/src/main/java/com/example/android/hilt/contentprovider/LogsContentProvider.kt:19-22 | `content://com.example.android.hilt.provider/logs` is the table URI |
| LogsProvider.UnknownUriMessage | app/src/main/java/com/example/android/hilt/contentprovider/LogsContentProvider.kt:106 | the unknown-URI message is "Cannot query unknown URI " followed by the text of the queried URI |
| LogsProvider.WithNotificationUri | app/src/main/java/com/example/android/hilt/contentprovider/LogsContentProvider.kt:110-113 | a null cursor stays null; any other cursor is returned unchanged, tagged with the queried URI |
| LogsProvider.Query | app/src/main/java/com/example/android/hilt/contentprovider/LogsContentProvider.kt:90-114 | no context throws IllegalStateException before routing, with no DAO call. `logs` makes exactly one selectAllLogsCursor call. `logs/<digits>` makes exactly one selectLogById call with the parsed number, or throws NumberFormatException past Long.MAX_VALUE. Any other URI throws the unknown-URI exception with no DAO call. The DAO's cursor comes back null-for-null and otherwise tagged with the URI. A DAO call is made exactly when the query succeeds |
| LogsProvider.GetType | app/src/main/java/com/example/android/hilt/contentprovider/LogsContentProvider.kt:125-127 | always throws "Only read operations allowed" for every URI and makes no DAO call |
| LogsProvider.Insert | app/src/main/java/com/example/android/hilt/contentprovider/LogsContentProvider.kt:137-139 | always throws "Only read operations allowed" for every argument and makes no DAO call |
| LogsProvider.Delete | app/src/main/java/com/example/android/hilt/contentprovider/LogsContentProvider.kt:153-155 | always throws "Only read operations allowed" for every argument and makes no DAO call |
| LogsProvider.Update | app/src/main/java/com/example/android/hilt/contentprovider/LogsContentProvider.kt:169-176 | always throws "Only read operations allowed" for every argument and makes no DAO call |
| LogsProvider.OnCreate | app/src/main/java/com/example/android/hilt/contentprovider/LogsContentProvider.kt:66-70 | loading always succeeds |
| LogsProvider.UnknownUriIsNotReadOnlyRefusal | app/src/main/java/com/example/android/hilt/contentprovider/LogsContentProvider.kt:106 | the unknown-URI refusal and the read-only refusal never carry the same message |
| LogsProvider.QueryOfAppendedId | app/src/main/java/com/example/android/hilt/contentprovider/LogsContentProvider.kt:105 | querying withAppendedId(`…/logs`, id) calls selectLogById with exactly id, for every non-negative long |
| LogsProvider.QueryOfNegativeAppendedId | app/src/main/java/com/example/android/hilt/contentprovider/LogsContentProvider.kt:103-106 | a negative appended id is not a `#` segment, so the query fails with no DAO call |
| LogsProvider.ExtraSegmentIsUnknownUri | app/src/main/java/com/example/android/hilt/contentprovider/LogsContentProvider.kt:103-106 | `…/logs/5/7` is an unknown URI: the query throws the unknown-URI error with no DAO call |
| LogsProvider.QueryLog42 | app/src/main/java/com/example/android/hilt/contentprovider/LogsContentProvider.kt:105 | `…/logs/42` calls selectLogById(42) |

## Left out

- `getLogDao` and the Hilt entry point `LogsContentProviderEntryPoint` (lines 39-59) are not modelled. The DAO is the `logDao` field of the application context passed to `Query`.
- Cursor contents and the content-resolver notification mechanism are not modelled. A cursor is an opaque handle. `setNotificationUri` is modelled as the returned value carrying the URI.
- `LogDao` is a collaborator whose implementation is not shown. It is a pair of functions giving the cursor each query returns. Its SQL is not modelled.
- Projection, selection, selection arguments and sort order are parameters of `Query` and are not used, as in the source.
- URI text parsing is not modelled. This covers percent-decoding, query strings and fragments. A URI is given already split into scheme, authority and decoded non-empty path segments, as `Uri.getPathSegments` returns them. `UriToString` renders only these parts for the error message.
- `addURI` is given its path already split at '/'. Its leading-slash stripping and `String.split` are not modelled. Its rejection of negative codes is covered by the type: codes are `nat`.
- A `#` child at the root, matched against a null authority (the platform throws on it), is not modelled. It cannot occur in this provider's tree, whose root child is the literal authority.
- `ParseLong` accepts only the ASCII digits '0'-'9'. `Long.parseLong` also accepts other Unicode decimal digits. Only ASCII digits reach it from a `#` segment.
- Threads and the context of the calling process are not modelled. Every entry point is a pure function.
- The UI (`ButtonsFragment.kt`) and test bootstrap (`CustomTestRunner.kt`) are outside the provider and not modelled.
