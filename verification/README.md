# tap-salesforce: the query builder, request and row shaping, in Dafny

tap-salesforce is a Singer tap that extracts Salesforce `ContentDocumentLink`
rows for one parent object type (`source`). Under each link it fetches the
`ContentNote` and the note's body. The pagination loop, retries, bookmark
bookkeeping and parent/child traversal belong to the Singer SDK. This model
covers the code the repository owns:

- **The incremental SOQL query** (`streams.dfy`, module `Streams`). It starts
  with a fixed projection and a sub-select over `source`, inserted as given.
  With a starting replication value it adds a filter: the value is parsed
  with `strptime('%Y-%m-%dT%H:%M:%S.%f%z')`, moved back two weeks and
  written with `strftime('%Y-%m-%dT%H:%M:%SZ')`. It always ends with
  ` ORDER BY SystemModstamp LIMIT 500`.
  - The parser and the formatter are in `timestamp.dfy` (module `Timestamp`).
  - The calendar arithmetic for the two weeks is in `calendar.dfy` (module
    `Calendar`).
- **The ContentDocumentLink stream** (class
  `Streams.ContentDocumentLinksStream`). It has a name, URL parameters built
  step by step, the request with its continuation-URL choice, and the context
  it hands to the child streams.
- **The child streams.** The note-body parser always yields one row, whose
  `Content` is null unless the status is 200. `post_process` drops rows with
  null content and tags the rest with `ContentDocumentId`. The note parser
  yields nothing unless the status is 200.
- **The REST client base** (`client.dfy`, class `Client.SalesforceStream`).
  - The constructor logs in once and keeps the token and `https://` + host.
  - It builds the bearer `Authorization` header and the credentials taken
    from the configuration.
  - Its response validator lets a 404 through and defers everything else to
    the SDK's validator.

`wrappers.dfy` holds `Option`, `Result`, `Outcome` and `Get` (Python's
`dict.get`).

The model takes these as parameters:
- the login call, as a function from the credentials to a token and host;
- the SDK's base URL parameters, base headers, URL, payload, base validator
  and record extraction;
- the starting replication value, as an `Option<string>`.

Python exceptions become `Result` failures:
- `TimeError.Malformed` for the `ValueError` raised by `strptime`;
- `TimeError.OutOfRange` for the `OverflowError` of a date before 0001-01-01;
- `StreamError.MissingKey` for a `KeyError`;
- `StreamError.NoContext` for `post_process` with no context.

A whole-second value such as `2024-01-15T00:00:00Z` has no fraction, so the
format at `tap_salesforce/streams.py:44` rejects it
(`WholeSecondBookmarkExample`). `%f` takes one to six fraction digits and `%z`
takes `+HHMM` or `+HH:MM`. So the same instant as Salesforce writes it, with
milliseconds and a numeric offset, `2024-01-15T00:00:00.000+0000`, filters
from `2024-01-01T00:00:00Z` (`MidJanuaryExample`).

`Streams.Query` is the `q` value the link stream builds (streams.py:40-47).
`Streams.BaseQuery` is its first line, and `Streams.LookbackClause` is the
filter of lines 44-45. They carry no contracts of their own. The `Query*`,
`Suffix*` and `FilterIffStart` lemmas below state what they compute.

## Model

| member | source | states |
|---|---|---|
| Wrappers.Get | tap_salesforce/client.py:46-48 | `dict.get`: present exactly when the key is, and then the stored value |
| Calendar.DaysInMonth | tap_salesforce/streams.py:44 | month lengths are 28 to 31, and 29 exactly for February of a leap year |
| Calendar.OrdinalInjective | tap_salesforce/streams.py:44 | distinct valid dates have distinct day numbers |
| Calendar.TwoWeeksEarlier | tap_salesforce/streams.py:44 | `- timedelta(weeks=2)` on the date: defined exactly when the day number exceeds 14; the result is a valid date whose day number is 14 smaller |
| Calendar.TwoWeeksEarlierIsUnique | tap_salesforce/streams.py:44 | any valid date 14 days before `d` is the one `TwoWeeksEarlier` returns |
| Calendar.RolloverExamples | tap_salesforce/streams.py:44 | month, year, leap-day and century rollovers, and the first 14 days of the calendar |
| Timestamp.ScanDateTime | tap_salesforce/streams.py:44 | `%Y-%m-%dT%H:%M:%S` accepted only as a valid date and time; every rejection is a ValueError |
| Timestamp.ParseOffset | tap_salesforce/streams.py:44 | `%z` gives an offset strictly within one day; every rejection is a ValueError |
| Timestamp.ParseBookmark | tap_salesforce/streams.py:44 | `strptime` with the bookmark format yields a valid aware datetime or a ValueError |
| Timestamp.NoFractionRejected | tap_salesforce/streams.py:44 | a value with no `.` (no fractional seconds) is a ValueError |
| Timestamp.ParseRenderedOffset | tap_salesforce/streams.py:44 | what `%z` writes reads back as the same offset |
| Timestamp.ParseRenderedBookmark | tap_salesforce/streams.py:44 | a datetime written in the bookmark format reads back unchanged |
| Timestamp.ParseShortFractionBookmark | tap_salesforce/streams.py:44 | a date and time written with a fraction of one to six digits (three for Salesforce's milliseconds) and an offset as `%z` writes it reads back, the fraction padded on the right to microseconds |
| Timestamp.ParseColonOffset | tap_salesforce/streams.py:44 | `%z` also accepts `+HH:MM` and `-HH:MM`, with the same value as without the colon |
| Timestamp.TwoWeeksBefore | tap_salesforce/streams.py:44 | fails (OverflowError) exactly when the day number is 14 or less; otherwise the date is 14 days earlier and time, microseconds and offset are kept |
| Timestamp.FormatZulu | tap_salesforce/streams.py:45 | `strftime('%Y-%m-%dT%H:%M:%SZ')` is 20 characters and reads back as the same date and time followed by `Z` |
| Timestamp.FormatZuluLayout | tap_salesforce/streams.py:45 | what it writes has the exact layout: 4 + 2 + 2 + 2 + 2 + 2 digits, with `-`, `-`, upper-case `T`, `:`, `:` and `Z` at indices 4, 7, 10, 13, 16 and 19 |
| Streams.QueryFrame | tap_salesforce/streams.py:40-47 | every query starts with the projection and the source verbatim, then `)`, and ends with the ordering suffix |
| Streams.QueryWithoutStart | tap_salesforce/streams.py:40-47 | with no starting value the query is exactly base + suffix and cannot fail |
| Streams.QueryWithStartFails | tap_salesforce/streams.py:42-45 | with a starting value the query fails exactly when it does not parse (ValueError) or is within 14 days of 0001-01-01 (OverflowError) |
| Streams.QueryWithStartFilters | tap_salesforce/streams.py:42-47 | `Query` otherwise is base + ` AND SystemModstamp > ` + stamp + suffix. The stamp has the `%Y-%m-%dT%H:%M:%SZ` layout and reads back as the bookmark's time of day on the date 14 days earlier |
| Streams.MissingFractionIsAnError | tap_salesforce/streams.py:44 | a starting value with no fractional seconds makes the query an error, not an unfiltered query |
| Streams.WholeSecondBookmarkExample | tap_salesforce/streams.py:44 | `2024-01-15T00:00:00Z` is rejected |
| Streams.OffsetIsIgnored | tap_salesforce/streams.py:44-45 | two bookmarks with the same date and time give the same query, whatever their fractions and UTC offsets |
| Streams.FilterIffStart | tap_salesforce/streams.py:41-47 | for a source without `>`, the query has a `>` comparison exactly when a starting value was given |
| Streams.SuffixOnlyAtEnd | tap_salesforce/streams.py:47 | after text without `B`, the appended suffix occurs nowhere but at its own position |
| Streams.SuffixOccursOnce | tap_salesforce/streams.py:40-47 | for a source without `B`, the ordering suffix occurs exactly once, at the end, after any filter |
| Streams.InjectedSourceRepeatsSuffix | tap_salesforce/streams.py:40 | the source is not escaped: a crafted source makes the suffix occur twice |
| Streams.QueryOfWrittenBookmark | tap_salesforce/streams.py:42-47 | a bookmark written in its own format filters from its date and time moved back 14 days |
| Streams.QueryOfShortFractionBookmark | tap_salesforce/streams.py:42-47 | a bookmark with a fraction of one to six digits filters from its date and time moved back 14 days |
| Streams.ZuluExample | tap_salesforce/streams.py:45 | a concrete date and time with a +05:30 offset is written `2023-12-27T08:30:05Z` |
| Streams.MidJanuaryExample | tap_salesforce/streams.py:42-47 | the millisecond bookmark `2024-01-15T00:00:00.000+0000` gives the filter `> 2024-01-01T00:00:00Z` |
| Streams.YearRolloverExample | tap_salesforce/streams.py:42-47 | the bookmark 2024-01-10T08:30:05.250000+0530 gives the filter `> 2023-12-27T08:30:05Z` |
| Streams.ContentDocumentLinksStream.constructor | tap_salesforce/streams.py:21-23 | keeps the source and logs in through the client base. The client keeps the configuration, the token the login returns, and `https://` + the returned host as instance URL |
| Streams.ContentDocumentLinksStream.Name | tap_salesforce/streams.py:32-34 | the name is `content_document_links_` followed by the source, as given |
| Streams.NamesIdentifySources | tap_salesforce/streams.py:32-34 | two link streams share a name exactly when they share a source, and no link stream has a child stream's name |
| Streams.ContentDocumentLinksStream.GetUrlParams | tap_salesforce/streams.py:36-49 | the base parameters with `q` set to the query; the query's error otherwise; no other parameter changes |
| Streams.ContentDocumentLinksStream.PrepareRequest | tap_salesforce/streams.py:51-66 | with a next-page token the URL is instance URL + token, otherwise the stream URL. Method, parameters (`q` included), headers and payload do not depend on the token |
| Streams.ContentDocumentLinksStream.GetChildContext | tap_salesforce/streams.py:68-70 | the child context is exactly `{ContentDocumentId: record[ContentDocumentId]}`; a KeyError when the record lacks it |
| Streams.StreamPathsShareApiVersion | tap_salesforce/streams.py:25 | the link query path and the note path prefix, on which `ChildPathsUseContextKey` builds both note paths, lie under the same `/services/data/v59.0/` API root |
| Streams.ChildPathsUseContextKey | tap_salesforce/streams.py:89-91 | the body path is the note path plus `/Content`, and both use the child-context key as their placeholder |
| Streams.ParseContentResponse | tap_salesforce/streams.py:93-100 | exactly one row with only `Content`: non-null exactly on status 200, and then the body text |
| Streams.ProcessedContentRow | tap_salesforce/streams.py:102-105 | null content is dropped. Non-null content with a context is always kept, with `ContentDocumentId` from the context (null if absent) and every other field unchanged. A missing `Content` key or context is an error |
| Streams.PostProcess | tap_salesforce/streams.py:102-105 | the step-by-step update yields exactly `ProcessedContentRow` |
| Streams.ParseNotesResponse | tap_salesforce/streams.py:128-130 | no rows unless the status is 200; then the rows the base extraction yields |
| Streams.NotFoundContentEmitsNothing | tap_salesforce/streams.py:93-105 | a 404 on a note body passes validation and emits no row, with any context |
| Streams.NotFoundNoteEmitsNothing | tap_salesforce/streams.py:128-130 | a 404 on a note passes validation and yields no row |
| Streams.BodyRowCarriesParentId | tap_salesforce/streams.py:68-105 | a 200 body fetched under a link emits exactly `{Content: text, ContentDocumentId: the link's id}` |
| Client.Bearer | tap_salesforce/client.py:41 | the header value is `Bearer ` followed by the token |
| Client.BearerInjective | tap_salesforce/client.py:78 | different tokens give different Authorization values |
| Client.SalesforceStream.GetCredentials | tap_salesforce/client.py:43-49 | exactly the keys `username`, `password` and `security_token`, each the configured value unchanged, or None when missing |
| Client.SalesforceStream.constructor | tap_salesforce/client.py:24-37 | logs in with the configured credentials; keeps the returned token, and `https://` + the returned host as the instance URL |
| Client.SalesforceStream.UrlBase | tap_salesforce/client.py:51-54 | the instance URL, unchanged, which starts with `https://` |
| Client.SalesforceStream.RestHeaders | tap_salesforce/client.py:39-41 | exactly one header, `Authorization: Bearer <token>` |
| Client.SalesforceStream.HttpHeaders | tap_salesforce/client.py:70-80 | all base headers, plus `Authorization` set to the same bearer value as the REST headers; no other header changes |
| Client.SalesforceStream.ValidateResponse | tap_salesforce/client.py:82-87 | a 404 passes whatever else the response holds; every other status gets the base validator's verdict |
| Client.NotFoundIsTheOnlyException | tap_salesforce/client.py:82-87 | among responses the base validator rejects, exactly the 404s pass |

## Left out

- The login network call (`SalesforceLogin`, client.py:31-36) is a parameter of the constructor. How it fails, times out or retries is not modelled.
- The SDK's parts are parameters or left out, since that code is not part of this model:
  - the base URL parameters, headers, URL (`get_url`), payload and validator;
  - JSONPath extraction (`records_jsonpath`, `next_page_token_jsonpath`) and the pagination loop;
  - `build_prepared_request` (modelled as the `Request` value it is handed);
  - retries and backoff;
  - how the starting replication value is read and advanced;
  - parent/child traversal order and `ignore_parent_replication_keys`.
- `authenticator` (client.py:58-68) builds an SDK `BearerTokenAuthenticator` from the token. That class is not part of this model. The header it would set is the one `HttpHeaders` sets.
- The fields `_credentials`, `_auth_header` and `login_timer` are set to None and never read, so they are not modelled.
- `primary_keys`, `replication_key`, `state_partitioning_keys`, `schema_filepath` and `SCHEMAS_DIR` are declarations for the SDK. Schema loading is not modelled.
- `tap_salesforce/tap.py` (configuration schema, CLI, stream registration) is not part of this model. As written, `discover_streams` builds `ContentDocumentLinksStream` without its `source` argument and never registers `ContentNoteContentsStream`.
- The code has no source allow-list or escaping, no "does not exist" sentinel check on note bodies, no catch-all around per-row processing, no page-level checkpointing and no 401/403 classification. The model has none either.
- Streams.SuffixOccursOnce: proved only for sources without the letter `B`. `InjectedSourceRepeatsSuffix` shows a source for which the suffix occurs twice.
- Streams.PostProcess: returns the tagged row instead of updating the caller's dictionary in place, so aliasing of that dictionary is not modelled.
- Record values are JSON null, booleans, integers and strings. Other JSON values do not occur in the fields these streams read or write. Configuration values are strings.
- Timestamp.ParseBookmark: digits are ASCII only. Python's `strptime` also accepts other Unicode decimal digits.
- Timestamp.FormatZulu: years are written with four digits. CPython's `%Y` on some platforms writes years below 1000 without zero padding.
- HTTP response decoding (`response.text`) is taken as the response's text field.
