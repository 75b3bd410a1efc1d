# tap-googleads: stream catalog, queries and hierarchy filtering

A Dafny model of the core of `tap-googleads`, a Singer tap. The tap extracts
Google Ads data through the Google Ads search API. The model covers three parts:

- **The stream catalog** (`tap_googleads/tap.py`, `tap_googleads/streams.py`).
  - Every stream class is one constructor of `Streams.StreamKind`. It carries its
    `name`, `primary_keys` and `parent_stream_type`.
  - `STREAM_TYPES` is the constant `Tap.StreamTypes`.
  - `discover_streams` is `Tap.DiscoverStreams`. It gives one node per catalog
    entry, and each node points at its parent by catalog index.
  - The lemmas prove that the parent links form a forest of depth at most two
    and are closed over the registered catalog. They also prove that names are
    unique, that exactly two streams are roots, and which classes are never
    discovered.
- **Query and path rendering** (`Queries`).
  - Each stream's `gaql` is a template: SELECT list, resource, WHERE clause and
    ORDER BY.
  - Each template is rendered with a start and an end literal.
  - The performance reports compute their start date inline:
    `datetime.now() - timedelta(days=performance_report_interval_days)`,
    formatted with `%Y-%m-%d` and wrapped in single quotes.
  - Python's proleptic Gregorian `date` arithmetic and its ISO formatting are in
    `Calendar`. Both conversions between ordinals and dates are proved to round
    trip, and so is the `YYYY-MM-DD` formatting.
  - The request path is `"/customers/" + customer_id + "/googleAds:search"`
    followed by the query-string prefix and the query.
- **Rows and child contexts** (`Records`).
  - `CustomerHierarchyStream.get_records` is a method with a loop. It
    post-processes each row, skips manager accounts, and stops with the lookup
    error at the first row that has no `customerClient.manager`.
  - The campaign performance `get_records` passes rows through unchanged.
  - Both `get_child_context` methods build their context from the configured
    `customer_id` alone.

Python's behaviour is modelled where it matters:

- `config.get` can return None.
  - In an f-string, None is printed as `None`.
  - `"customers/" + None` and `timedelta(days=None)` raise TypeError.
- A date outside years 1..9999 raises OverflowError.
- `row[key]` raises KeyError on a dict that lacks the key, and TypeError on any
  value that is not a dict.
- `x == True` also holds for `1` and `1.0`.
- A generator keeps the rows it has already yielded when it raises later.
  `Records.Outcome` records both.

## Model

| member | source | states |
|---|---|---|
| Json.Get | tap_googleads/streams.py:106 | `row[key]` succeeds exactly on a dict that holds the key and gives that field; it raises TypeError exactly when the value is not a dict, otherwise KeyError |
| Calendar.ToOrdinal | tap_googleads/streams.py:242-245 | `date.toordinal()`: a valid date's day number lies after all days of earlier years and within its own year |
| Calendar.FromOrdinal | tap_googleads/streams.py:242-245 | `date.fromordinal(n)` for n in 1..3652059 gives a year in 1..9999, a month in 1..12 and a day in 1..31; `OrdinalRoundTrip` states the rest |
| Calendar.OrdinalRoundTrip | tap_googleads/streams.py:242-245 | every day number in 1..3652059 converts to a valid date whose day number is the original one |
| Calendar.DateRoundTrip | tap_googleads/streams.py:242-245 | every valid date has a day number in range, and converting that number back gives the same date |
| Calendar.OrdinalInRange | tap_googleads/streams.py:242-245 | every valid date has a day number between 1 and 3652059 |
| Calendar.OrdinalInjective | tap_googleads/streams.py:242-245 | two valid dates with the same day number are equal |
| Calendar.MinusDays | tap_googleads/streams.py:242-244 | `date - timedelta(days=n)` succeeds exactly when the result's day number is in range; the result is then valid and lies exactly n days earlier |
| Calendar.ZeroPadRoundTrip | tap_googleads/streams.py:245 | reading a zero-padded decimal field back gives the number |
| Calendar.FormatIsoDate | tap_googleads/streams.py:245 | `%Y-%m-%d` yields ten characters: digits, with dashes at positions 4 and 7 |
| Calendar.ParseIsoDate | tap_googleads/streams.py:245 | only a valid date is ever read back from text |
| Calendar.IsoDateRoundTrip | tap_googleads/streams.py:245 | parsing a formatted date gives the date back |
| Calendar.IsoDateInjective | tap_googleads/streams.py:245 | distinct dates are formatted differently |
| Streams.ParentKind | tap_googleads/streams.py:72 | the hierarchy stream's parent is AccessibleCustomers; every report's parent is the hierarchy stream (line 142); AccessibleCustomers and GeotargetsStream (line 137) have none; each link goes up exactly one level |
| Streams.Name | tap_googleads/streams.py:22-487 | every class's `name` attribute, each starting with `stream_` |
| Streams.PrimaryKeys | tap_googleads/streams.py:23-496 | every class's `primary_keys` attribute, never empty |
| Streams.NameInjective | tap_googleads/streams.py:22-487 | distinct stream classes declare distinct `name`s |
| Streams.PrimaryKeysWellFormed | tap_googleads/streams.py:23-496 | no class names a field twice in its `primary_keys` |
| Queries.TemplateOf | tap_googleads/streams.py:55-513 | every stream's `gaql` template selects at least one field from a named resource; only report streams select a date range |
| Queries.DatedStreamsKeyByDate | tap_googleads/streams.py:241-513 | a stream's `primary_keys` include `segments__date` exactly when its query selects a date range |
| Queries.StartDateLiteral | tap_googleads/streams.py:242-245 | a missing interval raises TypeError; otherwise the literal exists exactly when the start date is in range (else OverflowError), and it is 12 characters, quoted at both ends, naming the date exactly N days before today |
| Queries.StartDateExample | tap_googleads/streams.py:242-245 | on 2024-03-10 with a 30-day interval the literal is `'2024-02-09'` |
| Queries.Gaql | tap_googleads/streams.py:241-255 | rendering a stream's query fails exactly when its template starts at the inline lookback date and that date fails, and then with that date's error |
| Queries.LookbackReports | tap_googleads/streams.py:241-254 | the streams that compute the start date inline are exactly AdsPerformance, AdGroupsPerformance, AdGroupsHourlyPerformance, CampaignPerformance, CampaignHourlyPerformance and AssetGroupPerformance |
| Queries.RenderedRangeFilter | tap_googleads/streams.py:254 | a rendered dated template carries `segments.date >= <start> <conj> segments.date <= <end>` immediately after ` WHERE ` |
| Queries.GaqlRangeFilter | tap_googleads/streams.py:254 | every dated query contains the range filter with its start literal (the inline lookback or the client's `start_date`) and the client's `end_date` substituted verbatim |
| Queries.Path | tap_googleads/streams.py:149-153 | AccessibleCustomers has its fixed path; every other path fails exactly when its query fails |
| Queries.PathLayout | tap_googleads/streams.py:47-51 | a search path is `/customers/`, the configured id (or `None`), `/googleAds:search`, then `?pageSize=10000&query=` for GeotargetsStream (lines 121-127) and `?query=` for every other stream, and the query, in that order |
| Records.IsManagerRow | tap_googleads/streams.py:106 | the manager test succeeds exactly when `customerClient.manager` is present, and is then true exactly when the flag equals True |
| Records.GetHierarchyRecords | tap_googleads/streams.py:103-108 | the loop yields what `HierarchyOutcome` specifies for the post-processed rows and the request's failure |
| Records.FirstBadRow | tap_googleads/streams.py:106 | the first row whose flag lookup raises, every row before it passing the lookup |
| Records.HierarchyOutcomeSpec | tap_googleads/streams.py:103-108 | the hierarchy stream yields exactly the non-manager rows before the first row without a flag, in order, then fails with that row's lookup error, or else with the request's failure |
| Records.NonManagerRowsSound | tap_googleads/streams.py:106-108 | the kept rows are input rows whose flag is present and not True, and there are no more of them than input rows |
| Records.NonManagerRowsComplete | tap_googleads/streams.py:106-108 | every input row whose flag is present and not True is kept |
| Records.NonManagerRowsAppend | tap_googleads/streams.py:103-108 | filtering two batches of rows one after the other equals filtering them together |
| Records.HierarchyRecordsAreNonManagers | tap_googleads/streams.py:103-108 | the output is never longer than the input and never contains a manager row; when every row has its flag, every non-manager row is yielded and only the request's failure can surface |
| Records.PassThroughRecords | tap_googleads/streams.py:330-337 | the campaign performance generator yields the fetched rows unchanged and re-raises the request's error |
| Records.AccessibleCustomersChildContext | tap_googleads/streams.py:29-31 | fails with TypeError exactly when no customer id is configured; otherwise its only key is `resourceNames`, holding one name, `customers/` followed by the id |
| Records.HierarchyChildContext | tap_googleads/streams.py:110-112 | its only key is `customer_id`, holding the configured id as text when one is configured and None otherwise |
| Records.ChildContextsIgnoreRecord | tap_googleads/streams.py:29-31 | neither stream's child context depends on the record or the parent context (also lines 110-112) |
| Records.HierarchyChildContexts | tap_googleads/streams.py:110-112 | one child context per yielded record |
| Records.HierarchyContextsCollapse | tap_googleads/streams.py:110-112 | the hierarchy's contexts form the empty set when it yields no row, and otherwise the one configured-customer context |
| Records.ManagerRootExample | tap_googleads/streams.py:103-112 | a manager root followed by client 123 yields just the client's row and a single child context |
| Tap.IndexOf | tap_googleads/tap.py:74-76 | the first catalog position of a class, or none exactly when the class is not registered |
| Tap.DiscoverStreams | tap_googleads/tap.py:74-76 | one stream per catalog entry, in order, each with its class's name and primary keys; a parent link points at an entry of the declared parent class, and is missing exactly when no parent is declared or the parent is not registered |
| Tap.DiscoveredLinksGoUp | tap_googleads/streams.py:137-142 | in any discovered list, each parent link stays in the list and goes up exactly one level |
| Tap.AncestorDepth | tap_googleads/streams.py:137-142 | climbing n parent links lowers the level by exactly n |
| Tap.DiscoveredForest | tap_googleads/streams.py:137-142 | no chain of parent links is longer than two, and no stream is its own ancestor |
| Tap.DiscoveredNamesDistinct | tap_googleads/tap.py:74-76 | a catalog that lists no class twice yields streams with pairwise distinct names |
| Tap.RegisteredCount | tap_googleads/tap.py:24-38 | discovery yields 13 streams, one per `STREAM_TYPES` entry, in order |
| Tap.StreamTypesDistinct | tap_googleads/tap.py:24-38 | `STREAM_TYPES` lists no class twice |
| Tap.RegisteredNamesDistinct | tap_googleads/tap.py:24-38 | the registered stream names are pairwise distinct |
| Tap.AccessibleCustomersPosition | tap_googleads/tap.py:29 | AccessibleCustomers is registered, first found at position 4 |
| Tap.CustomerHierarchyPosition | tap_googleads/tap.py:30 | CustomerHierarchyStream is registered, first found at position 5 |
| Tap.RegisteredParentsClosed | tap_googleads/tap.py:29-30 | the declared parent of every registered stream is registered, and the stream's parent link is set |
| Tap.RootPositions | tap_googleads/tap.py:24-38 | only positions 4 and 11 hold classes without a parent, and only position 5 holds the hierarchy stream |
| Tap.RegisteredRoots | tap_googleads/tap.py:24-38 | exactly two discovered streams are roots: AccessibleCustomers (4) and GeotargetsStream (11) |
| Tap.RegisteredParentLinks | tap_googleads/tap.py:24-38 | the hierarchy stream links to AccessibleCustomers, every report links to the hierarchy stream, the two roots link nowhere |
| Tap.RegisteredDescendFromAccessibleCustomers | tap_googleads/tap.py:24-38 | every registered stream except GeotargetsStream descends from AccessibleCustomers: the hierarchy stream in one link, the reports in two |
| Tap.UnregisteredStreams | tap_googleads/tap.py:24-38 | AdsStream, AdsPerformance and AssetGroupPerformance are never discovered |

## Left out

- HTTP requests, OAuth, the developer token and pagination are left out. They belong to the client module and the Singer SDK, which are not part of this model.
- `request_records` becomes the input `Records.Fetched`: the rows it yields, and the error it raises after them, if any.
- `post_process` becomes a function parameter.
- The wall clock is a parameter: `datetime.now()` becomes the date `today`. The time of day is not modelled because `%Y-%m-%d` drops it.
- The client's `start_date` and `end_date` properties are opaque text in `Queries.ClientWindow`. They are defined outside the modelled files.
- Each run of whitespace inside a GAQL template becomes one space, and the whitespace at the template's start and end is dropped. So a modelled query, and the path that carries it, starts with `SELECT`, where the source's starts with a line break and indentation. The API treats all whitespace alike.
- The SELECT lists are kept as literal data. Nothing checks that each primary key is among a stream's selected columns.
- `Calendar.FormatIsoDate` always pads the year to four digits. Some C libraries print years below 1000 without padding. Those years lie more than a thousand years back and never occur with a sensible interval.
- The Singer SDK's handling of child contexts is not modelled: scheduling child syncs, removing duplicate contexts, flattening records into `__`-joined keys and extracting primary keys. `Records.HierarchyContextsCollapse` states only that every context is the same one.
- `Tap.DiscoverStreams`: the SDK links a child to its parent by the parent's class. The model links it to the first catalog entry of that class, which is the same thing in a catalog without repeats (`Tap.StreamTypesDistinct`).
- JSON-schema construction (`config_jsonschema`, schema files), logging and the `TapGoogleAds` class itself are not modelled.
- `performance_report_interval_days` is a Python integer: the model accepts any `int`, including negatives, or a missing value. `customer_id` is any string or missing. Values that break the declared types are not modelled.
- Metric values such as rates and costs are floats in the API. `Json.JNum` holds them as exact reals. IEEE rounding and special values such as NaN are not modelled, and the model does no arithmetic on them.
