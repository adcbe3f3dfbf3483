# Convoy webhook core, modelled in Dafny

Convoy is a webhooks gateway. This project models the parts of it that hold
the decisions, as pure functions over immutable datatypes, and proves
properties about them:

- **Basic authentication** of the HTTP server: how an `Authorization` header
  is split, how the scheme is matched and how the base64 payload becomes a
  user name and password (`basic_auth.dfy`). Go's padded standard base64
  codec is modelled too (`base64.dfy`).
- **The Postgres event repository:**
  - the batching of event-to-endpoint rows into inserts of 30000;
  - the ascending rewrite of the keyset page queries;
  - the filter composition, page trimming and previous-row count of
    `LoadEventsPaged` (`event_repo.dfy`, `paging.dfy`).
- **The SQLite subscription repository:**
  - empty configurations normalised to nil;
  - the batch loops that load subscription configurations by cursor;
  - the broadcast loop;
  - the guards of create, update and delete;
  - the paged listing and the nil short-circuit of the filter tests
    (`subscription_repo.dfy`, `keys.dfy`).
- **The document-store migrations**, each as the per-record transform it
  applies, with its rollback (`migrations.dfy`).
- **The dashboard's event handlers**: the delivery-status filter, endpoint
  selection, the time window and the delivery-attempt lookup
  (`dashboard_event.dfy`).
- **Configuration loading**: the environment overrides, the required
  variable combinations, the authorized-user map and the stored singleton
  (`config.dfy`).
- **Feature flags**: the `can_create_cli_api_key` gate and the middleware
  that maps its errors to HTTP statuses (`fflag.dfy`).
- **Four dashboard components**, the project shell, the create-project
  wizard, the subscriptions page and the application details page
  (`project_view.dfy`, `create_project.dfy`, `subscriptions_view.dfy`,
  `app_details.dfy`). Each asynchronous handler is the state it leaves once
  its response has arrived.

Everything that talks to the outside world is a parameter:
- database queries and their results, row counts, affected-row numbers;
- the clock, fresh ids, `time.Parse`/`time.ParseDuration`;
- JSON flattening and comparison;
- the feature-flag service;
- HTTP responses to the dashboard.

A database table is a sequence of rows sorted by id, compared as SQLite
compares text. A query with cursor `c` and limit `n` returns the first `n`
selected rows whose id is above `c`.

## Model

Source paths are relative to the repository root. The dashboard components
live under `web/ui/dashboard/src/app/private/pages/`, written in full below.

| member | source | states |
|---|---|---|
| BasicAuth.ParseAuthorization | server/auth.go:38-70 | A header whose split on single spaces does not give exactly two parts is "invalid header structure". A first part that does not upper-case to BASIC is an unknown credential type that carries the upper-cased scheme. Otherwise the outcome is that of decoding the payload. |
| BasicAuth.ParsePayload | server/auth.go:50-65 | Succeeds exactly when the payload is valid base64 whose decoding holds exactly one colon. The credential's user and password are then colon-free and rejoin with `:` into the decoded bytes. Any failure is "invalid credentials". |
| BasicAuth.SplitCredentials | server/auth.go:55-65 | The decoded bytes split into a Basic credential exactly when they hold one colon. User name and password are the parts before and after it. |
| BasicAuth.ToUpper | server/auth.go:46 | Same length as the input, and each character upper-cased (ASCII letters only). |
| BasicAuth.StructureIffOneSpace | server/auth.go:40-44 | The structural error happens exactly when the header does not contain exactly one space. |
| BasicAuth.BasicSchemeParse | server/auth.go:46-50 | After a scheme that upper-cases to BASIC, in any letter case, the outcome depends only on the payload. |
| BasicAuth.BadBase64Rejected | server/auth.go:50-53 | A payload that is not valid base64 gives "invalid credentials". |
| BasicAuth.EmptyHeaderRejected | server/auth.go:39-44 | A missing (empty) header is structurally invalid. |
| BasicAuth.SchemeCaseInsensitive | server/auth.go:46-48 | Two schemes that upper-case alike give the same outcome for every payload. |
| BasicAuth.OtherSchemeRejected | server/auth.go:67-68 | Any other scheme is refused, naming the upper-cased scheme, whatever the payload. |
| BasicAuth.RoundTrip | server/auth.go:38-65 | A Basic header carrying the encoding of `user:password` parses back to exactly that user and password when neither contains a colon. |
| BasicAuth.ColonInPasswordRejected | server/auth.go:55-59 | A password that contains a colon can never be sent: its header is refused as invalid credentials. |
| Base64.Encode | server/auth.go:50 | The encoding is 4 characters per started 3-byte group, all from the alphabet or padding (the inverse used to state the decoder's round trip). |
| Base64.DecodeEncode | server/auth.go:50 | Decoding the standard padded encoding of any bytes gives those bytes back. |
| Base64.ValueOf | server/auth.go:50 | A character's value is the one whose alphabet character it is, and characters outside the alphabet have none. |
| Base64.StripLineBreaks | server/auth.go:50 | The decoder ignores CR and LF: the result holds none of them and is unchanged when there were none. |
| Base64.DecodeQuantum | server/auth.go:50 | A 4-character group decodes to 1-3 bytes. Fewer than 3 only with padding in the final group, and success exactly when the characters and padding are well placed. |
| Base64.DecodeQuanta | server/auth.go:50 | A successful decoding consumes whole 4-character groups and yields at most 3 bytes per group. |
| EventRepo.InsertBatches | database/postgres/event.go:238-255 | The insert loop's batches are exactly the reference chunking of the event's join rows. They are 30000 rows each except a shorter last one, none empty, every row carries the event id, and there are none exactly when the event has no endpoints. |
| EventRepo.Chunks | database/postgres/event.go:238-255 | The reference chunking: the chunks concatenate to the input, none is empty or longer than the size, and all but the last have exactly the size. |
| EventRepo.ChunkingUnique | database/postgres/event.go:238-255 | Two slicings of one list with that shape are equal: the chunking is determined by the list. |
| EventRepo.Rows | database/postgres/event.go:246-249 | One join row per endpoint, in order, each carrying the event's id. |
| EventRepo.AscendingFlipsCursorComparison | database/postgres/event.go:120-140 | For ascending order the first-occurrence replacement flips only the keyset comparison and leaves the rest of the templates intact. Forward pages read ids at or above the cursor, backward pages ids at or below it, and the count looks at smaller ids. |
| EventRepo.ForwardPageQuery | database/postgres/event.go:569-575 | Descending order keeps the forward template. Ascending replaces its first `<=` by `>=`. |
| EventRepo.BackwardPageQuery | database/postgres/event.go:577-583 | Descending order keeps the backward template. Ascending replaces its first `>=` by `<=`. |
| EventRepo.CountPrevRowQuery | database/postgres/event.go:585-591 | Descending order keeps the previous-row count. Ascending replaces its first `>` by `<`. |
| EventRepo.EffectiveEndpointIDs | database/postgres/event.go:375-377 | The filter's endpoint list stays as a prefix. The only other member is the single endpoint id, added exactly when the emptiness test `blank` does not reject it. The list is empty exactly when the filter's list is empty and the single id is blank. |
| EventRepo.FilterAfterLoad | database/postgres/event.go:375-377 | On every path the load writes the effective endpoint list back into the caller's filter and changes nothing else in it. |
| EventRepo.ReusedFilterRepeatsEndpoint | database/postgres/event.go:375-377 | A caller that passes the same filter to a second load sees the single endpoint id appended again, so the second query names it twice. |
| EventRepo.Fragments | database/postgres/event.go:399-412 | The base filter comes first and only once. The source and endpoint fragments are present exactly when their lists are non-empty, and the search fragment exactly when the query is not blank. |
| EventRepo.Table | database/postgres/event.go:409-412 | The search table is used exactly when the query is not blank. |
| EventRepo.BuildPageQuery | database/postgres/event.go:391-419 | The template follows the direction, the order is reversed before paging backwards, and the fragments and table follow the filter. |
| EventRepo.BuildCountQuery | database/postgres/event.go:449-463 | The count query restarts from the first row's id, with the same fragments and table, using the previous-row template for the sort order. |
| EventRepo.LoadEventsPaged | database/postgres/event.go:369-503 | Succeeds exactly when the page query succeeds and, for a non-empty page, the count query too. A failed page query's error is returned. On success every fetched id goes to the pagination and the look-ahead row is dropped from the content. The count is read only for a non-empty page, and a count query with no row leaves zero. |
| EventRepo.LoadedPageIsPrefix | database/postgres/event.go:465-503 | A loaded page is the fetched rows in order, one shorter exactly when more rows than the page size came back. The ids cover every fetched row, and the page's own events come first among them. |
| Paging.TrimPage | database/postgres/event.go:490-497 | Ids are those of every fetched row, in order. With more rows than the page size exactly the last row is dropped, otherwise all rows are kept. |
| SubscriptionRepo.NullifyEmptyConfigSpec | database/sqlite3/subscription.go:807-825 | A configuration becomes nil exactly when it is nil or equals its zero value. Present ones and every other field are kept, the result has no zero-valued configuration, and normalising is idempotent. |
| SubscriptionRepo.NullifyIdempotent | database/sqlite3/subscription.go:813-825 | Normalising twice is normalising once. |
| SubscriptionRepo.CeilDiv | database/sqlite3/subscription.go:306 | The batch count is the least number of pages that covers the count. |
| SubscriptionRepo.CollectBatches | database/sqlite3/subscription.go:302-344 | The batch loop only extends what it has collected and never beyond the preallocated count. Writing past it is the index-out-of-range panic. |
| SubscriptionRepo.LoadSelected | database/sqlite3/subscription.go:282-300 | No project ids, or a zero count, gives the empty list. Otherwise the result has at most `count` rows. |
| SubscriptionRepo.LoadCounted | database/sqlite3/subscription.go:373-395 | With no project ids the count query is not issued and the result is empty. A failed count is returned as a database error. A successful one leads to the batch loop, which on an id-ordered table loads a normalised start of the selection. |
| SubscriptionRepo.LoadAllSubscriptionConfig | database/sqlite3/subscription.go:282-345 | On an id-ordered table the result is the start of the live subscriptions of the given projects, normalised, and all of them when the count covers them. No projects or a zero count gives the empty list, and a failed count query with projects given is a database error. |
| SubscriptionRepo.FetchUpdatedSubscriptions | database/sqlite3/subscription.go:274-276 | The same for live subscriptions updated after the given time, including the failed count query. |
| SubscriptionRepo.FetchDeletedSubscriptions | database/sqlite3/subscription.go:278-280 | The same for subscriptions deleted after the given time, including the failed count query. |
| SubscriptionRepo.LoadSelectedCorrect | database/sqlite3/subscription.go:373-435 | On an id-ordered table the loop returns a normalised prefix of the selected rows. Restarting each batch from the last collected id loses and repeats nothing, so it returns the whole selection when the count covers it. |
| SubscriptionRepo.LoadSelectedSorted | database/sqlite3/subscription.go:399-434 | The loaded configurations come out in strictly increasing id order, hence without duplicates. |
| SubscriptionRepo.CollectBatchesComplete | database/sqlite3/subscription.go:308-342 | With enough batches and a count that covers the selection, the batch loop collects all of it, normalised. |
| SubscriptionRepo.CollectBatchesPrefix | database/sqlite3/subscription.go:308-342 | Loop invariant: what has been collected is always a normalised prefix of the selection. |
| SubscriptionRepo.AfterSuffix | database/sqlite3/subscription.go:424-426 | Restarting the query from the k-th selected row's id yields exactly the selected rows after it. |
| SubscriptionRepo.AfterSorted | database/sqlite3/subscription.go:116-127 | The rows a query selects from an id-ordered table are id-ordered. |
| SubscriptionRepo.BroadcastComplete | database/sqlite3/subscription.go:347-371 | On an id-ordered table the broadcast loop returns every live subscription of the project whose event types hold the type or `*`, normalised and in id order. This holds for a positive page size and for a negative one, which SQLite reads as no limit. It terminates, and a zero page size returns nothing. |
| SubscriptionRepo.LimitRows | database/sqlite3/subscription.go:351 | The page size bound as LIMIT admits that many rows when it is non-negative. A negative one admits more rows than the table holds. |
| SubscriptionRepo.BroadcastFromComplete | database/sqlite3/subscription.go:351-368 | From the k-th selected row on, the loop collects exactly the rest of the selection. |
| SubscriptionRepo.PageAdvances | database/sqlite3/subscription.go:362-367 | Each non-empty page moves the cursor to an id with fewer rows above it, so the loop ends. |
| SubscriptionRepo.PrepareFilter | database/sqlite3/subscription.go:460-470 | The body is flattened first, then the headers, each failure with its own message. On success the filter is marked flattened, keeps its event types and holds exactly the flattened documents. |
| SubscriptionRepo.NullIfEmpty | database/sqlite3/subscription.go:447-458 | A nullable column is NULL exactly for a string the emptiness test `blank` rejects, and otherwise holds the string. |
| SubscriptionRepo.InsertRowFor | database/sqlite3/subscription.go:472-479 | The insert writes endpoint, source and device ids as NULL when blank, and the prepared filter. |
| SubscriptionRepo.UpdateRowFor | database/sqlite3/subscription.go:514-537 | The update writes the endpoint id as given and only the source id as NULL when blank. |
| SubscriptionRepo.ReadBack | database/sqlite3/subscription.go:493-503 | A missing row is "not found" and a failed fetch is a database error. A found row is returned normalised, and only a found row succeeds. |
| SubscriptionRepo.CreateSubscription | database/sqlite3/subscription.go:437-506 | A subscription of another project is refused. A flattening failure is passed on. A failed insert is a database error, an insert that touches no row is "could not be created", and one that touches a row returns the stored row read back. Success means all of these steps held. |
| SubscriptionRepo.UpdateSubscription | database/sqlite3/subscription.go:508-564 | A flattening failure is passed on. A failed update is a database error, an update that touches no row is "could not be updated", and one that touches a row returns the row read back. Success means all of these steps held. |
| SubscriptionRepo.WrittenSubscriptionIsNormalised | database/sqlite3/subscription.go:493-503 | What a successful create or update returns is normalised, has no zero-valued configuration, and carries the id of the row it was read back from. |
| SubscriptionRepo.CreateUpdateAgree | database/sqlite3/subscription.go:437-564 | Within the caller's project, a create and an update that each touch one row both end with the same read-back result. |
| SubscriptionRepo.DeleteSubscription | database/sqlite3/subscription.go:670-686 | Succeeds exactly when the soft delete touched at least one row. Zero rows is "could not be deleted", and a failed statement or row count is returned as the database error. |
| SubscriptionRepo.BuildSubscriptionPageQuery | database/sqlite3/subscription.go:570-594 | Forward exactly for the Next direction. The project fragment comes first and only once. The endpoint fragment is present exactly when endpoint ids are given, and the name fragment exactly when the name is not blank. The name pattern is `%name%`. |
| SubscriptionRepo.LoadSubscriptionsPaged | database/sqlite3/subscription.go:566-668 | Succeeds exactly when the page query succeeds and, for a non-empty page, the count query too. A failed page query's error is returned. Rows are normalised as scanned. All ids go to the pagination, the look-ahead row is dropped from the content, and the count query reuses the filter with the first row's id as cursor. |
| SubscriptionRepo.LoadedSubscriptionPageIsPrefix | database/sqlite3/subscription.go:600-668 | A loaded page is the normalised rows in order, one shorter exactly when more rows than the page size came back. Every subscription on it is normalised, and the ids cover every fetched row, the page's own first. |
| SubscriptionRepo.TestSubscriptionFilter | database/sqlite3/subscription.go:765-789 | A nil payload or filter matches without flattening. A payload that fails to flatten returns that flatten error unchanged. A filter that is not pre-flattened is flattened, and its failure is passed on. A filter that is not a flat map is an "unknown type" error. Otherwise the result is the comparison of the flattened payload with the (flattened) filter. |
| SubscriptionRepo.CompareFlattenedPayload | database/sqlite3/subscription.go:791-805 | A nil side matches. A pre-flattened filter is compared directly. Otherwise it is flattened first and a failure is passed on. |
| SubscriptionRepo.TestAgreesWithCompareFlattened | database/sqlite3/subscription.go:765-805 | With a flat-map filter and a payload that flattens, testing decides exactly as comparing the flattened payload does. |
| Migrations.SecondsToNanos | internal/pkg/migrate/migrations.go:99-104 | Parsing `<n>s` gives n seconds in nanoseconds exactly when that fits a signed 64-bit duration, and fails otherwise. |
| Migrations.MigrateRateLimit | internal/pkg/migrate/migrations.go:50-73 | A group without configuration or rate limit is kept as it is. A duration string becomes its whole seconds, or the default when it does not parse. |
| Migrations.RollbackRateLimit | internal/pkg/migrate/migrations.go:93-116 | Seconds become the same time in nanoseconds. Exactly a value too large for a duration ends the process. |
| Migrations.MigrateRateLimits | internal/pkg/migrate/migrations.go:50-73 | Every group is migrated, in order. |
| Migrations.RollbackRateLimits | internal/pkg/migrate/migrations.go:93-116 | Succeeds exactly when every group can be rolled back, and then rolls back each one in order. |
| Migrations.RateLimitRoundTrip | internal/pkg/migrate/migrations.go:23-122 | A duration that parses to n seconds comes back from the rollback as the same length of time. |
| Migrations.MigrateRetry | internal/pkg/migrate/migrations.go:148-171 | A subscription without retry configuration is kept as it is. A retry duration becomes whole seconds, or the default strategy's. |
| Migrations.RollbackRetry | internal/pkg/migrate/migrations.go:203-234 | Missing, null and textual durations are skipped. An integer becomes the text of that many seconds. The process ends exactly for an integer too large for a duration or a value that is not an integer (which `%d` cannot render). |
| Migrations.MigrateRetries | internal/pkg/migrate/migrations.go:148-171 | Every subscription is migrated, in order. |
| Migrations.RollbackRetryIdempotent | internal/pkg/migrate/migrations.go:212-214 | Rolling back twice is rolling back once, because the second pass finds only text. |
| Migrations.RetryRoundTrip | internal/pkg/migrate/migrations.go:125-240 | A retry duration that parses to n seconds is written back as the rendering of n seconds. |
| Migrations.AddDefaultConfig | internal/pkg/migrate/migrations.go:257-269 | An unconfigured group gets the default configuration and a configured one is left alone. |
| Migrations.RemoveConfig | internal/pkg/migrate/migrations.go:300-311 | The rollback removes every configuration and keeps the group. |
| Migrations.DefaultConfigRoundTrip | internal/pkg/migrate/migrations.go:243-324 | An unconfigured group is restored exactly, and adding defaults is idempotent. |
| Migrations.MoveSecret | internal/pkg/migrate/migrations.go:339-353 | An endpoint with a secret gets it appended to its secrets with the given id and timestamps, and loses advanced signatures. Nothing else changes, and an endpoint without a secret is untouched. |
| Migrations.RestoreSecret | internal/pkg/migrate/migrations.go:385-400 | An endpoint with secrets gets the newest one's value back, an empty list and advanced signatures off. One without secrets is untouched. |
| Migrations.MoveSecrets | internal/pkg/migrate/migrations.go:339-353 | Each endpoint of the application is migrated and nothing else changes. |
| Migrations.RestoreSecrets | internal/pkg/migrate/migrations.go:385-400 | Each endpoint of the application is rolled back and nothing else changes. |
| Migrations.SecretRoundTrip | internal/pkg/migrate/migrations.go:326-420 | Migrating and rolling back returns the same secret with the list empty and advanced signatures off. An endpoint with no list, and either no secret or no advanced signatures, comes back exactly. |
| Migrations.SecretsRoundTrip | internal/pkg/migrate/migrations.go:326-420 | The same for a whole application. |
| Migrations.AddVersion | internal/pkg/migrate/migrations.go:436-448 | A nil signature configuration panics. A group with versions is untouched. Otherwise exactly one version is added, holding the hash, hex-encoded, with the given id and time. |
| Migrations.UnsetHashAndEncoding | internal/pkg/migrate/migrations.go:463-470 | Hash and encoding are unset and the versions are kept. |
| Migrations.MigrateSignatures | internal/pkg/migrate/migrations.go:436-470 | Fails exactly when some group has a nil signature configuration. Otherwise every group gets its version and loses hash and encoding. |
| Migrations.RestoreHash | internal/pkg/migrate/migrations.go:491-517 | A nil configuration panics. A group with versions gets the first version's hash back and loses the versions. One without versions is untouched. |
| Migrations.SignatureRoundTrip | internal/pkg/migrate/migrations.go:422-529 | A group without versions gets its hash back, but not its encoding, which nothing restores. |
| Migrations.ClearOldDeletion | internal/pkg/migrate/migrations.go:554-567 | `deleted_at` becomes null exactly when it was missing, null or at most the cutoff (`time.Date(1971, 0, 0)`, that is 1970-11-30). All else is unchanged. |
| Migrations.RestoreDocumentStatus | internal/pkg/migrate/migrations.go:597-606 | A document with null or missing `deleted_at` loses it and becomes Active. Others are untouched. |
| Migrations.MigrateDocumentStatus | internal/pkg/migrate/migrations.go:554-567 | Every document is migrated, in order. |
| Migrations.DocumentStatusRoundTrip | internal/pkg/migrate/migrations.go:531-617 | After the migration no document lacks `deleted_at`, and migrating again changes nothing. A document deleted after the cutoff is untouched both ways, and one without `deleted_at` comes back without it, marked Active. |
| Migrations.EventTypesFilter | internal/pkg/migrate/migrations.go:640-648 | The lone wildcard gives the empty filter and a single type an exact match. Any other list, empty or longer, gives an `$in` match. |
| Migrations.EventTypesFilterAccepts | internal/pkg/migrate/migrations.go:637-661 | The filter accepts exactly the types the subscription listed, and the lone wildcard accepts all. |
| Migrations.ConvertEventTypes | internal/pkg/migrate/migrations.go:650-656 | Only the filter changes, and it becomes the event-type filter. |
| Migrations.RemoveFilter | internal/pkg/migrate/migrations.go:665-682 | Only the filter changes, and it is unset. |
| Migrations.EventTypesRoundTrip | internal/pkg/migrate/migrations.go:619-683 | A subscription that had no filter comes back exactly. |
| Migrations.FirstOf | internal/pkg/migrate/migrations.go:711-717 | The first element of a present, non-empty list, and nothing otherwise. |
| Migrations.ScalarizeRole | internal/pkg/migrate/migrations.go:709-732 | The first group and app become the scalar fields, an empty list setting nothing, and both lists are unset. |
| Migrations.ListifyRole | internal/pkg/migrate/migrations.go:775-796 | Each scalar becomes a one-element list (absent reads as empty) and the scalars are unset. |
| Migrations.RoleRoundTrip | internal/pkg/migrate/migrations.go:685-817 | One-element lists survive the round trip. Empty lists come back holding the empty string. |
| Migrations.FromEmbedded | internal/pkg/migrate/migrations.go:838-859 | The endpoint keeps the embedded endpoint's id, target and secrets, and takes the application's id, group and title. |
| Migrations.FromBareApp | internal/pkg/migrate/migrations.go:861-875 | An application without endpoints becomes one endpoint with the application's id and no target or secrets. |
| Migrations.AppToEndpoints | internal/pkg/migrate/migrations.go:836-876 | One endpoint per embedded endpoint, in order, or the single stand-in. |
| Migrations.AppsToEndpointsShape | internal/pkg/migrate/migrations.go:836-876 | The endpoint count is the sum of the applications' endpoint counts, with one for an application without any. Every endpoint names one of the applications as owner. |
| Migrations.AppsToEndpointsAppend | internal/pkg/migrate/migrations.go:836-876 | Each application's endpoints appear contiguously, in order, after those of the applications before it. |
| Migrations.GroupByAppIsOwnedBy | internal/pkg/migrate/migrations.go:913-924 | The map's keys are exactly the owning application ids. Each list holds that application's endpoint ids in input order. |
| Migrations.OwnedByMember | internal/pkg/migrate/migrations.go:913-924 | An id is listed under an application exactly when an endpoint with that id belongs to it. |
| Migrations.AssignEndpoints | internal/pkg/migrate/migrations.go:926-938 | An event of an application that owns endpoints gets that application's list. Others are untouched. |
| Migrations.UnassignEndpoints | internal/pkg/migrate/migrations.go:968-980 | The same events lose their list. Others are untouched. |
| Migrations.EventEndpointsRoundTrip | internal/pkg/migrate/migrations.go:898-984 | After the migration an event lists exactly its application's endpoints. An event that had no list comes back exactly. |
| DashboardEvent.FindMessageDeliveryAttempt | api/dashboard/event.go:448-455 | Fails with not-found exactly when no attempt has the id. Otherwise it returns the first attempt with that id. |
| DashboardEvent.FindUnique | api/dashboard/event.go:448-455 | With unique ids the lookup returns the one attempt with that id. |
| DashboardEvent.SelectEndpoints | api/dashboard/event.go:191-200 | A non-empty id list wins, then a non-blank single id. There are none exactly when both are absent. |
| DashboardEvent.StatusFilter | api/dashboard/event.go:179-183 | Only non-blank values are kept. |
| DashboardEvent.StatusFilterCount | api/dashboard/event.go:179-183 | Each non-blank value is kept as often as it was given and each blank one is dropped. |
| DashboardEvent.StatusFilterAppend | api/dashboard/event.go:179-183 | The filter keeps the query's order. |
| DashboardEvent.GetSearchParams | api/dashboard/event.go:397-435 | An absent start is the epoch and an absent end is the end of today. A date that does not parse fails with its fixed message, start first. A period error is passed on. Otherwise the window is the two times in Unix seconds. |
| DashboardEvent.DefaultWindow | api/dashboard/event.go:405-417 | With no dates the window runs from the epoch to the end of today. |
| DashboardEvent.BuildDeliveryFilter | api/dashboard/event.go:175-213 | Fails exactly when the time window is rejected, with its message. Otherwise the filter carries the window, the selected endpoints, the non-blank statuses, the project and the event id. |
| Config.Getenv | config/config.go:109 | An unset variable reads as the empty string. |
| Config.Atoi | config/config.go:126 | Only a 64-bit integer is accepted, and only from a non-empty string. Which texts parse, and to what value, is stated by Config.AtoiSignedDigits and Config.AtoiRejectsNonDigit. |
| Config.AtoiFormat | config/config.go:245-256 | Every 64-bit integer written in decimal reads back unchanged. |
| Config.AtoiRejectsNoDigits | config/config.go:245-249 | The empty string and a lone sign are not integers. |
| Config.AtoiSignedDigits | config/config.go:246-249 | An optional `+` or `-` followed by one or more digits, leading zeros allowed, parses to its signed value when that fits in 64 bits. Outside that range it does not parse. |
| Config.AtoiRejectsNonDigit | config/config.go:246-249 | A non-digit anywhere after the optional sign, including a second sign, means the text does not parse. |
| Config.AtoiExamples | config/config.go:246-249 | `+7` and `007` parse as 7 and `-007` as -7. `7x`, `+-7` and ` 7` do not parse. |
| Config.RetrieveIntFromEnv | config/config.go:245-256 | An unparsable value is "Failed to parse" and zero is "Invalid". Otherwise the value is converted to unsigned 64 bits, a negative one wrapping modulo 2^64. |
| Config.RetrieveIntRoundTrip | config/config.go:245-256 | A positive value written in decimal is read back unchanged. |
| Config.EnsureSignature | config/config.go:228-234 | Fails exactly when the hash is not a supported algorithm, with the message naming it. |
| Config.ParseAuthorizedUsers | config/config.go:236-243 | The map's keys are exactly the listed user names, and each maps to the password of that user's last entry. |
| Config.LaterPasswordWins | config/config.go:239-241 | A later entry for a user overwrites an earlier one. |
| Config.ParseAuthorizedUsersSingle | config/config.go:236-243 | One credential authorizes exactly its own user. |
| Config.ApplyOverrides | config/config.go:109-146 | Each database, queue, port and signature variable overrides the file's value when set (the port when it parses), and nothing else changes. |
| Config.ApplyAPIAuth | config/config.go:152-162 | Fails exactly when a user name is set without a password. A user name sets Basic auth with those credentials, and nothing else changes. |
| Config.SecondsDuration | config/config.go:184 | Seconds times 10^9 as a signed 64-bit duration, exact when it fits and wrapping otherwise. |
| Config.ApplyUIAuth | config/config.go:164-195 | Succeeds exactly when there is no user name, or there is one with a password, a JWT key and a numeric expiry. No user name leaves the configuration alone. With one, the dashboard auth is those credentials and nothing else changes. |
| Config.ApplyStrategy | config/config.go:197-220 | Succeeds exactly when there is no strategy, or both the interval and the retry limit are valid. No strategy leaves the configuration alone. Otherwise the interval is checked, then the limit, each failure with its own error, and the strategy holds both. |
| Config.LoadConfig | config/config.go:95-107 | A file that fails to open or decode fails the load with its error. |
| Config.LoadConfigSucceeds | config/config.go:136-222 | A decoded file loads exactly when the overridden hash is supported, an API user name comes with a password, the dashboard variables are complete and the retry variables are complete. |
| Config.LoadConfigOverrides | config/config.go:109-222 | A successful load takes each override when its variable is set and the file's value otherwise. Its hash is supported, and the authorized users are those of the dashboard credentials. |
| Config.LoadConfigRequirements | config/config.go:147-220 | Each missing or invalid piece fails the load with its own message, in the order the checks run: the hash, the API password, the dashboard password, JWT key and expiry, then the retry interval and retry limit. |
| Config.UIAuthFromEnv | config/config.go:164-222 | With the dashboard variables set, the dashboard auth is Basic with exactly those credentials, the expiry that many seconds, and they are the only authorized user. |
| Config.Load | config/config.go:222-225 | A successful load replaces the stored configuration and a failed one leaves it alone. |
| Config.Get | config/config.go:261-268 | Fails with "call Load before this function" exactly when nothing is stored. |
| Config.GetAfterLoad | config/config.go:224-268 | `Get` fails until a load succeeds and then returns what it built. A failed load does not disturb an earlier one. |
| FeatureFlag.CanCreateCLIAPIKeyGate | internal/pkg/fflag/feature.go:41-91 | Group and configuration errors are returned untouched. Without the flipt provider everything passes. With it, the body is read and put back, and a read error is returned. A body that fails to decode returns the decoding error, with the body put back. |
| FeatureFlag.GateDecision | internal/pkg/fflag/feature.go:69-89 | Once decoded, anything but a CLI key passes. A CLI key passes exactly when the flag is on, is refused as unavailable when it is off, and gets the flag service's error when that fails. |
| FeatureFlag.FlagContext | internal/pkg/fflag/feature.go:75-78 | The flag context is exactly the group and organisation ids. |
| FeatureFlag.StatusFor | internal/pkg/fflag/feature.go:98-110 | Feature-not-available gives 403, overriding flag-not-found (404), which overrides everything else (500). |
| FeatureFlag.CanAccessFeature | internal/pkg/fflag/feature.go:93-119 | The next handler runs exactly when the gate has no error. Otherwise the error's text is rendered with its status. |
| FeatureFlag.CLIKeyRefused | internal/pkg/fflag/feature.go:41-119 | A CLI key with the flag off is refused with 403 and the not-available text. Without flipt the request goes through. |
| ProjectView.Initial | web/ui/dashboard/src/app/private/pages/project/project.component.ts:13-64 | The component starts with the six common entries, no portal entry, no project and loading on. |
| ProjectView.GetProjectDetails | web/ui/dashboard/src/app/private/pages/project/project.component.ts:78-89 | Loading ends either way. The side bar gains "Portal Links" exactly for a loaded outgoing project, and a failure changes nothing else. |
| ProjectView.StartUpSideBar | web/ui/dashboard/src/app/private/pages/project/project.component.ts:78-89 | After start-up the side bar is the one of the loaded project's type. |
| ProjectView.IsOutgoingProject | web/ui/dashboard/src/app/private/pages/project/project.component.ts:98-100 | True exactly when the active project is outgoing. |
| ProjectView.SwitchSideBarAsWritten | web/ui/dashboard/src/app/private/pages/project/project.component.ts:127-128 | The switch as written appends "Portal Links" exactly when the project is outgoing and the last entry is "Endpoints". An incoming project drops a last "Portal Links" entry, and every other case leaves the list as it is. |
| ProjectView.PortalLinksLostAsWritten | web/ui/dashboard/src/app/private/pages/project/project.component.ts:127-128 | As written, switching an outgoing project to incoming and back loses "Portal Links" for good. |
| ProjectView.SwitchSideBar | web/ui/dashboard/src/app/private/pages/project/project.component.ts:127-128 | Corrected switch: an outgoing project ends with "Portal Links". An incoming one drops it when last and is otherwise untouched. |
| ProjectView.SwitchKeepsSideBarMatching | web/ui/dashboard/src/app/private/pages/project/project.component.ts:120-140 | With the corrected guard any switch leaves the side bar of the new project's type. |
| ProjectView.GetProjectCompleteDetails | web/ui/dashboard/src/app/private/pages/project/project.component.ts:120-140 | As written: the chosen project becomes active and loading ends. "Portal Links" is appended exactly when the project is outgoing and the last entry is "Endpoints". An incoming project drops a last "Portal Links" entry, every other case leaves the side bar alone, and no other field changes. |
| ProjectView.SwitchAsWrittenDiffers | web/ui/dashboard/src/app/private/pages/project/project.component.ts:120-140 | The switch as written differs from the corrected one exactly when an outgoing project is chosen while the side bar ends in neither "Endpoints" nor "Portal Links". |
| ProjectView.AsWrittenNeverRegainsPortalLinks | web/ui/dashboard/src/app/private/pages/project/project.component.ts:120-140 | As written, once the side bar is the start-up list, no sequence of switches shows "Portal Links" again. |
| ProjectView.IncomingThenOutgoingAsWritten | web/ui/dashboard/src/app/private/pages/project/project.component.ts:78-140 | As written, starting with an incoming project and then choosing an outgoing one leaves the side bar without "Portal Links". |
| ProjectView.GetProjectCompleteDetailsFixed | web/ui/dashboard/src/app/private/pages/project/project.component.ts:120-140 | The switch with the corrected guard: the chosen project becomes active, loading ends, and an outgoing project's side bar ends with the portal entry. |
| ProjectView.SideBarFollowsProject | web/ui/dashboard/src/app/private/pages/project/project.component.ts:78-140 | With the corrected guard, however often the user switches, the side bar is the one of the project last chosen. |
| ProjectView.SideBarStrokeIcons | web/ui/dashboard/src/app/private/pages/project/project.component.ts:102-107 | Subscriptions, logs, meta and portal icons are stroke icons. Events, sources and endpoint icons are not. |
| ProjectView.GetFirstLetters | web/ui/dashboard/src/app/private/pages/project/project.component.ts:109-118 | Absent exactly for a missing or empty name, and otherwise at most two characters. |
| ProjectView.InitialsOfWords | web/ui/dashboard/src/app/private/pages/project/project.component.ts:111-114 | The initials of non-empty words are one character per word, each word's first, in order. |
| ProjectView.FirstLettersOfWords | web/ui/dashboard/src/app/private/pages/project/project.component.ts:109-118 | For every name made of space-free words joined by single spaces, the badge is the first two of the words' initials. When every word is non-empty these are the first characters of the first two words. |
| ProjectView.FirstLettersOneWord | web/ui/dashboard/src/app/private/pages/project/project.component.ts:109-118 | A one-word name gives its first character. |
| ProjectView.FirstLettersTwoWords | web/ui/dashboard/src/app/private/pages/project/project.component.ts:109-118 | A two-word name gives both initials. |
| ProjectView.FirstLettersBlank | web/ui/dashboard/src/app/private/pages/project/project.component.ts:109-118 | A name of one space has empty initials, yet is not absent. |
| ProjectView.OnWindowResize | web/ui/dashboard/src/app/private/pages/project/project.component.ts:142-150 | The full side bar shows exactly above 1150 pixels, and nothing else changes. |
| CreateProject.Initial | web/ui/dashboard/src/app/private/pages/create-project/create-project.component.ts:12-18 | The wizard opens on the project form for an outgoing project. It offers twelve distinct hash algorithms, SHA256 first, and the linear and exponential retry strategies. |
| CreateProject.CreateProjectStep | web/ui/dashboard/src/app/private/pages/create-project/create-project.component.ts:24-26 | An incoming project continues with a source and any other with an application. Nothing else changes. |
| CreateProject.CreateProjectLeavesForm | web/ui/dashboard/src/app/private/pages/create-project/create-project.component.ts:24-26 | Creating always leaves the project form and never lands on subscriptions. A second creation lands where the latest type leads, whatever step the first one left, because the step never reads the starting stage. |
| SubscriptionsView.ShowCreateModal | web/ui/dashboard/src/app/private/pages/project/subscriptions/subscriptions.component.ts:15 | The modal opens exactly when the URL has a fifth `/`-segment and it is "new". |
| SubscriptionsView.ShowCreateModalOnCreateRoute | web/ui/dashboard/src/app/private/pages/project/subscriptions/subscriptions.component.ts:15 | A project's create route opens the modal. |
| SubscriptionsView.NoCreateModalOnListRoute | web/ui/dashboard/src/app/private/pages/project/subscriptions/subscriptions.component.ts:15 | A project's list route does not. |
| SubscriptionsView.GetSubscriptions | web/ui/dashboard/src/app/private/pages/project/subscriptions/subscriptions.component.ts:29-36 | A response replaces the list and a failure changes nothing. |
| SubscriptionsView.FindByUid | web/ui/dashboard/src/app/private/pages/project/subscriptions/subscriptions.component.ts:26 | Nothing exactly when the id is absent or unmatched. Otherwise the first subscription with that uid. |
| SubscriptionsView.FindByUidUnique | web/ui/dashboard/src/app/private/pages/project/subscriptions/subscriptions.component.ts:26 | With unique uids a link selects exactly its subscription. |
| SubscriptionsView.OnQueryParams | web/ui/dashboard/src/app/private/pages/project/subscriptions/subscriptions.component.ts:26 | With no list nothing is selected. With a list the selection is the first loaded subscription whose uid is the query id, and there is one exactly when such a subscription exists. |
| SubscriptionsView.OpenPage | web/ui/dashboard/src/app/private/pages/project/subscriptions/subscriptions.component.ts:23-27 | A failed load selects nothing. A successful one selects what the id names in the loaded list. |
| AppDetails.Initial | web/ui/dashboard/src/app/private/pages/project/apps/app-details/app-details.component.ts:18-38 | Every flag is off, nothing is loaded and the CLI keys tab is active. |
| AppDetails.ViewEndpointSecretKey | web/ui/dashboard/src/app/private/pages/project/apps/app-details/app-details.component.ts:54-57 | Visibility toggles and the shown key is remembered. Nothing else changes. |
| AppDetails.ViewSecretTwice | web/ui/dashboard/src/app/private/pages/project/apps/app-details/app-details.component.ts:54-57 | Clicking the same secret twice hides it again. |
| AppDetails.IframeEmbedsLink | web/ui/dashboard/src/app/private/pages/project/apps/app-details/app-details.component.ts:83 | The iframe's `src` is exactly the portal link it was built from. |
| AppDetails.IframeMarkup | web/ui/dashboard/src/app/private/pages/project/apps/app-details/app-details.component.ts:83 | The markup is the fixed iframe opening, the link and the fixed closing. |
| AppDetails.GetAppPortalToken | web/ui/dashboard/src/app/private/pages/project/apps/app-details/app-details.component.ts:73-90 | An incoming project changes nothing. Otherwise loading ends, and a response stores the link with its iframe. A new link always comes with its iframe. |
| AppDetails.GetAppDetails | web/ui/dashboard/src/app/private/pages/project/apps/app-details/app-details.component.ts:59-71 | The selection is cleared and loading ends. A response stores the application and fetches its portal link, and a failure keeps the earlier application. |
| AppDetails.CheckScreenSize | web/ui/dashboard/src/app/private/pages/project/apps/app-details/app-details.component.ts:114-116 | The small layout applies exactly at 1010 pixels or less. Nothing else changes. |
| AppDetails.NgOnInit | web/ui/dashboard/src/app/private/pages/project/apps/app-details/app-details.component.ts:42-48 | A rejected flag lookup stops the initialisation with loading started and nothing else changed. Otherwise the CLI flag is stored, the layout follows the width, and loading ends with nothing selected. |
| AppDetails.OpenPageLoadingEnds | web/ui/dashboard/src/app/private/pages/project/apps/app-details/app-details.component.ts:42-90 | After opening, the details stay loading exactly when the flag lookup is rejected. The portal link stays loading exactly when the flag loads and the application fails to load for an outgoing project. |
| AppDetails.DeleteRequest | web/ui/dashboard/src/app/private/pages/project/apps/app-details/app-details.component.ts:100 | The request names the loaded application, if any, and the selected endpoint's id, or the empty id. |
| AppDetails.DeleteEndpoint | web/ui/dashboard/src/app/private/pages/project/apps/app-details/app-details.component.ts:97-108 | Deleting always ends. A failure only resets the flag, and a success closes the modal and reloads, clearing the selection. |
| AppDetails.ToggleActiveTab | web/ui/dashboard/src/app/private/pages/project/apps/app-details/app-details.component.ts:110-112 | Only the tab changes. |
| AppDetails.CloseEditEndpointModal | web/ui/dashboard/src/app/private/pages/project/apps/app-details/app-details.component.ts:118-121 | The form closes and the selection is dropped. Nothing else changes. |
| AppDetails.ClosedFormDeletesNothing | web/ui/dashboard/src/app/private/pages/project/apps/app-details/app-details.component.ts:100-121 | After the form closes a delete request names no endpoint. |
| AppDetails.OnWindowResize | web/ui/dashboard/src/app/private/pages/project/apps/app-details/app-details.component.ts:127-131 | The new width is recorded and the layout recomputed from it. |

## Left out

- Databases, HTTP and JSON are parameters. This covers SQL text beyond the keyset comparison, sqlx named and `IN` expansion, transactions and their rollback, and JSON encoding and decoding.
- `util.IsStringEmpty` is not part of this model. It is the parameter `blank`, the emptiness test applied to endpoint ids, source ids, device ids, search queries and subscription names.
- Flattening, comparing and rendering are parameters too: `flatten.Flatten`, `compare.Compare`, `time.Parse`, `time.ParseDuration`, `Duration.String`, the clock, fresh ids and `m.EnsurePeriod`.
- The dashboard's services, router, `localStorage`, `window.open`, notifications, `console.log` and DOM access are left out. So are `goBack`, `loadEventsFromAppsTable`, `focusInput`, `cancel`, `getProjects` and the `activeTab` getter, which only navigate or read the DOM.
- Asynchronous handlers are modelled by the state they leave after their responses arrive. Interleavings of overlapping requests are not modelled.
- The migrations' store calls, bulk writes and transactions are left out; each migration is its per-record transform. `log.Fatalf` is an error result.
- The drop-devices migration is left out: it only drops a collection. The rollback of the apps-to-endpoints migration is left out for the same reason.
- BasicAuth.ToUpper: upper-cases ASCII letters only, whereas Go's `strings.ToUpper` also maps other Unicode letters. A non-ASCII scheme could differ.
- ProjectView.GetFirstLetters: JavaScript strings are UTF-16. The model slices characters, so names outside the Basic Multilingual Plane are not modelled.
- SubscriptionRepo.LoadAllSubscriptionConfig: requires a positive page size. With zero or less, Go's float division and `int64` conversion of the result is platform-defined.
- SubscriptionRepo.FetchUpdatedSubscriptions: requires a positive page size, for the same reason.
- SubscriptionRepo.FetchDeletedSubscriptions: requires a positive page size, for the same reason.
- SubscriptionRepo.LoadAllSubscriptionConfig: the table is given whole, so a failed page query or row scan inside the batch loop is not modelled. Only the count query's failure is.
- SubscriptionRepo.FetchUpdatedSubscriptions: the same; page-query and row-scan errors are not modelled.
- SubscriptionRepo.FetchDeletedSubscriptions: the same; page-query and row-scan errors are not modelled.
- SubscriptionRepo.LoadSelected: the same; it starts from a count that was read successfully.
- SubscriptionRepo.FetchSubscriptionsForBroadcast: page-query and row-scan errors are not modelled, because the table is given whole.
- SubscriptionRepo.LoadSelectedCorrect: states the loop's result only for a table in id order. That is the order `ORDER BY id` reads rows in.
- EventRepo.LoadEventsPaged: requires a non-negative page size. A negative one with no rows makes the source slice at -1 and panic, and the model excludes all negative sizes rather than only that panic.
- SubscriptionRepo.LoadSubscriptionsPaged: requires a non-negative page size, for the same reason.
- Config.LoadConfig: does not model `os.Open`, and the supported hash algorithms are a parameter. The message lists them in Go's map order, which is a parameter too.
- Config.Atoi: reports only whether the text parses. `strconv.Atoi`'s distinction between a syntax error and a range error is not kept, since every caller treats both alike.
- Feature-flag clients other than flipt, and the flipt client's construction, are left out: only "flipt configured or not" matters to the gate.
- Pagination metadata (`PaginationData.Build`) is left out. The model returns what it is built from: every fetched id and the previous-row count.

## Findings

| source | as written | input that shows it | evidently intended | confidence | as-written member | corrected member |
|---|---|---|---|---|---|---|
| web/ui/dashboard/src/app/private/pages/project/project.component.ts:127 | "Portal Links" is re-added on switching to an outgoing project only if the last side-bar icon is `endpoint`. The list ends with "Meta Events" (`meta`), or with "Portal Links" (`portal`) after an outgoing project, and never with `endpoint`, so the guard never holds. | Start with an incoming project, whose six entries end in "Meta Events", then choose an outgoing one: the side bar keeps six entries and has no Portal Links. The same holds after going from outgoing to incoming and back. The navigation to `/` and back that follows the switch may re-create the component and re-run the start-up load, which would hide the loss on screen. | Re-add "Portal Links" for an outgoing project whenever it is not already the last entry. | not executed; the route re-creation noted above may mask it | ProjectView.IncomingThenOutgoingAsWritten | ProjectView.SideBarFollowsProject |
