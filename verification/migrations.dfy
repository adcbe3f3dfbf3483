/** The document-store schema migrations, each as the transform it applies
    to every stored record. A Migrate body reads a collection, rewrites
    each record and writes it back; a Rollback body undoes it as far as
    the stored data allows. Fresh ids and clock readings are inputs, as
    is `time.ParseDuration` on the configured duration strings. A
    `log.Fatalf` ends the process and is the `FatalExit` error here. */
module Migrations {
  import opened Wrappers
  import opened Seqs

  datatype MigrationError =
    | FatalExit(step: string)
    | NilPointer

  // ---------------------------------------------------------------------
  // Durations

  const NanosPerSecond: int := 1_000_000_000
  const MinInt64: int := -0x8000_0000_0000_0000
  const MaxInt64: int := 0x7fff_ffff_ffff_ffff

  /** The largest number of whole seconds a `time.Duration` (signed 64-bit
      nanoseconds) can hold. */
  const MaxDurationSeconds: int := 9_223_372_036

  /** `time.ParseDuration` of the decimal `n` followed by `s`: the same
      length of time in nanoseconds, or an error when it does not fit in
      64 bits. */
  function SecondsToNanos(n: int): (r: Option<int>)
    ensures r.Some? <==> MinInt64 <= n * NanosPerSecond <= MaxInt64
    ensures r.Some? ==> r.value == n * NanosPerSecond
  {
    if -MaxDurationSeconds <= n <= MaxDurationSeconds then Some(n * NanosPerSecond) else None
  }

  // ---------------------------------------------------------------------
  // 20220901162904_change_group_rate_limit_configuration

  /** A group's rate-limit settings as far as the migration reads them;
      `D` is the stored type of the duration. */
  datatype LimitConfig<D> = LimitConfig(rateLimit: Option<D>)
  datatype RateLimitGroup<D> = RateLimitGroup(uid: string, config: Option<LimitConfig<D>>)

  /** The duration string becomes whole seconds; a string that does not
      parse becomes the default. `parseSeconds` stands for
      `time.ParseDuration` followed by truncation to whole seconds. */
  function MigrateRateLimit(g: RateLimitGroup<string>, parseSeconds: string -> Option<nat>, defaultSeconds: nat): (r: RateLimitGroup<nat>)
    ensures r.uid == g.uid
    ensures r.config.None? <==> g.config.None?
    ensures g.config.Some? ==> (r.config.value.rateLimit.None? <==> g.config.value.rateLimit.None?)
    ensures g.config.Some? && g.config.value.rateLimit.Some? ==>
              r.config.value.rateLimit.value == parseSeconds(g.config.value.rateLimit.value).GetOr(defaultSeconds)
  {
    match g.config
    case None => RateLimitGroup(g.uid, None)
    case Some(LimitConfig(None)) => RateLimitGroup(g.uid, Some(LimitConfig(None)))
    case Some(LimitConfig(Some(d))) =>
      var seconds := match parseSeconds(d) case Some(s) => s case None => defaultSeconds;
      RateLimitGroup(g.uid, Some(LimitConfig(Some(seconds))))
  }

  /** Whole seconds become a `time.Duration`; a value too large for one
      ends the process. */
  function RollbackRateLimit(g: RateLimitGroup<nat>): (r: Result<RateLimitGroup<int>, MigrationError>)
    ensures r.Failure? <==> g.config.Some? && g.config.value.rateLimit.Some? &&
                            g.config.value.rateLimit.value > MaxDurationSeconds
    ensures r.Success? ==> r.value.uid == g.uid && (r.value.config.None? <==> g.config.None?)
    ensures r.Success? && g.config.Some? ==>
              && (r.value.config.value.rateLimit.None? <==> g.config.value.rateLimit.None?)
              && (g.config.value.rateLimit.Some? ==>
                    r.value.config.value.rateLimit.value == g.config.value.rateLimit.value * NanosPerSecond)
  {
    match g.config
    case None => Success(RateLimitGroup(g.uid, None))
    case Some(LimitConfig(None)) => Success(RateLimitGroup(g.uid, Some(LimitConfig(None))))
    case Some(LimitConfig(Some(seconds))) =>
      match SecondsToNanos(seconds)
      case None => Failure(FatalExit("20220901162904_change_group_rate_limit_configuration ParseDuration"))
      case Some(nanos) => Success(RateLimitGroup(g.uid, Some(LimitConfig(Some(nanos)))))
  }

  function MigrateRateLimits(groups: seq<RateLimitGroup<string>>, parseSeconds: string -> Option<nat>, defaultSeconds: nat): (r: seq<RateLimitGroup<nat>>)
    ensures |r| == |groups|
    ensures forall k :: 0 <= k < |groups| ==> r[k] == MigrateRateLimit(groups[k], parseSeconds, defaultSeconds)
  {
    Map(groups, g => MigrateRateLimit(g, parseSeconds, defaultSeconds))
  }

  /** The rollback loop stops at the first group it cannot convert. */
  function RollbackRateLimits(groups: seq<RateLimitGroup<nat>>): (r: Result<seq<RateLimitGroup<int>>, MigrationError>)
    ensures r.Success? <==> forall k :: 0 <= k < |groups| ==> RollbackRateLimit(groups[k]).Success?
    ensures r.Success? ==>
              && |r.value| == |groups|
              && forall k :: 0 <= k < |groups| ==> r.value[k] == RollbackRateLimit(groups[k]).value
  {
    if |groups| == 0 then Success([])
    else
      var head :- RollbackRateLimit(groups[0]);
      var tail :- RollbackRateLimits(groups[1..]);
      assert forall k :: 1 <= k < |groups| ==> groups[k] == groups[1..][k - 1];
      Success([head] + tail)
  }

  /** A duration that parses to `n` seconds comes back from the rollback
      as the same length of time, `n` seconds in nanoseconds, as long as it
      fits a `time.Duration`. */
  lemma RateLimitRoundTrip(g: RateLimitGroup<string>, parseSeconds: string -> Option<nat>, defaultSeconds: nat, n: nat)
    requires g.config.Some? && g.config.value.rateLimit.Some?
    requires parseSeconds(g.config.value.rateLimit.value) == Some(n) && n <= MaxDurationSeconds
    ensures RollbackRateLimit(MigrateRateLimit(g, parseSeconds, defaultSeconds))
            == Success(RateLimitGroup(g.uid, Some(LimitConfig(Some(n * NanosPerSecond)))))
  {
  }

  // ---------------------------------------------------------------------
  // 20220906166248_change_subscription_retry_configuration

  /** A stored BSON value as the rollback's untyped `interface{}` sees it;
      `DynOther` is any other kind of value (a double, a boolean, ...),
      which `%d` cannot render as an integer. */
  datatype Dyn = DynNull | DynString(s: string) | DynInt(n: int) | DynOther(typeName: string)

  datatype RetryDuration<D> = RetryDuration(duration: D)
  datatype RetrySubscription<D> = RetrySubscription(uid: string, retryConfig: Option<RetryDuration<D>>)

  /** The retry duration string becomes whole seconds, or the default
      strategy duration when it does not parse. */
  function MigrateRetry(s: RetrySubscription<string>, parseSeconds: string -> Option<nat>, defaultSeconds: nat): (r: RetrySubscription<Dyn>)
    ensures r.uid == s.uid
    ensures r.retryConfig.None? <==> s.retryConfig.None?
    ensures s.retryConfig.Some? ==>
              r.retryConfig.value.duration == DynInt(parseSeconds(s.retryConfig.value.duration).GetOr(defaultSeconds))
  {
    match s.retryConfig
    case None => RetrySubscription(s.uid, None)
    case Some(RetryDuration(d)) =>
      var seconds := match parseSeconds(d) case Some(n) => n case None => defaultSeconds;
      RetrySubscription(s.uid, Some(RetryDuration(DynInt(seconds))))
  }

  /** A numeric duration becomes the text `time.Duration.String()` gives
      for it (`format`); a missing, null or already textual duration is left
      alone; a number too large for a `time.Duration`, or a value that is
      not an integer, fails to parse and ends the process. */
  function RollbackRetry(s: RetrySubscription<Dyn>, format: int -> string): (r: Result<RetrySubscription<Dyn>, MigrationError>)
    ensures r.Failure? <==> s.retryConfig.Some? &&
                            (|| s.retryConfig.value.duration.DynOther?
                             || (s.retryConfig.value.duration.DynInt? && SecondsToNanos(s.retryConfig.value.duration.n).None?))
    ensures r.Success? && !(s.retryConfig.Some? && s.retryConfig.value.duration.DynInt?) ==> r.value == s
    ensures r.Success? && s.retryConfig.Some? && s.retryConfig.value.duration.DynInt? ==>
              r.value == RetrySubscription(s.uid, Some(RetryDuration(DynString(format(s.retryConfig.value.duration.n * NanosPerSecond)))))
  {
    match s.retryConfig
    case None => Success(s)
    case Some(RetryDuration(DynNull)) => Success(s)
    case Some(RetryDuration(DynString(_))) => Success(s)
    case Some(RetryDuration(DynOther(_))) =>
      Failure(FatalExit("20220906166248_change_subscription_retry_configuration ParseDuration"))
    case Some(RetryDuration(DynInt(n))) =>
      match SecondsToNanos(n)
      case None => Failure(FatalExit("20220906166248_change_subscription_retry_configuration ParseDuration"))
      case Some(nanos) => Success(RetrySubscription(s.uid, Some(RetryDuration(DynString(format(nanos))))))
  }

  function MigrateRetries(subs: seq<RetrySubscription<string>>, parseSeconds: string -> Option<nat>, defaultSeconds: nat): (r: seq<RetrySubscription<Dyn>>)
    ensures |r| == |subs|
    ensures forall k :: 0 <= k < |subs| ==> r[k] == MigrateRetry(subs[k], parseSeconds, defaultSeconds)
  {
    Map(subs, s => MigrateRetry(s, parseSeconds, defaultSeconds))
  }

  /** Rolling back twice is rolling back once: the second pass finds only
      text and skips it. */
  lemma RollbackRetryIdempotent(s: RetrySubscription<Dyn>, format: int -> string)
    requires RollbackRetry(s, format).Success?
    ensures RollbackRetry(RollbackRetry(s, format).value, format) == RollbackRetry(s, format)
  {
  }

  /** A retry duration that parses to `n` seconds is written back as the
      rendering of `n` seconds. */
  lemma RetryRoundTrip(s: RetrySubscription<string>, parseSeconds: string -> Option<nat>, defaultSeconds: nat,
                       format: int -> string, n: nat)
    requires s.retryConfig.Some? && parseSeconds(s.retryConfig.value.duration) == Some(n)
    requires n <= MaxDurationSeconds
    ensures RollbackRetry(MigrateRetry(s, parseSeconds, defaultSeconds), format)
            == Success(RetrySubscription(s.uid, Some(RetryDuration(DynString(format(n * NanosPerSecond))))))
  {
  }

  // ---------------------------------------------------------------------
  // 20220919100029_add_default_group_configuration

  /** A group whose configuration `C` may be missing. */
  datatype ConfigGroup<C> = ConfigGroup(uid: string, config: Option<C>)

  /** A group without a configuration gets the default one; a configured
      group is left alone. */
  function AddDefaultConfig<C>(g: ConfigGroup<C>, default: C): (r: ConfigGroup<C>)
    ensures r.uid == g.uid && r.config.Some?
    ensures g.config.Some? ==> r == g
    ensures g.config.None? ==> r.config.value == default
  {
    if g.config.Some? then g else g.(config := Some(default))
  }

  /** Every configuration is removed. */
  function RemoveConfig<C>(g: ConfigGroup<C>): (r: ConfigGroup<C>)
    ensures r.uid == g.uid && r.config.None?
  {
    g.(config := None)
  }

  /** For a group that had no configuration the rollback restores it
      exactly; adding defaults twice is adding them once. */
  lemma DefaultConfigRoundTrip<C>(g: ConfigGroup<C>, default: C)
    ensures g.config.None? ==> RemoveConfig(AddDefaultConfig(g, default)) == g
    ensures AddDefaultConfig(AddDefaultConfig(g, default), default) == AddDefaultConfig(g, default)
  {
  }

  // ---------------------------------------------------------------------
  // Application endpoints (20221019100029 and 20221116142027)

  datatype Secret = Secret(uid: string, value: string, createdAt: int, updatedAt: int)

  /** The fresh id and the two clock readings a new secret is given. */
  datatype SecretStamp = SecretStamp(uid: string, createdAt: int, updatedAt: int)

  /** An endpoint embedded in an application document. */
  datatype AppEndpoint = AppEndpoint(
    uid: string,
    targetURL: string,
    secret: string,
    secrets: seq<Secret>,
    advancedSignatures: bool,
    description: string,
    httpTimeout: string,
    rateLimit: int,
    rateLimitDuration: string,
    authentication: Option<string>,
    createdAt: int,
    updatedAt: int)

  datatype App = App(
    uid: string,
    groupID: string,
    title: string,
    supportEmail: string,
    slackWebhookURL: string,
    createdAt: int,
    updatedAt: int,
    endpoints: seq<AppEndpoint>)

  // 20221019100029_move_secret_fields_to_secrets

  /** An endpoint with a secret gets it appended to its secret list as a
      new entry and loses advanced signatures; one without is left alone.
      The old `secret` field itself stays in place. */
  function MoveSecret(e: AppEndpoint, stamp: SecretStamp): (r: AppEndpoint)
    ensures e.secret == "" ==> r == e
    ensures e.secret != "" ==>
              && r.secrets == e.secrets + [Secret(stamp.uid, e.secret, stamp.createdAt, stamp.updatedAt)]
              && !r.advancedSignatures
              && r.(secrets := e.secrets, advancedSignatures := e.advancedSignatures) == e
  {
    if e.secret == "" then e
    else e.(secrets := e.secrets + [Secret(stamp.uid, e.secret, stamp.createdAt, stamp.updatedAt)],
            advancedSignatures := false)
  }

  /** An endpoint with secrets gets the newest one's value back as its
      secret; the list is cleared and advanced signatures turned off. */
  function RestoreSecret(e: AppEndpoint): (r: AppEndpoint)
    ensures |e.secrets| == 0 ==> r == e
    ensures |e.secrets| > 0 ==>
              && r.secret == e.secrets[|e.secrets| - 1].value
              && r.secrets == [] && !r.advancedSignatures
              && r.(secret := e.secret, secrets := e.secrets, advancedSignatures := e.advancedSignatures) == e
  {
    if |e.secrets| == 0 then e
    else e.(secret := e.secrets[|e.secrets| - 1].value, secrets := [], advancedSignatures := false)
  }

  /** The migration applied to every endpoint of one application;
      `stamps(k)` is what the k-th endpoint's new secret is given. */
  function MoveSecrets(app: App, stamps: nat -> SecretStamp): (r: App)
    ensures r.(endpoints := app.endpoints) == app
    ensures |r.endpoints| == |app.endpoints|
    ensures forall k :: 0 <= k < |app.endpoints| ==> r.endpoints[k] == MoveSecret(app.endpoints[k], stamps(k))
  {
    app.(endpoints := seq(|app.endpoints|, k requires 0 <= k < |app.endpoints| => MoveSecret(app.endpoints[k], stamps(k))))
  }

  function RestoreSecrets(app: App): (r: App)
    ensures r.(endpoints := app.endpoints) == app
    ensures |r.endpoints| == |app.endpoints|
    ensures forall k :: 0 <= k < |app.endpoints| ==> r.endpoints[k] == RestoreSecret(app.endpoints[k])
  {
    app.(endpoints := Map(app.endpoints, RestoreSecret))
  }

  /** Moving a secret and rolling back gives the same secret back, with the
      secret list empty and advanced signatures off. An endpoint that had
      no secret list and either no secret or advanced signatures off comes
      back exactly as it was. */
  lemma SecretRoundTrip(e: AppEndpoint, stamp: SecretStamp)
    ensures e.secret != "" ==>
              RestoreSecret(MoveSecret(e, stamp)) == e.(secrets := [], advancedSignatures := false)
    ensures e.secrets == [] && (e.secret == "" || !e.advancedSignatures) ==>
              RestoreSecret(MoveSecret(e, stamp)) == e
  {
  }

  /** The same for every endpoint of an application. */
  lemma SecretsRoundTrip(app: App, stamps: nat -> SecretStamp)
    requires forall k :: 0 <= k < |app.endpoints| ==>
               app.endpoints[k].secrets == [] && (app.endpoints[k].secret == "" || !app.endpoints[k].advancedSignatures)
    ensures RestoreSecrets(MoveSecrets(app, stamps)) == app
  {
    var r := RestoreSecrets(MoveSecrets(app, stamps));
    forall k | 0 <= k < |app.endpoints|
      ensures r.endpoints[k] == app.endpoints[k]
    {
      SecretRoundTrip(app.endpoints[k], stamps(k));
    }
  }

  // ---------------------------------------------------------------------
  // 20221021100029_migrate_group_signature_config_to_versions

  /** The encoding every migrated signature version is given. */
  const HexEncoding: string := "hex"

  datatype SignatureVersion = SignatureVersion(uid: string, hash: string, encoding: string, createdAt: int)

  /** `hash` and `encoding` are `None` once unset from the document. */
  datatype SignatureConfig = SignatureConfig(hash: Option<string>, encoding: Option<string>, versions: seq<SignatureVersion>)

  /** `signature` is `None` when the group's configuration or its
      signature settings are nil; the migration dereferences them. */
  datatype SignatureGroup = SignatureGroup(uid: string, signature: Option<SignatureConfig>)

  datatype VersionStamp = VersionStamp(uid: string, createdAt: int)

  /** A group without versions gets one holding its hash, hex-encoded;
      a group that has versions is left alone. */
  function AddVersion(g: SignatureGroup, stamp: VersionStamp): (r: Result<SignatureGroup, MigrationError>)
    ensures r.Failure? <==> g.signature.None?
    ensures r.Failure? ==> r.error == NilPointer
    ensures r.Success? && |g.signature.value.versions| > 0 ==> r.value == g
    ensures r.Success? && |g.signature.value.versions| == 0 ==>
              && r.value.signature.Some?
              && r.value.signature.value.versions == [SignatureVersion(stamp.uid, g.signature.value.hash.GetOr(""), HexEncoding, stamp.createdAt)]
              && r.value.(signature := g.signature) == g
              && r.value.signature.value.(versions := []) == g.signature.value
  {
    match g.signature
    case None => Failure(NilPointer)
    case Some(sig) =>
      if |sig.versions| > 0 then Success(g)
      else
        var version := SignatureVersion(stamp.uid, sig.hash.GetOr(""), HexEncoding, stamp.createdAt);
        Success(g.(signature := Some(sig.(versions := [version]))))
  }

  /** The closing update unsets the hash and encoding of every group. */
  function UnsetHashAndEncoding(g: SignatureGroup): (r: SignatureGroup)
    ensures r.uid == g.uid && (r.signature.Some? <==> g.signature.Some?)
    ensures r.signature.Some? ==>
              r.signature.value == SignatureConfig(None, None, g.signature.value.versions)
  {
    match g.signature
    case None => g
    case Some(sig) => g.(signature := Some(sig.(hash := None, encoding := None)))
  }

  /** The whole migration: versions are added group by group, and any nil
      configuration panics before anything is committed. */
  function MigrateSignatures(groups: seq<SignatureGroup>, stamps: nat -> VersionStamp): (r: Result<seq<SignatureGroup>, MigrationError>)
    ensures r.Failure? <==> exists k :: 0 <= k < |groups| && groups[k].signature.None?
    ensures r.Success? ==>
              && |r.value| == |groups|
              && forall k :: 0 <= k < |groups| ==> r.value[k] == UnsetHashAndEncoding(AddVersion(groups[k], stamps(k)).value)
  {
    if exists k :: 0 <= k < |groups| && groups[k].signature.None? then Failure(NilPointer)
    else Success(seq(|groups|, k requires 0 <= k < |groups| => UnsetHashAndEncoding(AddVersion(groups[k], stamps(k)).value)))
  }

  /** A group with versions gets the first one's hash back and loses its
      versions; a group without versions is left alone. */
  function RestoreHash(g: SignatureGroup): (r: Result<SignatureGroup, MigrationError>)
    ensures r.Failure? <==> g.signature.None?
    ensures r.Failure? ==> r.error == NilPointer
    ensures r.Success? && |g.signature.value.versions| == 0 ==> r.value == g
    ensures r.Success? && |g.signature.value.versions| > 0 ==>
              && r.value.uid == g.uid && r.value.signature.Some?
              && r.value.signature.value
                 == g.signature.value.(hash := Some(g.signature.value.versions[0].hash), versions := [])
  {
    match g.signature
    case None => Failure(NilPointer)
    case Some(sig) =>
      if |sig.versions| == 0 then Success(g)
      else Success(g.(signature := Some(sig.(hash := Some(sig.versions[0].hash), versions := []))))
  }

  /** Migrating a group that had no versions and rolling back restores its
      hash, but not its encoding: that was unset and nothing puts it back. */
  lemma SignatureRoundTrip(g: SignatureGroup, stamp: VersionStamp)
    requires g.signature.Some? && g.signature.value.versions == []
    ensures AddVersion(g, stamp).Success?
    ensures var m := UnsetHashAndEncoding(AddVersion(g, stamp).value);
            RestoreHash(m) == Success(SignatureGroup(g.uid, Some(SignatureConfig(Some(g.signature.value.hash.GetOr("")), None, []))))
  {
  }

  // ---------------------------------------------------------------------
  // 20221109100029_migrate_deprecate_document_status_field

  datatype DeletedAt = Missing | Null | At(millis: int)

  /** Any document, as far as its deletion markers go. */
  datatype StatusDoc = StatusDoc(uid: string, deletedAt: DeletedAt, documentStatus: Option<string>)

  /** 1970-11-30T00:00:00Z in milliseconds: `time.Date(1971, 0, 0, ...)`
      normalises month 0 to December 1970 and day 0 to the last day of
      November. */
  const DeletionCutoff: int := 28_771_200_000

  /** The value the rollback gives `document_status`. */
  const ActiveStatus: string := "Active"

  /** A document without `deleted_at`, or deleted on or before the cutoff,
      gets a null `deleted_at`; other documents are left alone. */
  function ClearOldDeletion(d: StatusDoc): (r: StatusDoc)
    ensures r.(deletedAt := d.deletedAt) == d
    ensures r.deletedAt == Null <==> d.deletedAt.Missing? || d.deletedAt.Null? || (d.deletedAt.At? && d.deletedAt.millis <= DeletionCutoff)
    ensures r.deletedAt != Null ==> r == d
  {
    match d.deletedAt
    case Missing => d.(deletedAt := Null)
    case At(t) => if t <= DeletionCutoff then d.(deletedAt := Null) else d
    case Null => d
  }

  /** A document whose `deleted_at` is null or missing (both match a null
      filter) has it removed and its status set to Active. */
  function RestoreDocumentStatus(d: StatusDoc): (r: StatusDoc)
    ensures d.deletedAt.At? ==> r == d
    ensures !d.deletedAt.At? ==> r == StatusDoc(d.uid, Missing, Some(ActiveStatus))
  {
    if d.deletedAt.At? then d else StatusDoc(d.uid, Missing, Some(ActiveStatus))
  }

  function MigrateDocumentStatus(docs: seq<StatusDoc>): (r: seq<StatusDoc>)
    ensures |r| == |docs|
    ensures forall k :: 0 <= k < |docs| ==> r[k] == ClearOldDeletion(docs[k])
  {
    Map(docs, ClearOldDeletion)
  }

  /** After the migration no document lacks `deleted_at`; clearing again
      changes nothing; a document deleted after the cutoff is untouched by
      both directions; and one that had no `deleted_at` comes back without
      it, marked Active. */
  lemma DocumentStatusRoundTrip(d: StatusDoc)
    ensures !ClearOldDeletion(d).deletedAt.Missing?
    ensures ClearOldDeletion(ClearOldDeletion(d)) == ClearOldDeletion(d)
    ensures d.deletedAt.At? && d.deletedAt.millis > DeletionCutoff ==>
              RestoreDocumentStatus(ClearOldDeletion(d)) == d
    ensures d.deletedAt.Missing? ==>
              RestoreDocumentStatus(ClearOldDeletion(d)) == d.(documentStatus := Some(ActiveStatus))
  {
  }

  // ---------------------------------------------------------------------
  // 20221031102300_change_subscription_event_types_to_filters

  /** The BSON values a subscription filter is built from. */
  datatype Bson = Str(s: string) | StrList(items: seq<string>) | Doc(fields: map<string, Bson>)

  const EventTypesKey: string := "event_types"
  const InKey: string := "$in"
  const Wildcard: string := "*"

  datatype EventTypeSubscription = EventTypeSubscription(uid: string, eventTypes: seq<string>, filter: Option<map<string, Bson>>)

  /** The filter for an event-type list: the lone wildcard matches
      everything, a single type is matched directly, and any other list
      (empty, or two or more) becomes an `$in` match. */
  function EventTypesFilter(eventTypes: seq<string>): (r: map<string, Bson>)
    ensures eventTypes == [Wildcard] <==> r == map[]
    ensures |eventTypes| == 1 && eventTypes[0] != Wildcard ==> r == map[EventTypesKey := Str(eventTypes[0])]
    ensures |eventTypes| != 1 ==> r == map[EventTypesKey := Doc(map[InKey := StrList(eventTypes)])]
  {
    var r := if |eventTypes| == 1 then
      if eventTypes[0] == Wildcard then map[]
      else map[EventTypesKey := Str(eventTypes[0])]
    else map[EventTypesKey := Doc(map[InKey := StrList(eventTypes)])];
    assert eventTypes != [Wildcard] ==> EventTypesKey in r;
    r
  }

  /** Whether an event type passes an event-type filter of the shapes the
      migration writes: no condition, an exact value, or an `$in` list. */
  predicate Accepts(filter: map<string, Bson>, eventType: string)
  {
    if EventTypesKey !in filter then true
    else match filter[EventTypesKey]
      case Str(t) => eventType == t
      case Doc(fields) => InKey in fields && fields[InKey].StrList? && eventType in fields[InKey].items
      case StrList(_) => false
  }

  /** The filter accepts exactly the event types the subscription listed,
      the lone wildcard accepting all of them. A wildcard inside a longer
      list is only the literal `*`. */
  lemma EventTypesFilterAccepts(eventTypes: seq<string>, eventType: string)
    ensures Accepts(EventTypesFilter(eventTypes), eventType) <==> eventTypes == [Wildcard] || eventType in eventTypes
  {
    if |eventTypes| == 1 {
      assert eventType in eventTypes <==> eventType == eventTypes[0];
    }
  }

  function ConvertEventTypes(s: EventTypeSubscription): (r: EventTypeSubscription)
    ensures r.filter == Some(EventTypesFilter(s.eventTypes))
    ensures r.(filter := s.filter) == s
  {
    s.(filter := Some(EventTypesFilter(s.eventTypes)))
  }

  /** The rollback unsets the filter, which returns a subscription that
      had none to its earlier state. */
  function RemoveFilter(s: EventTypeSubscription): (r: EventTypeSubscription)
    ensures r.filter.None? && r.(filter := s.filter) == s
  {
    s.(filter := None)
  }

  lemma EventTypesRoundTrip(s: EventTypeSubscription)
    requires s.filter.None?
    ensures RemoveFilter(ConvertEventTypes(s)) == s
  {
  }

  // ---------------------------------------------------------------------
  // 20221181000600_migrate_api_key_roles

  /** An API key's role with both the list fields and the scalar fields;
      `None` means the field is absent from the document. */
  datatype Role = Role(roleType: string, apps: Option<seq<string>>, groups: Option<seq<string>>,
                       app: Option<string>, group: Option<string>)

  datatype APIKey = APIKey(uid: string, role: Role)

  function FirstOf(list: Option<seq<string>>): (r: Option<string>)
    ensures r.Some? <==> list.Some? && |list.value| > 0
    ensures r.Some? ==> r.value == list.value[0]
  {
    if list.Some? && |list.value| > 0 then Some(list.value[0]) else None
  }

  /** The first group and first app become the scalar fields (an empty
      list sets nothing), then the lists are unset from every key. */
  function ScalarizeRole(k: APIKey): (r: APIKey)
    ensures r.uid == k.uid && r.role.roleType == k.role.roleType
    ensures r.role.groups.None? && r.role.apps.None?
    ensures r.role.group == (if FirstOf(k.role.groups).Some? then FirstOf(k.role.groups) else k.role.group)
    ensures r.role.app == (if FirstOf(k.role.apps).Some? then FirstOf(k.role.apps) else k.role.app)
  {
    var group := if FirstOf(k.role.groups).Some? then FirstOf(k.role.groups) else k.role.group;
    var app := if FirstOf(k.role.apps).Some? then FirstOf(k.role.apps) else k.role.app;
    k.(role := Role(k.role.roleType, None, None, app, group))
  }

  /** Each scalar is wrapped into a one-element list (an absent scalar
      reads as the empty string), then the scalars are unset. */
  function ListifyRole(k: APIKey): (r: APIKey)
    ensures r.uid == k.uid && r.role.roleType == k.role.roleType
    ensures r.role.group.None? && r.role.app.None?
    ensures r.role.groups == Some([k.role.group.GetOr("")])
    ensures r.role.apps == Some([k.role.app.GetOr("")])
  {
    k.(role := Role(k.role.roleType, Some([k.role.app.GetOr("")]), Some([k.role.group.GetOr("")]), None, None))
  }

  /** One-element role lists survive the round trip; an empty list comes
      back as the list holding the empty string. */
  lemma RoleRoundTrip(k: APIKey, app: string, group: string)
    ensures var before := APIKey(k.uid, Role(k.role.roleType, Some([app]), Some([group]), None, None));
            ListifyRole(ScalarizeRole(before)) == before
    ensures var before := APIKey(k.uid, Role(k.role.roleType, Some([]), Some([]), None, None));
            ListifyRole(ScalarizeRole(before)) == APIKey(k.uid, Role(k.role.roleType, Some([""]), Some([""]), None, None))
  {
  }

  // ---------------------------------------------------------------------
  // 20221116142027_migrate_apps_to_endpoints

  /** A top-level endpoint document (its fresh object id is left out). */
  datatype Endpoint = Endpoint(
    uid: string,
    groupID: string,
    targetURL: string,
    title: string,
    supportEmail: string,
    secrets: seq<Secret>,
    advancedSignatures: bool,
    description: string,
    slackWebhookURL: string,
    appID: string,
    httpTimeout: string,
    rateLimit: int,
    rateLimitDuration: string,
    authentication: Option<string>,
    createdAt: int,
    updatedAt: int)

  /** The endpoint built from one embedded endpoint of `app`. */
  function FromEmbedded(app: App, e: AppEndpoint): (r: Endpoint)
    ensures r.uid == e.uid && r.appID == app.uid && r.groupID == app.groupID
    ensures r.targetURL == e.targetURL && r.secrets == e.secrets && r.title == app.title
  {
    Endpoint(e.uid, app.groupID, e.targetURL, app.title, app.supportEmail, e.secrets, e.advancedSignatures,
             e.description, app.slackWebhookURL, app.uid, e.httpTimeout, e.rateLimit, e.rateLimitDuration,
             e.authentication, e.createdAt, e.updatedAt)
  }

  /** The endpoint standing in for an application that had none: it takes
      the application's id as its own and leaves the rest empty. */
  function FromBareApp(app: App): (r: Endpoint)
    ensures r.uid == app.uid && r.appID == app.uid && r.groupID == app.groupID
    ensures r.targetURL == "" && r.secrets == []
  {
    Endpoint(app.uid, app.groupID, "", app.title, app.supportEmail, [], false, "", app.slackWebhookURL,
             app.uid, "", 0, "", None, app.createdAt, app.updatedAt)
  }

  /** The endpoints one application turns into. */
  function AppToEndpoints(app: App): (r: seq<Endpoint>)
    ensures |app.endpoints| > 0 ==>
              && |r| == |app.endpoints|
              && forall k :: 0 <= k < |r| ==> r[k] == FromEmbedded(app, app.endpoints[k])
    ensures |app.endpoints| == 0 ==> r == [FromBareApp(app)]
  {
    if |app.endpoints| > 0 then Map(app.endpoints, e => FromEmbedded(app, e))
    else [FromBareApp(app)]
  }

  function AppsToEndpoints(apps: seq<App>): (r: seq<Endpoint>)
  {
    if |apps| == 0 then [] else AppToEndpoints(apps[0]) + AppsToEndpoints(apps[1..])
  }

  /** Each application accounts for at least one endpoint. */
  function EndpointTotal(apps: seq<App>): nat
  {
    if |apps| == 0 then 0
    else (if |apps[0].endpoints| > 0 then |apps[0].endpoints| else 1) + EndpointTotal(apps[1..])
  }

  function AppIDs(apps: seq<App>): set<string>
  {
    set a | a in apps :: a.uid
  }

  /** The endpoint count is the sum over applications of the number of
      embedded endpoints, or one for an application without any, and
      every endpoint names one of the applications as its owner. */
  lemma {:induction false} AppsToEndpointsShape(apps: seq<App>)
    ensures |AppsToEndpoints(apps)| == EndpointTotal(apps)
    ensures forall k :: 0 <= k < |AppsToEndpoints(apps)| ==> AppsToEndpoints(apps)[k].appID in AppIDs(apps)
  {
    if |apps| > 0 {
      AppsToEndpointsShape(apps[1..]);
      var head: seq<Endpoint> := AppToEndpoints(apps[0]);
      var tail: seq<Endpoint> := AppsToEndpoints(apps[1..]);
      assert AppIDs(apps[1..]) <= AppIDs(apps) by {
        forall a | a in apps[1..] ensures a in apps { }
      }
      forall k | 0 <= k < |head| + |tail|
        ensures (head + tail)[k].appID in AppIDs(apps)
      {
        if k < |head| {
          assert (head + tail)[k] == head[k];
          assert apps[0] in apps;
        } else {
          assert (head + tail)[k] == tail[k - |head|];
        }
      }
    }
  }

  /** An application's endpoints appear in its own order, contiguously,
      after those of the applications before it. */
  lemma {:induction false} AppsToEndpointsAppend(a: seq<App>, b: seq<App>)
    ensures AppsToEndpoints(a + b) == AppsToEndpoints(a) + AppsToEndpoints(b)
  {
    if |a| == 0 {
      assert a + b == b;
    } else {
      assert (a + b)[1..] == a[1..] + b;
      AppsToEndpointsAppend(a[1..], b);
    }
  }

  // ---------------------------------------------------------------------
  // 20221117161319_migrate_app_events_to_endpoints

  /** The ids of the endpoints owned by `appID`, in input order. */
  function OwnedBy(endpoints: seq<Endpoint>, appID: string): (r: seq<string>)
  {
    if |endpoints| == 0 then []
    else (if endpoints[0].appID == appID then [endpoints[0].uid] else []) + OwnedBy(endpoints[1..], appID)
  }

  /** The map from application id to its endpoint ids, built by appending
      each endpoint's id to its application's list in input order. */
  function GroupByApp(endpoints: seq<Endpoint>): (r: map<string, seq<string>>)
    decreases |endpoints|
  {
    if |endpoints| == 0 then map[]
    else
      var init := GroupByApp(endpoints[..|endpoints| - 1]);
      var e := endpoints[|endpoints| - 1];
      if e.appID in init then init[e.appID := init[e.appID] + [e.uid]]
      else init[e.appID := [e.uid]]
  }

  /** Reading the source loop against the filter definition: the map's
      keys are exactly the owning application ids, and each list holds
      that application's endpoint ids in input order. */
  lemma GroupByAppIsOwnedBy(endpoints: seq<Endpoint>)
    ensures forall a :: a in GroupByApp(endpoints) <==> exists k :: 0 <= k < |endpoints| && endpoints[k].appID == a
    ensures forall a :: a in GroupByApp(endpoints) ==> GroupByApp(endpoints)[a] == OwnedBy(endpoints, a)
  {
    GroupByAppKeys(endpoints);
    GroupByAppValues(endpoints);
  }

  /** The map's keys are the owning application ids. */
  lemma {:induction false} GroupByAppKeys(endpoints: seq<Endpoint>)
    ensures forall a :: a in GroupByApp(endpoints) <==> exists k :: 0 <= k < |endpoints| && endpoints[k].appID == a
    decreases |endpoints|
  {
    if |endpoints| > 0 {
      var init := endpoints[..|endpoints| - 1];
      var e := endpoints[|endpoints| - 1];
      GroupByAppKeys(init);
      forall a
        ensures a in GroupByApp(endpoints) <==> exists k :: 0 <= k < |endpoints| && endpoints[k].appID == a
      {
        if a in GroupByApp(endpoints) && a != e.appID {
          assert a in GroupByApp(init);
          var k :| 0 <= k < |init| && init[k].appID == a;
          assert endpoints[k] == init[k];
        }
        if a != e.appID && (exists k :: 0 <= k < |endpoints| && endpoints[k].appID == a) {
          var k :| 0 <= k < |endpoints| && endpoints[k].appID == a;
          assert k < |init| && init[k] == endpoints[k];
        }
      }
    }
  }

  /** Each application's list holds its endpoint ids in input order. */
  lemma {:induction false} GroupByAppValues(endpoints: seq<Endpoint>)
    ensures forall a :: a in GroupByApp(endpoints) ==> GroupByApp(endpoints)[a] == OwnedBy(endpoints, a)
    decreases |endpoints|
  {
    if |endpoints| > 0 {
      var init := endpoints[..|endpoints| - 1];
      var e := endpoints[|endpoints| - 1];
      GroupByAppValues(init);
      GroupByAppKeys(init);
      assert endpoints == init + [e];
      forall a | a in GroupByApp(endpoints)
        ensures GroupByApp(endpoints)[a] == OwnedBy(endpoints, a)
      {
        OwnedByAppend(init, [e], a);
        if a != e.appID {
          assert a in GroupByApp(init);
        } else if a !in GroupByApp(init) {
          OwnedByAbsent(init, a);
        }
      }
    }
  }

  lemma {:induction false} OwnedByAppend(a: seq<Endpoint>, b: seq<Endpoint>, appID: string)
    ensures OwnedBy(a + b, appID) == OwnedBy(a, appID) + OwnedBy(b, appID)
  {
    if |a| == 0 {
      assert a + b == b;
    } else {
      assert (a + b)[1..] == a[1..] + b;
      OwnedByAppend(a[1..], b, appID);
    }
  }

  lemma {:induction false} OwnedByAbsent(endpoints: seq<Endpoint>, appID: string)
    requires forall k :: 0 <= k < |endpoints| ==> endpoints[k].appID != appID
    ensures OwnedBy(endpoints, appID) == []
  {
    if |endpoints| > 0 {
      OwnedByAbsent(endpoints[1..], appID);
    }
  }

  /** An endpoint id is listed under an application exactly when some
      endpoint with that id belongs to that application; with unique ids,
      every endpoint id is in exactly one list. */
  lemma {:induction false} OwnedByMember(endpoints: seq<Endpoint>, appID: string, uid: string)
    ensures uid in OwnedBy(endpoints, appID) <==>
              exists k :: 0 <= k < |endpoints| && endpoints[k].uid == uid && endpoints[k].appID == appID
  {
    if |endpoints| > 0 {
      OwnedByMember(endpoints[1..], appID, uid);
      if exists k :: 0 <= k < |endpoints[1..]| && endpoints[1..][k].uid == uid && endpoints[1..][k].appID == appID {
        var k :| 0 <= k < |endpoints[1..]| && endpoints[1..][k].uid == uid && endpoints[1..][k].appID == appID;
        assert endpoints[k + 1] == endpoints[1..][k];
      }
      if exists k :: 0 <= k < |endpoints| && endpoints[k].uid == uid && endpoints[k].appID == appID {
        var k :| 0 <= k < |endpoints| && endpoints[k].uid == uid && endpoints[k].appID == appID;
        if k > 0 {
          assert endpoints[1..][k - 1] == endpoints[k];
        }
      }
    }
  }

  /** An event as the migration sees it. */
  datatype AppEvent = AppEvent(uid: string, appID: string, endpoints: Option<seq<string>>)

  /** Every event of an application that owns endpoints gets that
      application's endpoint ids. */
  function AssignEndpoints(groups: map<string, seq<string>>, ev: AppEvent): (r: AppEvent)
    ensures r.(endpoints := ev.endpoints) == ev
    ensures ev.appID in groups ==> r.endpoints == Some(groups[ev.appID])
    ensures ev.appID !in groups ==> r == ev
  {
    if ev.appID in groups then ev.(endpoints := Some(groups[ev.appID])) else ev
  }

  /** The rollback unsets the endpoint list of the same events. */
  function UnassignEndpoints(groups: map<string, seq<string>>, ev: AppEvent): (r: AppEvent)
    ensures r.(endpoints := ev.endpoints) == ev
    ensures ev.appID in groups ==> r.endpoints.None?
    ensures ev.appID !in groups ==> r == ev
  {
    if ev.appID in groups then ev.(endpoints := None) else ev
  }

  /** After the migration an event lists exactly its application's
      endpoints; rolling back restores an event that had no list. */
  lemma EventEndpointsRoundTrip(endpoints: seq<Endpoint>, ev: AppEvent)
    ensures var groups := GroupByApp(endpoints);
            (exists k :: 0 <= k < |endpoints| && endpoints[k].appID == ev.appID) ==>
              AssignEndpoints(groups, ev).endpoints == Some(OwnedBy(endpoints, ev.appID))
    ensures ev.endpoints.None? ==> UnassignEndpoints(GroupByApp(endpoints), AssignEndpoints(GroupByApp(endpoints), ev)) == ev
  {
    GroupByAppIsOwnedBy(endpoints);
  }
}
