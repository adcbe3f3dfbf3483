/** Feature gating of the HTTP API: the gate that decides whether a CLI API
    key may be created, and the middleware that turns a gate's error into
    an HTTP status or passes the request on. The group lookup, the stored
    configuration, reading the body, JSON decoding and the flag service
    are inputs. */
module FeatureFlag {
  import opened Wrappers

  type byte = x: int | 0 <= x < 256

  /** The sentinel errors `errors.Is` can find in an error's chain. */
  datatype Sentinel = FeatureNotAvailable | FliptFlagNotFound | FliptServerError

  /** An error: its text and the sentinels it wraps. */
  datatype Error = Error(message: string, wraps: set<Sentinel>)

  const ErrFeatureNotAvailable: Error := Error("this feature is not yet available for you", {FeatureNotAvailable})

  const CanCreateCLIAPIKey: string := "can_create_cli_api_key"
  const FliptProvider: string := "flipt"

  datatype KeyType = CLIKey | OtherKeyType(name: string)

  datatype Group = Group(uid: string, organisationID: string)

  /** The feature-flag section of the configuration. */
  datatype FlagConfig = FlagConfig(providerType: string, fliptHost: string)

  /** The request body after the gate: the original stream, or a new
      reader over bytes the gate read. */
  datatype Body = Untouched | Replaced(bytes: seq<byte>)

  datatype GateOutcome = GateOutcome(err: Option<Error>, body: Body)

  /** The flag-service context for a group. */
  function FlagContext(g: Group): (r: map<string, string>)
    ensures r.Keys == {"group_id", "organisation_id"}
    ensures r["group_id"] == g.uid && r["organisation_id"] == g.organisationID
  {
    map["group_id" := g.uid, "organisation_id" := g.organisationID]
  }

  /** The gate of `can_create_cli_api_key`. Without a flag provider
      configured every request passes; otherwise the body is read, put
      back, decoded, and only a CLI key is checked against the flag. */
  function CanCreateCLIAPIKeyGate(group: Result<Group, Error>, cfg: Result<FlagConfig, Error>,
                                  read: Result<seq<byte>, Error>, decode: seq<byte> -> Result<KeyType, Error>,
                                  isEnabled: (string, map<string, string>) -> Result<bool, Error>): (r: GateOutcome)
    ensures group.Failure? ==> r == GateOutcome(Some(group.error), Untouched)
    ensures group.Success? && cfg.Failure? ==> r == GateOutcome(Some(cfg.error), Untouched)
    ensures group.Success? && cfg.Success? && cfg.value.providerType != FliptProvider ==> r == GateOutcome(None, Untouched)
    ensures group.Success? && cfg.Success? && cfg.value.providerType == FliptProvider ==>
              && (read.Failure? ==> r == GateOutcome(Some(read.error), Untouched))
              && (read.Success? ==> r.body == Replaced(read.value))
              && (read.Success? && decode(read.value).Failure? ==>
                    r == GateOutcome(Some(decode(read.value).error), Replaced(read.value)))
    ensures r.body.Replaced? ==> read.Success? && r.body.bytes == read.value
  {
    match group
    case Failure(e) => GateOutcome(Some(e), Untouched)
    case Success(g) =>
      match cfg
      case Failure(e) => GateOutcome(Some(e), Untouched)
      case Success(c) =>
        if c.providerType != FliptProvider then GateOutcome(None, Untouched)
        else match read
          case Failure(e) => GateOutcome(Some(e), Untouched)
          case Success(body) =>
            var err := match decode(body)
              case Failure(e) => Some(e)
              case Success(keyType) =>
                if keyType != CLIKey then None
                else match isEnabled(CanCreateCLIAPIKey, FlagContext(g))
                  case Failure(e) => Some(e)
                  case Success(enabled) => if enabled then None else Some(ErrFeatureNotAvailable);
            GateOutcome(err, Replaced(body))
  }

  /** With a flag provider configured and the body decoded, the gate's
      verdict is decided by the key type and the flag: anything but a CLI
      key passes, a CLI key passes exactly when the flag is on, and a
      disabled flag is reported as the feature not being available. */
  lemma GateDecision(g: Group, c: FlagConfig, body: seq<byte>, decode: seq<byte> -> Result<KeyType, Error>,
                     isEnabled: (string, map<string, string>) -> Result<bool, Error>)
    requires c.providerType == FliptProvider && decode(body).Success?
    ensures var r := CanCreateCLIAPIKeyGate(Success(g), Success(c), Success(body), decode, isEnabled);
            var flag := isEnabled(CanCreateCLIAPIKey, FlagContext(g));
            && r.body == Replaced(body)
            && (decode(body).value != CLIKey ==> r.err.None?)
            && (decode(body).value == CLIKey ==>
                  && (flag == Success(true) ==> r.err.None?)
                  && (flag == Success(false) ==> r.err == Some(ErrFeatureNotAvailable))
                  && (flag.Failure? ==> r.err == Some(flag.error)))
  {
  }

  // ---------------------------------------------------------------------
  // CanAccessFeature

  const StatusForbidden: int := 403
  const StatusNotFound: int := 404
  const StatusInternalServerError: int := 500

  /** The status of a gate error: the later checks override the earlier
      ones, so the feature not being available wins over a missing flag,
      which wins over everything else. */
  function StatusFor(e: Error): (status: int)
    ensures FeatureNotAvailable in e.wraps <==> status == StatusForbidden
    ensures FeatureNotAvailable !in e.wraps && FliptFlagNotFound in e.wraps <==> status == StatusNotFound
    ensures FeatureNotAvailable !in e.wraps && FliptFlagNotFound !in e.wraps <==> status == StatusInternalServerError
  {
    var s0 := StatusInternalServerError;
    var s1 := if FliptServerError in e.wraps then StatusInternalServerError else s0;
    var s2 := if FliptFlagNotFound in e.wraps then StatusNotFound else s1;
    if FeatureNotAvailable in e.wraps then StatusForbidden else s2
  }

  datatype Response = CallNext | Render(message: string, status: int)

  /** The middleware: a gate without error hands the request to the next
      handler and renders nothing; an error is rendered with its text and
      status and the next handler is not called. */
  function CanAccessFeature(err: Option<Error>): (r: Response)
    ensures r == CallNext <==> err.None?
    ensures err.Some? ==> r == Render(err.value.message, StatusFor(err.value))
  {
    match err
    case None => CallNext
    case Some(e) => Render(e.message, StatusFor(e))
  }

  /** End to end: a CLI key whose flag is off is refused with 403 and the
      feature-not-available text; with no flag provider the request goes
      through. */
  lemma CLIKeyRefused(g: Group, c: FlagConfig, body: seq<byte>, decode: seq<byte> -> Result<KeyType, Error>,
                      isEnabled: (string, map<string, string>) -> Result<bool, Error>, read: Result<seq<byte>, Error>)
    ensures c.providerType == FliptProvider && decode(body) == Success(CLIKey) &&
            isEnabled(CanCreateCLIAPIKey, FlagContext(g)) == Success(false) ==>
              CanAccessFeature(CanCreateCLIAPIKeyGate(Success(g), Success(c), Success(body), decode, isEnabled).err)
              == Render("this feature is not yet available for you", StatusForbidden)
    ensures c.providerType != FliptProvider ==>
              CanAccessFeature(CanCreateCLIAPIKeyGate(Success(g), Success(c), read, decode, isEnabled).err) == CallNext
  {
  }
}
