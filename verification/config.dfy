/** Configuration loading: the decoded configuration file is overridden by
    environment variables in a fixed order, some combinations are
    required, and the result is stored for later `Get` calls. The file
    itself (opening and JSON decoding) is an input, as are the supported
    hash algorithms. */
module Config {
  import opened Wrappers

  // ---------------------------------------------------------------------
  // Environment and integers

  type Env = map<string, string>

  /** `os.Getenv`: an unset variable reads as the empty string. */
  function Getenv(env: Env, name: string): (r: string)
    ensures name !in env ==> r == ""
    ensures name in env ==> r == env[name]
  {
    if name in env then env[name] else ""
  }

  const MinInt64: int := -0x8000_0000_0000_0000
  const MaxInt64: int := 0x7fff_ffff_ffff_ffff
  const TwoTo64: int := 0x1_0000_0000_0000_0000
  const NanosPerSecond: int := 1_000_000_000

  predicate IsDigit(c: char)
  {
    '0' <= c <= '9'
  }

  predicate AllDigits(s: string)
  {
    forall k :: 0 <= k < |s| ==> IsDigit(s[k])
  }

  /** The value of a string of decimal digits. */
  function DigitsValue(s: string): (v: nat)
    requires AllDigits(s)
  {
    if |s| == 0 then 0 else DigitsValue(s[..|s| - 1]) * 10 + (s[|s| - 1] as int - '0' as int)
  }

  /** `strconv.Atoi` on a 64-bit platform: an optional sign followed by
      one or more decimal digits, whose value fits in an `int`. */
  function Atoi(s: string): (r: Option<int>)
    ensures r.Some? ==> MinInt64 <= r.value <= MaxInt64
    ensures r.Some? ==> |s| > 0
  {
    if |s| == 0 then None
    else
      var negative := s[0] == '-';
      var digits := if s[0] == '-' || s[0] == '+' then s[1..] else s;
      if |digits| == 0 || !AllDigits(digits) then None
      else
        var v: int := if negative then 0 - DigitsValue(digits) else DigitsValue(digits);
        if MinInt64 <= v <= MaxInt64 then Some(v) else None
  }

  function DigitChar(d: nat): (c: char)
    requires d < 10
    ensures IsDigit(c) && c as int - '0' as int == d
  {
    ('0' as int + d) as char
  }

  /** The decimal text of a natural number, without leading zeros. */
  function FormatNat(n: nat): (s: string)
    ensures |s| > 0 && AllDigits(s)
  {
    if n < 10 then [DigitChar(n)] else FormatNat(n / 10) + [DigitChar(n % 10)]
  }

  /** The decimal text of an integer, as `strconv.Itoa` writes it. */
  function FormatInt(n: int): (s: string)
  {
    if n < 0 then "-" + FormatNat(-n) else FormatNat(n)
  }

  lemma {:induction false} FormatNatValue(n: nat)
    ensures DigitsValue(FormatNat(n)) == n
  {
    if n >= 10 {
      var s := FormatNat(n);
      assert s[..|s| - 1] == FormatNat(n / 10);
      FormatNatValue(n / 10);
    }
  }

  /** `Atoi` reads back every 64-bit integer written in decimal. */
  lemma AtoiFormat(n: int)
    requires MinInt64 <= n <= MaxInt64
    ensures Atoi(FormatInt(n)) == Some(n)
  {
    var s := FormatInt(n);
    if n < 0 {
      assert s[1..] == FormatNat(-n);
      FormatNatValue(-n);
    } else {
      FormatNatValue(n);
    }
  }

  /** The empty string and a lone sign are not integers. */
  lemma AtoiRejectsNoDigits()
    ensures Atoi("").None? && Atoi("-").None? && Atoi("+").None?
  {
  }

  /** Every optionally signed run of decimal digits parses: to its value,
      negated after a minus sign, when that fits in 64 bits, and to nothing
      otherwise. Leading zeros and a plus sign are accepted. */
  lemma AtoiSignedDigits(sign: string, d: string)
    requires sign == "" || sign == "+" || sign == "-"
    requires |d| > 0 && AllDigits(d)
    ensures var v: int := if sign == "-" then 0 - DigitsValue(d) else DigitsValue(d);
            Atoi(sign + d) == if MinInt64 <= v <= MaxInt64 then Some(v) else None
  {
    var s := sign + d;
    if sign == "" {
      assert s == d;
      assert IsDigit(s[0]);
    } else {
      assert s[0] == sign[0];
      assert s[1..] == d;
    }
  }

  /** A character that is not a digit anywhere after the optional leading
      sign (a second sign included) makes the text unparsable. */
  lemma AtoiRejectsNonDigit(s: string, k: int)
    requires 0 <= k < |s| && !IsDigit(s[k])
    requires k == 0 ==> s[0] != '+' && s[0] != '-'
    ensures Atoi(s).None?
  {
    if k > 0 && (s[0] == '-' || s[0] == '+') {
      assert s[1..][k - 1] == s[k];
    }
  }

  /** The cases that separate `Atoi` from canonical decimal text. */
  lemma AtoiExamples()
    ensures Atoi("+7") == Some(7) && Atoi("007") == Some(7) && Atoi("-007") == Some(-7)
    ensures Atoi("7x").None? && Atoi("+-7").None? && Atoi(" 7").None?
  {
    AtoiSignedDigits("+", "7");
    AtoiSignedDigits("", "007");
    AtoiSignedDigits("-", "007");
    AtoiRejectsNonDigit("7x", 1);
    AtoiRejectsNonDigit("+-7", 1);
    AtoiRejectsNonDigit(" 7", 0);
  }

  // ---------------------------------------------------------------------
  // retrieveIntfromEnv

  /** Reads a non-zero integer from the environment as an unsigned 64-bit
      value. A negative value is converted as Go converts it, wrapping
      around modulo 2^64. */
  function RetrieveIntFromEnv(env: Env, name: string): (r: Result<nat, string>)
    ensures Atoi(Getenv(env, name)).None? <==> r == Failure("Failed to parse - " + name)
    ensures Atoi(Getenv(env, name)) == Some(0) <==> r == Failure("Invalid - " + name)
    ensures r.Success? ==> r.value < TwoTo64
    ensures r.Success? <==> Atoi(Getenv(env, name)).Some? && Atoi(Getenv(env, name)).value != 0
    ensures r.Success? && Atoi(Getenv(env, name)).value > 0 ==> r.value == Atoi(Getenv(env, name)).value
    ensures r.Success? && Atoi(Getenv(env, name)).value < 0 ==> r.value == Atoi(Getenv(env, name)).value + TwoTo64
  {
    match Atoi(Getenv(env, name))
    case None => Failure("Failed to parse - " + name)
    case Some(value) =>
      if value == 0 then Failure("Invalid - " + name)
      else Success(value % TwoTo64)
  }

  /** A positive value written in decimal is read back unchanged. */
  lemma RetrieveIntRoundTrip(env: Env, name: string, n: int)
    requires 0 < n <= MaxInt64
    ensures RetrieveIntFromEnv(env[name := FormatInt(n)], name) == Success(n)
  {
    AtoiFormat(n);
  }

  // ---------------------------------------------------------------------
  // Configuration

  datatype AuthProvider = NoAuth | BasicAuth | OtherAuth(name: string)

  datatype Basic = Basic(username: string, password: string)

  datatype AuthConfiguration = AuthConfiguration(authType: AuthProvider, basic: Basic)

  datatype UIAuthConfiguration = UIAuthConfiguration(authType: AuthProvider, basic: seq<Basic>, jwtKey: string,
                                                     jwtTokenExpiry: int)

  datatype SqsConfiguration = SqsConfiguration(dsn: string, profile: string, delaySeconds: int, maxMessages: int,
                                               visibilityTimeout: int)

  const NoSqs: SqsConfiguration := SqsConfiguration("", "", 0, 0, 0)

  datatype QueueConfiguration = QueueConfiguration(queueType: string, redisDSN: string, sqs: SqsConfiguration)

  datatype StrategyConfiguration = StrategyConfiguration(strategyType: string, intervalSeconds: nat, retryLimit: nat)

  datatype SignatureConfiguration = SignatureConfiguration(header: string, hash: string)

  datatype Configuration = Configuration(
    auth: AuthConfiguration,
    uiAuth: UIAuthConfiguration,
    uiAuthorizedUsers: map<string, string>,
    databaseDSN: string,
    queue: QueueConfiguration,
    httpPort: int,
    strategy: StrategyConfiguration,
    signature: SignatureConfiguration)

  const RedisQueue: string := "redis"

  // ---------------------------------------------------------------------
  // ensureSignature and parseAuthorizedUsers

  /** The signature hash must be one of the supported algorithms. The
      message lists them as `algoKeys`, in the map's iteration order. */
  function EnsureSignature(signature: SignatureConfiguration, algorithms: set<string>, algoKeys: string): (r: Option<string>)
    ensures r.None? <==> signature.hash in algorithms
    ensures r.Some? ==> r.value == "invalid hash algorithm - '" + signature.hash + "', must be one of " + algoKeys
  {
    if signature.hash in algorithms then None
    else Some("invalid hash algorithm - '" + signature.hash + "', must be one of " + algoKeys)
  }

  /** The user name to password map, later entries overwriting earlier
      ones with the same user name. */
  function ParseAuthorizedUsers(users: seq<Basic>): (r: map<string, string>)
    ensures forall u :: u in r <==> exists k :: 0 <= k < |users| && users[k].username == u
    ensures forall u :: u in r ==> LastEntry(users, u, r[u])
  {
    if |users| == 0 then map[]
    else
      var m := ParseAuthorizedUsers(users[..|users| - 1]);
      ParseAuthorizedUsersStep(users, m);
      m[users[|users| - 1].username := users[|users| - 1].password]
  }

  /** `Basic(u, p)` occurs in `users` with no later entry for `u`. */
  predicate LastEntry(users: seq<Basic>, u: string, p: string)
  {
    exists k :: 0 <= k < |users| && users[k] == Basic(u, p) && forall j :: k < j < |users| ==> users[j].username != u
  }

  /** One iteration of the loop keeps the map's promise. */
  lemma ParseAuthorizedUsersStep(users: seq<Basic>, m: map<string, string>)
    requires |users| > 0
    requires forall u :: u in m <==> exists k :: 0 <= k < |users| - 1 && users[k].username == u
    requires forall u :: u in m ==> LastEntry(users[..|users| - 1], u, m[u])
    ensures var last := users[|users| - 1];
            var r := m[last.username := last.password];
            && (forall u :: u in r <==> exists k :: 0 <= k < |users| && users[k].username == u)
            && (forall u :: u in r ==> LastEntry(users, u, r[u]))
  {
    var init := users[..|users| - 1];
    var last := users[|users| - 1];
    var r := m[last.username := last.password];
    forall u
      ensures u in r <==> exists k :: 0 <= k < |users| && users[k].username == u
    {
      if u != last.username && exists k :: 0 <= k < |users| && users[k].username == u {
        var k :| 0 <= k < |users| && users[k].username == u;
        assert k < |users| - 1;
      }
    }
    forall u | u in r
      ensures LastEntry(users, u, r[u])
    {
      if u == last.username {
        assert users[|users| - 1] == Basic(u, r[u]);
      } else {
        var k :| 0 <= k < |init| && init[k] == Basic(u, m[u]) && forall j :: k < j < |init| ==> init[j].username != u;
        assert users[k] == init[k];
        forall j | k < j < |users|
          ensures users[j].username != u
        {
          if j < |init| {
            assert users[j] == init[j];
          }
        }
      }
    }
  }

  /** A later entry for a user name wins over an earlier one. */
  lemma LaterPasswordWins(users: seq<Basic>, u: string, p: string, q: string)
    ensures ParseAuthorizedUsers(users + [Basic(u, p), Basic(u, q)])[u] == q
  {
    var all := users + [Basic(u, p), Basic(u, q)];
    assert all[..|all| - 1] == users + [Basic(u, p)];
  }

  // ---------------------------------------------------------------------
  // LoadConfig

  /** The overrides that cannot fail: database, queue, HTTP port and the
      signature header and hash. */
  function ApplyOverrides(c: Configuration, env: Env): (r: Configuration)
    ensures r.databaseDSN == (if Getenv(env, "CONVOY_MONGO_DSN") != "" then Getenv(env, "CONVOY_MONGO_DSN") else c.databaseDSN)
    ensures r.queue == (if Getenv(env, "CONVOY_REDIS_DSN") != ""
                        then QueueConfiguration(RedisQueue, Getenv(env, "CONVOY_REDIS_DSN"), NoSqs) else c.queue)
    ensures r.httpPort == Atoi(Getenv(env, "PORT")).GetOr(c.httpPort)
    ensures r.signature.header == (if Getenv(env, "CONVOY_SIGNATURE_HEADER") != "" then Getenv(env, "CONVOY_SIGNATURE_HEADER") else c.signature.header)
    ensures r.signature.hash == (if Getenv(env, "CONVOY_SIGNATURE_HASH") != "" then Getenv(env, "CONVOY_SIGNATURE_HASH") else c.signature.hash)
    ensures r.auth == c.auth && r.uiAuth == c.uiAuth && r.strategy == c.strategy && r.uiAuthorizedUsers == c.uiAuthorizedUsers
  {
    var c1 := if Getenv(env, "CONVOY_MONGO_DSN") != "" then c.(databaseDSN := Getenv(env, "CONVOY_MONGO_DSN")) else c;
    var c2 := if Getenv(env, "CONVOY_REDIS_DSN") != ""
              then c1.(queue := QueueConfiguration(RedisQueue, Getenv(env, "CONVOY_REDIS_DSN"), NoSqs))
              else c1;
    var c3 := match Atoi(Getenv(env, "PORT")) case Some(port) => c2.(httpPort := port) case None => c2;
    var c4 := if Getenv(env, "CONVOY_SIGNATURE_HEADER") != ""
              then c3.(signature := c3.signature.(header := Getenv(env, "CONVOY_SIGNATURE_HEADER")))
              else c3;
    if Getenv(env, "CONVOY_SIGNATURE_HASH") != ""
    then c4.(signature := c4.signature.(hash := Getenv(env, "CONVOY_SIGNATURE_HASH")))
    else c4
  }

  /** The API credentials: a user name requires a password. */
  function ApplyAPIAuth(c: Configuration, env: Env): (r: Result<Configuration, string>)
    ensures r.Failure? <==> Getenv(env, "CONVOY_API_USERNAME") != "" && Getenv(env, "CONVOY_API_PASSWORD") == ""
    ensures r.Failure? ==> r.error == "Failed to retrieve apiPassword"
    ensures r.Success? ==> r.value.(auth := c.auth) == c
    ensures r.Success? && Getenv(env, "CONVOY_API_USERNAME") == "" ==> r.value == c
    ensures r.Success? && Getenv(env, "CONVOY_API_USERNAME") != "" ==>
              r.value.auth == AuthConfiguration(BasicAuth, Basic(Getenv(env, "CONVOY_API_USERNAME"), Getenv(env, "CONVOY_API_PASSWORD")))
  {
    var username := Getenv(env, "CONVOY_API_USERNAME");
    if username == "" then Success(c)
    else
      var password := Getenv(env, "CONVOY_API_PASSWORD");
      if password == "" then Failure("Failed to retrieve apiPassword")
      else Success(c.(auth := AuthConfiguration(BasicAuth, Basic(username, password))))
  }

  /** `time.Duration(n) * time.Second`: signed 64-bit nanoseconds, with
      the multiplication wrapping around as Go's does. */
  function SecondsDuration(n: int): (r: int)
    ensures MinInt64 <= r <= MaxInt64
    ensures MinInt64 <= n * NanosPerSecond <= MaxInt64 ==> r == n * NanosPerSecond
  {
    var w := (n * NanosPerSecond) % TwoTo64;
    if w > MaxInt64 then w - TwoTo64 else w
  }

  /** The dashboard variables are complete: no user name, or a user name
      with a password, a JWT key and a numeric JWT expiry. */
  predicate UIAuthComplete(env: Env)
  {
    Getenv(env, "CONVOY_UI_USERNAME") != "" ==>
      && Getenv(env, "CONVOY_UI_PASSWORD") != "" && Getenv(env, "CONVOY_JWT_KEY") != ""
      && Atoi(Getenv(env, "CONVOY_JWT_EXPIRY")).Some?
  }

  /** The retry variables are complete: no strategy, or a strategy with a
      valid interval and a valid retry limit. */
  predicate StrategyComplete(env: Env)
  {
    Getenv(env, "CONVOY_RETRY_STRATEGY") != "" ==>
      RetrieveIntFromEnv(env, "CONVOY_INTERVAL_SECONDS").Success? && RetrieveIntFromEnv(env, "CONVOY_RETRY_LIMIT").Success?
  }

  /** The dashboard credentials: a user name requires a password, a JWT key
      and a numeric JWT expiry, checked in that order. */
  function ApplyUIAuth(c: Configuration, env: Env): (r: Result<Configuration, string>)
    ensures r.Success? <==> UIAuthComplete(env)
    ensures r.Success? ==> r.value.(uiAuth := c.uiAuth) == c
    ensures Getenv(env, "CONVOY_UI_USERNAME") == "" ==> r == Success(c)
    ensures Getenv(env, "CONVOY_UI_USERNAME") != "" && r.Success? ==>
              && Getenv(env, "CONVOY_UI_PASSWORD") != "" && Getenv(env, "CONVOY_JWT_KEY") != ""
              && Atoi(Getenv(env, "CONVOY_JWT_EXPIRY")).Some?
              && r.value.uiAuth == UIAuthConfiguration(BasicAuth, [Basic(Getenv(env, "CONVOY_UI_USERNAME"), Getenv(env, "CONVOY_UI_PASSWORD"))],
                                                       Getenv(env, "CONVOY_JWT_KEY"), SecondsDuration(Atoi(Getenv(env, "CONVOY_JWT_EXPIRY")).value))
  {
    var username := Getenv(env, "CONVOY_UI_USERNAME");
    if username == "" then Success(c)
    else if Getenv(env, "CONVOY_UI_PASSWORD") == "" then Failure("Failed to retrieve uiPassword")
    else if Getenv(env, "CONVOY_JWT_KEY") == "" then Failure("Failed to retrieve jwtKey")
    else if Getenv(env, "CONVOY_JWT_EXPIRY") == "" then Failure("Failed to retrieve jwtExpiry")
    else match Atoi(Getenv(env, "CONVOY_JWT_EXPIRY"))
      case None => Failure("Failed to parse jwtExpiry")
      case Some(seconds) =>
        Success(c.(uiAuth := UIAuthConfiguration(BasicAuth, [Basic(username, Getenv(env, "CONVOY_UI_PASSWORD"))],
                                                  Getenv(env, "CONVOY_JWT_KEY"), SecondsDuration(seconds))))
  }

  /** A retry strategy requires a valid interval and then a valid retry
      limit. */
  function ApplyStrategy(c: Configuration, env: Env): (r: Result<Configuration, string>)
    ensures r.Success? <==> StrategyComplete(env)
    ensures r.Success? ==> r.value.(strategy := c.strategy) == c
    ensures Getenv(env, "CONVOY_RETRY_STRATEGY") == "" ==> r == Success(c)
    ensures Getenv(env, "CONVOY_RETRY_STRATEGY") != "" ==>
              && (RetrieveIntFromEnv(env, "CONVOY_INTERVAL_SECONDS").Failure? ==> r == Failure(RetrieveIntFromEnv(env, "CONVOY_INTERVAL_SECONDS").error))
              && (RetrieveIntFromEnv(env, "CONVOY_INTERVAL_SECONDS").Success? && RetrieveIntFromEnv(env, "CONVOY_RETRY_LIMIT").Failure? ==>
                    r == Failure(RetrieveIntFromEnv(env, "CONVOY_RETRY_LIMIT").error))
              && (r.Success? ==> r.value.strategy == StrategyConfiguration(Getenv(env, "CONVOY_RETRY_STRATEGY"),
                                   RetrieveIntFromEnv(env, "CONVOY_INTERVAL_SECONDS").value, RetrieveIntFromEnv(env, "CONVOY_RETRY_LIMIT").value))
  {
    var strategy := Getenv(env, "CONVOY_RETRY_STRATEGY");
    if strategy == "" then Success(c)
    else
      var interval :- RetrieveIntFromEnv(env, "CONVOY_INTERVAL_SECONDS");
      var limit :- RetrieveIntFromEnv(env, "CONVOY_RETRY_LIMIT");
      Success(c.(strategy := StrategyConfiguration(strategy, interval, limit)))
  }

  /** `LoadConfig` after the file has been opened and decoded into
      `decoded` (or failed to be). */
  function LoadConfig(decoded: Result<Configuration, string>, env: Env, algorithms: set<string>, algoKeys: string): (r: Result<Configuration, string>)
    ensures decoded.Failure? ==> r == Failure(decoded.error)
  {
    var file :- decoded;
    var c := ApplyOverrides(file, env);
    match EnsureSignature(c.signature, algorithms, algoKeys)
    case Some(e) => Failure(e)
    case None =>
      var c1 :- ApplyAPIAuth(c, env);
      var c2 :- ApplyUIAuth(c1, env);
      var c3 :- ApplyStrategy(c2, env);
      Success(c3.(uiAuthorizedUsers := ParseAuthorizedUsers(c3.uiAuth.basic)))
  }

  /** A decoded file loads exactly when the signature hash (after its
      override) is supported, an API user name comes with a password, and
      the dashboard and retry variables are complete. */
  lemma LoadConfigSucceeds(file: Configuration, env: Env, algorithms: set<string>, algoKeys: string)
    ensures LoadConfig(Success(file), env, algorithms, algoKeys).Success? <==>
              && ApplyOverrides(file, env).signature.hash in algorithms
              && !(Getenv(env, "CONVOY_API_USERNAME") != "" && Getenv(env, "CONVOY_API_PASSWORD") == "")
              && UIAuthComplete(env)
              && StrategyComplete(env)
  {
    var c := ApplyOverrides(file, env);
    if c.signature.hash in algorithms && ApplyAPIAuth(c, env).Success? {
      var c1 := ApplyAPIAuth(c, env).value;
      if ApplyUIAuth(c1, env).Success? {
        var c2 := ApplyUIAuth(c1, env).value;
        assert ApplyStrategy(c2, env).Success? <==> StrategyComplete(env);
      }
    }
  }

  /** What a successful load produces, stated against the environment:
      each override is taken when its variable is set and the file's value
      is kept otherwise, and the authorized users are those of the
      dashboard credentials. */
  lemma LoadConfigOverrides(file: Configuration, env: Env, algorithms: set<string>, algoKeys: string)
    requires LoadConfig(Success(file), env, algorithms, algoKeys).Success?
    ensures var r := LoadConfig(Success(file), env, algorithms, algoKeys).value;
            && r.databaseDSN == (if Getenv(env, "CONVOY_MONGO_DSN") != "" then Getenv(env, "CONVOY_MONGO_DSN") else file.databaseDSN)
            && r.queue == (if Getenv(env, "CONVOY_REDIS_DSN") != ""
                           then QueueConfiguration(RedisQueue, Getenv(env, "CONVOY_REDIS_DSN"), NoSqs) else file.queue)
            && r.httpPort == Atoi(Getenv(env, "PORT")).GetOr(file.httpPort)
            && r.signature.header == (if Getenv(env, "CONVOY_SIGNATURE_HEADER") != "" then Getenv(env, "CONVOY_SIGNATURE_HEADER") else file.signature.header)
            && r.signature.hash == (if Getenv(env, "CONVOY_SIGNATURE_HASH") != "" then Getenv(env, "CONVOY_SIGNATURE_HASH") else file.signature.hash)
            && r.signature.hash in algorithms
            && (Getenv(env, "CONVOY_API_USERNAME") != "" ==>
                  r.auth == AuthConfiguration(BasicAuth, Basic(Getenv(env, "CONVOY_API_USERNAME"), Getenv(env, "CONVOY_API_PASSWORD"))))
            && (Getenv(env, "CONVOY_API_USERNAME") == "" ==> r.auth == file.auth)
            && (Getenv(env, "CONVOY_UI_USERNAME") == "" ==> r.uiAuth == file.uiAuth)
            && r.uiAuthorizedUsers == ParseAuthorizedUsers(r.uiAuth.basic)
  {
  }

  /** The required combinations: each missing piece fails the load with its
      own message, provided everything checked before it was in order. */
  lemma LoadConfigRequirements(file: Configuration, env: Env, algorithms: set<string>, algoKeys: string)
    ensures var c := ApplyOverrides(file, env);
            var r := LoadConfig(Success(file), env, algorithms, algoKeys);
            && (c.signature.hash !in algorithms ==> r.Failure? && r == Failure(EnsureSignature(c.signature, algorithms, algoKeys).value))
            && (c.signature.hash in algorithms && Getenv(env, "CONVOY_API_USERNAME") != "" && Getenv(env, "CONVOY_API_PASSWORD") == "" ==>
                  r == Failure("Failed to retrieve apiPassword"))
            && (c.signature.hash in algorithms && ApplyAPIAuth(c, env).Success? && Getenv(env, "CONVOY_UI_USERNAME") != "" ==>
                  && (Getenv(env, "CONVOY_UI_PASSWORD") == "" ==> r == Failure("Failed to retrieve uiPassword"))
                  && (Getenv(env, "CONVOY_UI_PASSWORD") != "" && Getenv(env, "CONVOY_JWT_KEY") == "" ==> r == Failure("Failed to retrieve jwtKey"))
                  && (Getenv(env, "CONVOY_UI_PASSWORD") != "" && Getenv(env, "CONVOY_JWT_KEY") != "" && Getenv(env, "CONVOY_JWT_EXPIRY") == "" ==>
                        r == Failure("Failed to retrieve jwtExpiry"))
                  && (&& Getenv(env, "CONVOY_UI_PASSWORD") != "" && Getenv(env, "CONVOY_JWT_KEY") != ""
                      && Getenv(env, "CONVOY_JWT_EXPIRY") != "" && Atoi(Getenv(env, "CONVOY_JWT_EXPIRY")).None?
                      ==> r == Failure("Failed to parse jwtExpiry")))
            && (c.signature.hash in algorithms && ApplyAPIAuth(c, env).Success? && UIAuthComplete(env)
                && Getenv(env, "CONVOY_RETRY_STRATEGY") != "" ==>
                  && (RetrieveIntFromEnv(env, "CONVOY_INTERVAL_SECONDS").Failure? ==>
                        r == Failure(RetrieveIntFromEnv(env, "CONVOY_INTERVAL_SECONDS").error))
                  && (RetrieveIntFromEnv(env, "CONVOY_INTERVAL_SECONDS").Success? && RetrieveIntFromEnv(env, "CONVOY_RETRY_LIMIT").Failure? ==>
                        r == Failure(RetrieveIntFromEnv(env, "CONVOY_RETRY_LIMIT").error)))
  {
  }

  /** With all four dashboard variables set and valid, the dashboard
      authentication is Basic with exactly those credentials, the expiry is
      that many seconds, and they are the only authorized user. */
  lemma UIAuthFromEnv(file: Configuration, env: Env, algorithms: set<string>, algoKeys: string)
    requires LoadConfig(Success(file), env, algorithms, algoKeys).Success?
    requires Getenv(env, "CONVOY_UI_USERNAME") != ""
    ensures var r := LoadConfig(Success(file), env, algorithms, algoKeys).value;
            var seconds := Atoi(Getenv(env, "CONVOY_JWT_EXPIRY"));
            && seconds.Some?
            && r.uiAuth.authType == BasicAuth
            && r.uiAuth.basic == [Basic(Getenv(env, "CONVOY_UI_USERNAME"), Getenv(env, "CONVOY_UI_PASSWORD"))]
            && r.uiAuth.jwtKey == Getenv(env, "CONVOY_JWT_KEY") && r.uiAuth.jwtKey != ""
            && r.uiAuth.jwtTokenExpiry == SecondsDuration(seconds.value)
            && r.uiAuthorizedUsers == map[Getenv(env, "CONVOY_UI_USERNAME") := Getenv(env, "CONVOY_UI_PASSWORD")]
  {
    var c1 := ApplyAPIAuth(ApplyOverrides(file, env), env).value;
    var c2 := ApplyUIAuth(c1, env).value;
    var c3 := ApplyStrategy(c2, env).value;
    assert LoadConfig(Success(file), env, algorithms, algoKeys).value == c3.(uiAuthorizedUsers := ParseAuthorizedUsers(c3.uiAuth.basic));
    assert c3.uiAuth == c2.uiAuth by {
      assert c3.(strategy := c2.strategy) == c2;
    }
    ParseAuthorizedUsersSingle(Basic(Getenv(env, "CONVOY_UI_USERNAME"), Getenv(env, "CONVOY_UI_PASSWORD")));
  }

  /** One credential authorizes exactly its own user. */
  lemma ParseAuthorizedUsersSingle(b: Basic)
    ensures ParseAuthorizedUsers([b]) == map[b.username := b.password]
  {
    assert [b][..0] == [];
  }

  // ---------------------------------------------------------------------
  // The stored configuration and Get

  /** What the process-wide configuration holder contains. */
  datatype Store = Store(config: Option<Configuration>)

  const Unloaded: Store := Store(None)

  /** `LoadConfig` as it acts on the holder: a successful load replaces the
      stored configuration, a failed one leaves it as it was. */
  function Load(s: Store, decoded: Result<Configuration, string>, env: Env, algorithms: set<string>, algoKeys: string): (r: (Store, Option<string>))
    ensures r.1.None? <==> LoadConfig(decoded, env, algorithms, algoKeys).Success?
    ensures r.1.None? ==> r.0 == Store(Some(LoadConfig(decoded, env, algorithms, algoKeys).value))
    ensures r.1.Some? ==> r.0 == s && r.1.value == LoadConfig(decoded, env, algorithms, algoKeys).error
  {
    match LoadConfig(decoded, env, algorithms, algoKeys)
    case Success(c) => (Store(Some(c)), None)
    case Failure(e) => (s, Some(e))
  }

  function Get(s: Store): (r: Result<Configuration, string>)
    ensures s.config.None? <==> r == Failure("call Load before this function")
    ensures s.config.Some? ==> r == Success(s.config.value)
  {
    match s.config
    case None => Failure("call Load before this function")
    case Some(c) => Success(c)
  }

  /** `Get` fails until a load succeeds, then returns what that load built;
      a failed load does not disturb what an earlier one stored. */
  lemma GetAfterLoad(s: Store, decoded: Result<Configuration, string>, env: Env, algorithms: set<string>, algoKeys: string)
    ensures Get(Unloaded).Failure?
    ensures var (s', err) := Load(s, decoded, env, algorithms, algoKeys);
            && (err.None? ==> Get(s') == LoadConfig(decoded, env, algorithms, algoKeys))
            && (err.Some? ==> Get(s') == Get(s))
  {
  }
}
