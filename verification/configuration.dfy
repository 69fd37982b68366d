/**
 * Settings, the deployment environment, the layered resolution of
 * configuration sources, and the values derived from the settings: the
 * sender address, the e-mail client's timeout and the Postgres URLs.
 */
module Configuration {
  import opened Wrappers
  import opened Text
  import opened Domain

  type u16 = n: int | 0 <= n < 0x1_0000
  type u64 = n: int | 0 <= n < 0x1_0000_0000_0000_0000

  datatype DatabaseSettings = DatabaseSettings(
    username: string,
    password: string,
    port: u16,
    host: string,
    databaseName: string)

  datatype ApplicationSettings = ApplicationSettings(port: u16, host: string)

  datatype EmailClientSettings = EmailClientSettings(
    baseUrl: string,
    senderEmail: string,
    apiKey: string,
    timeoutMilliseconds: u64)

  datatype Settings = Settings(
    database: DatabaseSettings,
    application: ApplicationSettings,
    emailClient: EmailClientSettings)

  // ---------------------------------------------------------------- sender

  /** Re-validates the configured sender address through the address parser. */
  function Sender(settings: EmailClientSettings, parser: EmailParser): (r: Result<SubscriberEmail, string>)
    ensures r.Ok? <==> parser.accepts(settings.senderEmail)
    ensures r.Ok? ==> r.value.address == settings.senderEmail
    ensures r.Err? ==> r.error == parser.reason(settings.senderEmail)
  {
    Parse(parser, settings.senderEmail)
  }

  // ---------------------------------------------------------------- timeout

  const NanosPerMilli := 1_000_000
  const NanosPerSec := 1_000_000_000

  /** `std::time::Duration`: whole seconds plus a sub-second part in nanoseconds. */
  datatype Duration = Duration(secs: u64, nanos: nat)

  function TotalNanos(d: Duration): nat {
    d.secs * NanosPerSec + d.nanos
  }

  /** The inverse reading of a duration in whole milliseconds. */
  function AsMillis(d: Duration): nat {
    d.secs * 1000 + d.nanos / NanosPerMilli
  }

  /** `Duration::from_millis`: total over `u64`, normalised, and exactly `ms` milliseconds long. */
  function FromMillis(ms: u64): (d: Duration)
    ensures d.nanos < NanosPerSec
    ensures TotalNanos(d) == ms * NanosPerMilli
  {
    var secs := ms / 1000;
    var rest := ms % 1000;
    assert ms == secs * 1000 + rest;
    assert ms * NanosPerMilli == secs * NanosPerSec + rest * NanosPerMilli;
    Duration(secs, rest * NanosPerMilli)
  }

  lemma FromMillisRoundTrip(ms: u64)
    ensures AsMillis(FromMillis(ms)) == ms
  {
    var d := FromMillis(ms);
    assert d.nanos / NanosPerMilli == ms % 1000;
  }

  /** The transport timeout of the e-mail client. */
  function Timeout(settings: EmailClientSettings): (d: Duration)
    ensures d.nanos < NanosPerSec
    ensures TotalNanos(d) == settings.timeoutMilliseconds * NanosPerMilli
    ensures AsMillis(d) == settings.timeoutMilliseconds
  {
    FromMillisRoundTrip(settings.timeoutMilliseconds);
    FromMillis(settings.timeoutMilliseconds)
  }

  // ---------------------------------------------------------------- environment

  datatype Environment = Local | Production

  /** The name of the environment; it is also the name of its settings file. */
  function AsStr(e: Environment): (r: string)
    ensures |r| > 0
  {
    match e
    case Local => "local"
    case Production => "production"
  }

  /** The names are already lowercase. */
  lemma AsStrLowercase(e: Environment)
    ensures ToLower(AsStr(e)) == AsStr(e)
  {
    var s := AsStr(e);
    forall i | 0 <= i < |s| ensures LowerChar(s[i]) == s[i] {
      assert !IsUpper(s[i]);
    }
  }

  lemma AsStrInjective(e1: Environment, e2: Environment)
    ensures AsStr(e1) == AsStr(e2) <==> e1 == e2
  {
    if e1 != e2 {
      assert AsStr(e1)[0] != AsStr(e2)[0];
    }
  }

  const UnsupportedSuffix := " is not a supported environment. Use either 'local' or 'production'."

  function UnsupportedMessage(lowered: string): string {
    lowered + UnsupportedSuffix
  }

  /** `TryFrom<String>`: the lowercased input must name an environment, else the lowercased input is quoted. */
  function TryFrom(s: string): (r: Result<Environment, string>)
    ensures r.Ok? ==> AsStr(r.value) == ToLower(s)
    ensures r.Err? ==> (forall e :: AsStr(e) != ToLower(s)) && r.error == UnsupportedMessage(ToLower(s))
  {
    var lowered := ToLower(s);
    if lowered == "local" then Ok(Local)
    else if lowered == "production" then Ok(Production)
    else Err(UnsupportedMessage(lowered))
  }

  /** Parsing the printed name gives the environment back. */
  lemma TryFromAsStr(e: Environment)
    ensures TryFrom(AsStr(e)) == Ok(e)
  {
    AsStrLowercase(e);
    var r := TryFrom(AsStr(e));
    AsStrInjective(r.value, e);
  }

  /** Parsing ignores ASCII case: it accepts exactly the case variants of the two names. */
  lemma TryFromCaseInsensitive(s: string, e: Environment)
    ensures TryFrom(s) == Ok(e) <==> EqualIgnoringCase(s, AsStr(e))
  {
    ToLowerEqualIff(s, AsStr(e));
    if TryFrom(s) == Ok(e) {
      assert ToLower(s) == ToLower(AsStr(e));
    }
    if EqualIgnoringCase(s, AsStr(e)) {
      TryFromAsStr(e);
      assert TryFrom(s) == TryFrom(AsStr(e));
    }
  }

  /** Inputs equal up to ASCII case are parsed alike, error text included. */
  lemma TryFromRespectsCase(a: string, b: string)
    requires EqualIgnoringCase(a, b)
    ensures TryFrom(a) == TryFrom(b)
  {
    ToLowerEqualIff(a, b);
  }

  /** The error quotes the lowercased input, not the raw one. */
  lemma TryFromRejectsStaging()
    ensures TryFrom("Staging") == Err("staging" + UnsupportedSuffix)
  {
    var lowered := ToLower("Staging");
    assert |lowered| == 7;
    assert lowered[0] == LowerChar('S') == 's';
    assert lowered[1] == 't' && lowered[2] == 'a' && lowered[3] == 'g';
    assert lowered[4] == 'i' && lowered[5] == 'n' && lowered[6] == 'g';
    assert lowered == "staging";
    assert lowered != "local" && lowered != "production";
    assert TryFrom("Staging") == Err(UnsupportedMessage("staging"));
  }

  /** `APP_ENVIRONMENT`, defaulting to "local" when it is not set. */
  function SelectEnvironment(variable: Option<string>): (r: Result<Environment, string>)
    ensures variable.None? ==> r == Ok(Local)
    ensures variable.Some? ==> r == TryFrom(variable.value)
  {
    TryFrom(variable.GetOr("local"))
  }

  // ---------------------------------------------------------------- layered sources

  /** One configuration source, flattened to dotted keys such as "application.port". */
  type Source = map<string, string>

  /** Stacks sources in order; a key takes its value from the last source that has it. */
  function Merge(layers: seq<Source>): Source {
    if layers == [] then map[] else Merge(layers[..|layers| - 1]) + layers[|layers| - 1]
  }

  /** Last wins: a key's merged value comes from the latest layer that defines it. */
  lemma {:induction false} MergeLastWins(layers: seq<Source>, i: nat, k: string)
    requires i < |layers| && k in layers[i]
    requires forall j :: i < j < |layers| ==> k !in layers[j]
    ensures k in Merge(layers) && Merge(layers)[k] == layers[i][k]
  {
    var n := |layers|;
    var front := layers[..n - 1];
    assert Merge(layers) == Merge(front) + layers[n - 1];
    if i < n - 1 {
      assert front[i] == layers[i];
      assert forall j :: i < j < |front| ==> front[j] == layers[j];
      MergeLastWins(front, i, k);
      assert k !in layers[n - 1];
    }
  }

  /** The merge has exactly the keys of its layers. */
  lemma {:induction false} MergeKeys(layers: seq<Source>, k: string)
    ensures k in Merge(layers) <==> exists i :: 0 <= i < |layers| && k in layers[i]
  {
    if layers != [] {
      var n := |layers|;
      var front := layers[..n - 1];
      MergeKeys(front, k);
      if k in Merge(front) {
        var i :| 0 <= i < |front| && k in front[i];
        assert k in layers[i];
      }
      if exists i :: 0 <= i < n && k in layers[i] {
        var i :| 0 <= i < n && k in layers[i];
        if i < n - 1 {
          assert k in front[i];
        }
      }
    }
  }

  /** Turns the double-underscore separator of a variable name into the dot of a key path. */
  function SeparatorToDot(s: string): (r: string)
    ensures '_' !in s ==> r == s
  {
    if |s| >= 2 && s[0] == '_' && s[1] == '_' then "." + SeparatorToDot(s[2..])
    else if s == [] then []
    else [s[0]] + SeparatorToDot(s[1..])
  }

  const EnvPrefix := "APP_"

  /**
   * The key a process environment variable addresses: names starting with
   * "APP_" (in any case) address the lowercased rest, with "__" read as ".";
   * other names are not part of the configuration.
   */
  function EnvKey(name: string): (r: Option<string>)
    ensures r.Some? <==> |name| >= |EnvPrefix| && EqualIgnoringCase(name[..|EnvPrefix|], EnvPrefix)
    ensures r.Some? ==> ToLower(r.value) == r.value
  {
    if |name| >= |EnvPrefix| && EqualIgnoringCase(name[..|EnvPrefix|], EnvPrefix) then
      ToLowerIdempotent(SeparatorToDot(name[|EnvPrefix|..]));
      Some(ToLower(SeparatorToDot(name[|EnvPrefix|..])))
    else None
  }

  function Join(parts: seq<string>, sep: string): string {
    if parts == [] then ""
    else if |parts| == 1 then parts[0]
    else parts[0] + sep + Join(parts[1..], sep)
  }

  /** No two consecutive underscores: the name contains no separator of its own. */
  predicate NoDoubleUnderscore(p: string) {
    forall j :: 0 <= j < |p| - 1 ==> !(p[j] == '_' && p[j + 1] == '_')
  }

  /**
   * A key-path segment that can be written in a variable name: single
   * underscores are allowed (`email_client`, `timeout_milliseconds`), but no
   * "__" and no trailing '_', since "a_" + "__" + "b" reads back as "a._b".
   */
  predicate Segment(p: string) {
    NoDoubleUnderscore(p) && (p == [] || p[|p| - 1] != '_')
  }

  /** A name without a separator is kept as it is. */
  lemma {:induction false} SeparatorToDotPlain(a: string)
    requires NoDoubleUnderscore(a)
    ensures SeparatorToDot(a) == a
  {
    if a != [] {
      assert !(|a| >= 2 && a[0] == '_' && a[1] == '_');
      SeparatorToDotPlain(a[1..]);
      assert [a[0]] + a[1..] == a;
    }
  }

  lemma SegmentTail(a: string)
    requires Segment(a) && a != []
    ensures Segment(a[1..])
  {
    var tail := a[1..];
    forall j | 0 <= j < |tail| - 1
      ensures !(tail[j] == '_' && tail[j + 1] == '_')
    {
      assert tail[j] == a[j + 1] && tail[j + 1] == a[j + 2];
    }
  }

  /** The separator after a segment becomes a dot, the segment itself is kept. */
  lemma {:induction false} SeparatorToDotSkip(a: string, rest: string)
    requires Segment(a)
    ensures SeparatorToDot(a + "__" + rest) == a + "." + SeparatorToDot(rest)
  {
    var s := a + "__" + rest;
    if a == [] {
      assert s == "__" + rest;
      assert s[0] == '_' && s[1] == '_' && s[2..] == rest;
      assert SeparatorToDot(s) == "." + SeparatorToDot(rest);
    } else {
      assert s[0] == a[0];
      if |a| == 1 {
        assert a[0] != '_';
      } else {
        assert s[1] == a[1] && !(a[0] == '_' && a[1] == '_');
      }
      assert s[1..] == a[1..] + "__" + rest;
      assert SeparatorToDot(s) == [a[0]] + SeparatorToDot(s[1..]);
      SegmentTail(a);
      SeparatorToDotSkip(a[1..], rest);
      assert [a[0]] + a[1..] == a;
    }
  }

  /** Reading "__" as "." turns a path joined by "__" into the same path joined by ".". */
  lemma {:induction false} SeparatorToDotJoin(parts: seq<string>)
    requires forall i :: 0 <= i < |parts| ==> Segment(parts[i])
    ensures SeparatorToDot(Join(parts, "__")) == Join(parts, ".")
  {
    if |parts| == 1 {
      SeparatorToDotPlain(parts[0]);
    } else if |parts| > 1 {
      assert forall i :: 0 <= i < |parts[1..]| ==> parts[1..][i] == parts[i + 1];
      SeparatorToDotJoin(parts[1..]);
      SeparatorToDotSkip(parts[0], Join(parts[1..], "__"));
    }
  }

  /**
   * A variable named "APP_" + the key path joined by "__" addresses that path,
   * lowercased; segments may contain single underscores.
   */
  lemma EnvKeyOfPath(parts: seq<string>)
    requires forall i :: 0 <= i < |parts| ==> Segment(parts[i])
    ensures EnvKey(EnvPrefix + Join(parts, "__")) == Some(ToLower(Join(parts, ".")))
  {
    var name := EnvPrefix + Join(parts, "__");
    assert name[..|EnvPrefix|] == EnvPrefix;
    assert name[|EnvPrefix|..] == Join(parts, "__");
    SeparatorToDotJoin(parts);
  }

  /** The override of the e-mail client's timeout: `APP_EMAIL_CLIENT__TIMEOUT_MILLISECONDS`. */
  lemma TimeoutOverrideKey()
    ensures EnvKey(EnvPrefix + Join(["EMAIL_CLIENT", "TIMEOUT_MILLISECONDS"], "__"))
            == Some(ToLower(Join(["EMAIL_CLIENT", "TIMEOUT_MILLISECONDS"], ".")))
  {
    var parts := ["EMAIL_CLIENT", "TIMEOUT_MILLISECONDS"];
    assert Segment(parts[0]) by {
      assert parts[0] == "EMAIL_CLIENT";
    }
    assert Segment(parts[1]) by {
      assert parts[1] == "TIMEOUT_MILLISECONDS";
    }
    EnvKeyOfPath(parts);
  }

  /** The process environment as a source; of two variables addressing one key, the later one wins. */
  function EnvironmentSource(vars: seq<(string, string)>): Source {
    if vars == [] then map[]
    else
      var front := EnvironmentSource(vars[..|vars| - 1]);
      var last := vars[|vars| - 1];
      match EnvKey(last.0)
      case None => front
      case Some(k) => front[k := last.1]
  }

  /** Every recognised variable is in the environment source with its value, unless a later one overrides it. */
  lemma {:induction false} EnvironmentSourceHas(vars: seq<(string, string)>, i: nat, k: string)
    requires i < |vars| && EnvKey(vars[i].0) == Some(k)
    requires forall j :: i < j < |vars| ==> EnvKey(vars[j].0) != Some(k)
    ensures k in EnvironmentSource(vars) && EnvironmentSource(vars)[k] == vars[i].1
  {
    var n := |vars|;
    var front := vars[..n - 1];
    if i < n - 1 {
      assert front[i] == vars[i];
      assert forall j :: i < j < |front| ==> front[j] == vars[j];
      EnvironmentSourceHas(front, i, k);
      assert EnvKey(vars[n - 1].0) != Some(k);
    }
  }

  /** Only keys that some recognised variable addresses are in the environment source. */
  lemma {:induction false} EnvironmentSourceKeys(vars: seq<(string, string)>, k: string)
    requires k in EnvironmentSource(vars)
    ensures exists i :: 0 <= i < |vars| && EnvKey(vars[i].0) == Some(k)
  {
    var n := |vars|;
    var front := vars[..n - 1];
    if EnvKey(vars[n - 1].0) != Some(k) {
      EnvironmentSourceKeys(front, k);
      var i :| 0 <= i < |front| && EnvKey(front[i].0) == Some(k);
      assert vars[i] == front[i];
    }
  }

  datatype ConfigError =
    | Aborted(message: string)   // `expect` on an unsupported APP_ENVIRONMENT: startup stops
    | MissingFile(name: string)  // a required settings file was not found

  /** The three sources in the order they are added: base file, environment file, environment variables. */
  function Layers(env: Environment, files: map<string, Source>, vars: seq<(string, string)>): (r: Result<seq<Source>, ConfigError>)
    ensures r.Ok? <==> "base" in files && AsStr(env) in files
    ensures r.Ok? ==> r.value == [files["base"], files[AsStr(env)], EnvironmentSource(vars)]
    ensures "base" !in files ==> r == Err(MissingFile("base"))
  {
    if "base" !in files then Err(MissingFile("base"))
    else if AsStr(env) !in files then Err(MissingFile(AsStr(env)))
    else Ok([files["base"], files[AsStr(env)], EnvironmentSource(vars)])
  }

  /**
   * `get_configuration` up to deserialisation: select the environment, then
   * merge the base file, the environment's file and the environment variables.
   */
  function GetConfiguration(appEnvironment: Option<string>, files: map<string, Source>, vars: seq<(string, string)>)
    : (r: Result<Source, ConfigError>)
    ensures SelectEnvironment(appEnvironment).Err? ==> r == Err(Aborted(SelectEnvironment(appEnvironment).error))
    ensures r.Ok? ==> SelectEnvironment(appEnvironment).Ok?
    ensures r.Ok? <==> SelectEnvironment(appEnvironment).Ok? && "base" in files
                       && AsStr(SelectEnvironment(appEnvironment).value) in files
  {
    match SelectEnvironment(appEnvironment)
    case Err(message) => Err(Aborted(message))
    case Ok(env) =>
      match Layers(env, files, vars)
      case Err(e) => Err(e)
      case Ok(layers) => Ok(Merge(layers))
  }

  /** Without APP_ENVIRONMENT the "local" file is the one stacked on the base file. */
  lemma DefaultsToLocal(files: map<string, Source>, vars: seq<(string, string)>)
    requires "base" in files && "local" in files
    ensures GetConfiguration(None, files, vars) == Ok(Merge([files["base"], files["local"], EnvironmentSource(vars)]))
  {
  }

  /** A key set by an environment variable overrides both files. */
  lemma EnvironmentVariableWins(appEnvironment: Option<string>, files: map<string, Source>,
                                vars: seq<(string, string)>, i: nat, k: string)
    requires GetConfiguration(appEnvironment, files, vars).Ok?
    requires i < |vars| && EnvKey(vars[i].0) == Some(k)
    requires forall j :: i < j < |vars| ==> EnvKey(vars[j].0) != Some(k)
    ensures var r := GetConfiguration(appEnvironment, files, vars).value; k in r && r[k] == vars[i].1
  {
    var env := SelectEnvironment(appEnvironment).value;
    var layers := Layers(env, files, vars).value;
    EnvironmentSourceHas(vars, i, k);
    MergeLastWins(layers, 2, k);
  }

  /** The environment's file overrides the base file where no variable addresses the key. */
  lemma EnvironmentFileOverridesBase(appEnvironment: Option<string>, files: map<string, Source>,
                                     vars: seq<(string, string)>, k: string)
    requires GetConfiguration(appEnvironment, files, vars).Ok?
    requires var env := SelectEnvironment(appEnvironment).value; k in files[AsStr(env)]
    requires forall i :: 0 <= i < |vars| ==> EnvKey(vars[i].0) != Some(k)
    ensures var env := SelectEnvironment(appEnvironment).value;
            var r := GetConfiguration(appEnvironment, files, vars).value;
            k in r && r[k] == files[AsStr(env)][k]
  {
    var env := SelectEnvironment(appEnvironment).value;
    var layers := Layers(env, files, vars).value;
    if k in layers[2] {
      EnvironmentSourceKeys(vars, k);
    }
    MergeLastWins(layers, 1, k);
  }

  /** A base value survives when neither later source has the key. */
  lemma BaseValueKept(appEnvironment: Option<string>, files: map<string, Source>,
                      vars: seq<(string, string)>, k: string)
    requires GetConfiguration(appEnvironment, files, vars).Ok?
    requires var env := SelectEnvironment(appEnvironment).value; k in files["base"] && k !in files[AsStr(env)]
    requires forall i :: 0 <= i < |vars| ==> EnvKey(vars[i].0) != Some(k)
    ensures var r := GetConfiguration(appEnvironment, files, vars).value; k in r && r[k] == files["base"][k]
  {
    var env := SelectEnvironment(appEnvironment).value;
    var layers := Layers(env, files, vars).value;
    if k in layers[2] {
      EnvironmentSourceKeys(vars, k);
    }
    MergeLastWins(layers, 0, k);
  }

  // ---------------------------------------------------------------- connection strings

  const Scheme := "postgres://"

  /** `postgres://{username}:{password}@{host}:{port}` */
  function ConnectionStringWithoutDb(db: DatabaseSettings): (r: string)
    ensures StartsWith(r, Scheme)
  {
    Scheme + db.username + ":" + db.password + "@" + db.host + ":" + Decimal(db.port)
  }

  /** `postgres://{username}:{password}@{host}:{port}/{database_name}` */
  function ConnectionString(db: DatabaseSettings): (r: string)
    ensures r == ConnectionStringWithoutDb(db) + "/" + db.databaseName
  {
    Scheme + db.username + ":" + db.password + "@" + db.host + ":" + Decimal(db.port) + "/" + db.databaseName
  }

  /**
   * The reading of such a URL that recovers the settings: user up to the
   * first ':', password up to the next '@', host up to the next ':', port
   * digits up to the next '/', the database name after it.
   */
  function ParseConnectionString(url: string): Option<DatabaseSettings> {
    if !StartsWith(url, Scheme) then None
    else
      match SplitFirst(url[|Scheme|..], ':')
      case None => None
      case Some((user, r1)) =>
        match SplitFirst(r1, '@')
        case None => None
        case Some((password, r2)) =>
          match SplitFirst(r2, ':')
          case None => None
          case Some((host, r3)) =>
            match SplitFirst(r3, '/')
            case None => None
            case Some((digits, name)) =>
              match ParseDecimal(digits)
              case None => None
              case Some(port) =>
                if port < 0x1_0000 then Some(DatabaseSettings(user, password, port, host, name)) else None
  }

  /** Settings whose text fields do not contain the separators that follow them. */
  predicate Unambiguous(db: DatabaseSettings) {
    ':' !in db.username && '@' !in db.password && ':' !in db.host
  }

  /** The URL carries every database setting: reading it back gives the settings. */
  lemma ConnectionStringRoundTrip(db: DatabaseSettings)
    requires Unambiguous(db)
    ensures ParseConnectionString(ConnectionString(db)) == Some(db)
  {
    var digits := Decimal(db.port);
    var r3 := digits + "/" + db.databaseName;
    var r2 := db.host + ":" + r3;
    var r1 := db.password + "@" + r2;
    var rest := db.username + ":" + r1;
    var url := ConnectionString(db);
    assert url == Scheme + rest;
    assert url[|Scheme|..] == rest;
    SplitFirstOf(db.username, ':', r1);
    SplitFirstOf(db.password, '@', r2);
    SplitFirstOf(db.host, ':', r3);
    assert '/' !in digits by {
      assert AllDigits(digits);
    }
    SplitFirstOf(digits, '/', db.databaseName);
    DecimalRoundTrip(db.port);
  }
}
