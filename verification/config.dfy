/**
 * Configuration merging.  Every string setting comes from the first
 * non-empty of: the environment, the command-line flags, the JSON config
 * file, a built-in default.  A boolean setting is on when any source turns it
 * on.  After merging, an `http://` base URL becomes `https://` when HTTPS is
 * on, and the storage backend is chosen from what is configured.  Reading the
 * environment, the flags and the file is outside the model: each source is
 * given as already parsed, with "" and false for what it does not set.
 */
module Config {

  /** The settings one source supplies. */
  datatype Sources = Sources(
    serverAddress: string, baseURL: string, fileStoragePath: string, databaseDSN: string,
    authSecret: string, pprofMode: bool, enableHTTPS: bool, configPath: string, trustedSubnet: string)

  const Unset: Sources := Sources("", "", "", "", "", false, false, "", "")

  datatype Config = Config(
    serverAddress: string, baseURL: string, fileStoragePath: string, databaseDSN: string,
    authSecret: string, storageType: string, pprofMode: bool, enableHTTPS: bool, trustedSubnet: string)

  const DefaultServerAddress: string := "localhost:8080"
  const DefaultBaseURL: string := "http://localhost:8080"
  const DefaultFileStoragePath: string := "shortener_data.json"
  const DefaultAuthSecret: string := "dev-secret-key"
  const HttpPrefix: string := "http://"
  const HttpsPrefix: string := "https://"

  /** Reference definition: the first non-empty value of a list, or "". */
  function FirstNonEmpty(vals: seq<string>): string
    decreases |vals|
  {
    if vals == [] then "" else if vals[0] != "" then vals[0] else FirstNonEmpty(vals[1..])
  }

  /** The precedence rule: environment, then flag, then file, then default. */
  function ChooseValue(envVal: string, flagVal: string, fileVal: string, defaultVal: string): (r: string)
    ensures r == envVal || r == flagVal || r == fileVal || r == defaultVal
    ensures r == "" <==> envVal == "" && flagVal == "" && fileVal == "" && defaultVal == ""
  {
    if envVal != "" then envVal
    else if flagVal != "" then flagVal
    else if fileVal != "" then fileVal
    else defaultVal
  }

  /** The precedence rule is "first non-empty" over the sources in order. */
  lemma {:induction false} ChooseValueIsFirstNonEmpty(envVal: string, flagVal: string, fileVal: string, defaultVal: string)
    ensures ChooseValue(envVal, flagVal, fileVal, defaultVal) == FirstNonEmpty([envVal, flagVal, fileVal, defaultVal])
  {
    var vals := [envVal, flagVal, fileVal, defaultVal];
    assert vals[1..] == [flagVal, fileVal, defaultVal];
    assert vals[1..][1..] == [fileVal, defaultVal];
    assert vals[1..][1..][1..] == [defaultVal];
    assert vals[1..][1..][1..][1..] == [];
    assert FirstNonEmpty([defaultVal]) == defaultVal;
    assert FirstNonEmpty([fileVal, defaultVal]) == if fileVal != "" then fileVal else defaultVal;
  }

  /** Whatever a list's first non-empty value is, every value before it is empty. */
  lemma {:induction false} FirstNonEmptyIsFirst(vals: seq<string>, i: nat)
    requires i < |vals| && vals[i] != ""
    ensures FirstNonEmpty(vals) != ""
    ensures exists k :: 0 <= k <= i && vals[k] == FirstNonEmpty(vals) && forall m :: 0 <= m < k ==> vals[m] == ""
    decreases |vals|
  {
    if vals[0] == "" {
      FirstNonEmptyIsFirst(vals[1..], i - 1);
      var k :| 0 <= k <= i - 1 && vals[1..][k] == FirstNonEmpty(vals[1..]) && forall m :: 0 <= m < k ==> vals[1..][m] == "";
      assert vals[k + 1] == FirstNonEmpty(vals);
      assert forall m :: 0 <= m < k + 1 ==> vals[m] == "" by {
        forall m | 0 <= m < k + 1 ensures vals[m] == "" {
          if m > 0 { assert vals[m] == vals[1..][m - 1]; }
        }
      }
    } else {
      assert vals[0] == FirstNonEmpty(vals);
    }
  }

  /** The backend: a database when a DSN is set, else a file when a path is set, else memory. */
  function DetectStorageType(dsn: string, filePath: string): (r: string)
    ensures r == "postgres" <==> dsn != ""
    ensures r == "file" <==> dsn == "" && filePath != ""
    ensures r == "memory" <==> dsn == "" && filePath == ""
  {
    if dsn != "" then "postgres"
    else if filePath != "" then "file"
    else "memory"
  }

  /** With HTTPS on, an `http://` base URL switches to `https://`; anything else is kept. */
  function RewriteBaseURL(baseURL: string, enableHTTPS: bool): (r: string)
    ensures enableHTTPS && HttpPrefix <= baseURL ==> r == HttpsPrefix + baseURL[|HttpPrefix|..]
    ensures !(enableHTTPS && HttpPrefix <= baseURL) ==> r == baseURL
    ensures enableHTTPS ==> !(HttpPrefix <= r) || baseURL == r
  {
    if enableHTTPS && HttpPrefix <= baseURL then
      var r := HttpsPrefix + baseURL[|HttpPrefix|..];
      assert r[4] != HttpPrefix[4];
      r
    else baseURL
  }

  /** Rewriting twice is rewriting once. */
  lemma RewriteBaseURLIdempotent(baseURL: string, enableHTTPS: bool)
    ensures RewriteBaseURL(RewriteBaseURL(baseURL, enableHTTPS), enableHTTPS) == RewriteBaseURL(baseURL, enableHTTPS)
  {
    var r := RewriteBaseURL(baseURL, enableHTTPS);
    if enableHTTPS && HttpPrefix <= baseURL {
      assert r[4] != HttpPrefix[4];
    }
  }

  /** The config file's path: from the environment, else from the flag; no default. */
  function ConfigFilePath(env: Sources, flags: Sources): (p: string)
    ensures env.configPath != "" ==> p == env.configPath
    ensures env.configPath == "" ==> p == flags.configPath
    ensures p == "" <==> env.configPath == "" && flags.configPath == ""
  {
    ChooseValue(env.configPath, flags.configPath, "", "")
  }

  /** Merges the three sources field by field, before the post-processing steps. */
  function Merge(env: Sources, flags: Sources, file: Sources): (c: Config)
    ensures c.pprofMode <==> env.pprofMode || flags.pprofMode || file.pprofMode
    ensures c.enableHTTPS <==> env.enableHTTPS || flags.enableHTTPS || file.enableHTTPS
    ensures c.fileStoragePath != "" && c.serverAddress != "" && c.baseURL != "" && c.authSecret != ""
  {
    Config(
      serverAddress := ChooseValue(env.serverAddress, flags.serverAddress, file.serverAddress, DefaultServerAddress),
      baseURL := ChooseValue(env.baseURL, flags.baseURL, file.baseURL, DefaultBaseURL),
      fileStoragePath := ChooseValue(env.fileStoragePath, flags.fileStoragePath, file.fileStoragePath, DefaultFileStoragePath),
      databaseDSN := ChooseValue(env.databaseDSN, flags.databaseDSN, file.databaseDSN, ""),
      authSecret := ChooseValue(env.authSecret, flags.authSecret, file.authSecret, DefaultAuthSecret),
      storageType := "",
      pprofMode := env.pprofMode || flags.pprofMode || file.pprofMode,
      enableHTTPS := env.enableHTTPS || flags.enableHTTPS || file.enableHTTPS,
      trustedSubnet := ChooseValue(env.trustedSubnet, flags.trustedSubnet, file.trustedSubnet, ""))
  }

  /**
   * Builds the configuration: merge, then the HTTPS rewrite of the base URL,
   * then the backend choice.  Since the file path has a default, the
   * in-memory backend is never chosen.
   */
  method NewConfig(env: Sources, flags: Sources, file: Sources) returns (cfg: Config)
    ensures var m := Merge(env, flags, file);
            cfg == m.(baseURL := RewriteBaseURL(m.baseURL, m.enableHTTPS),
                       storageType := DetectStorageType(m.databaseDSN, m.fileStoragePath))
    ensures cfg.storageType == "postgres" || cfg.storageType == "file"
    ensures cfg.storageType == "file" <==> cfg.databaseDSN == ""
  {
    cfg := Merge(env, flags, file);
    if cfg.enableHTTPS && HttpPrefix <= cfg.baseURL {
      cfg := cfg.(baseURL := HttpsPrefix + cfg.baseURL[|HttpPrefix|..]);
    }
    cfg := cfg.(storageType := DetectStorageType(cfg.databaseDSN, cfg.fileStoragePath));
  }

  /** With no input at all, the server listens on localhost:8080 and links use http://localhost:8080. */
  lemma DefaultsWithoutInput()
    ensures var m := Merge(Unset, Unset, Unset);
            && m.serverAddress == "localhost:8080"
            && RewriteBaseURL(m.baseURL, m.enableHTTPS) == "http://localhost:8080"
            && DetectStorageType(m.databaseDSN, m.fileStoragePath) == "file"
  {
  }

  /** Flags alone set the address and base URL as given. */
  lemma FlagsOverrideDefaults(addr: string, base: string)
    requires addr != "" && base != ""
    ensures var m := Merge(Unset, Unset.(serverAddress := addr, baseURL := base), Unset);
            m.serverAddress == addr && RewriteBaseURL(m.baseURL, m.enableHTTPS) == base
  {
  }
}
