/**
 * The start-up check of `src/config/env.js`: `validateEnv` collects one message per problem
 * with the environment (a missing required variable, a DATABASE_URL that is not a PostgreSQL
 * URL, a PORT outside 1..65535), throws them all in one error, and otherwise returns the
 * configuration with its defaults. The environment is a map from name to value; an unset
 * variable is a missing key.
 */
module EnvConfig {
  import opened Wrappers
  import opened JsText

  datatype Config = Config(databaseUrl: string, clerkSecretKey: string, port: int, nodeEnv: string, resendApiKey: Option<string>)

  const DatabaseUrlKey := "DATABASE_URL"
  const ClerkSecretKeyKey := "CLERK_SECRET_KEY"
  const PortKey := "PORT"
  const NodeEnvKey := "NODE_ENV"
  const ResendApiKeyKey := "RESEND_API_KEY"

  const Required: seq<string> := [DatabaseUrlKey, ClerkSecretKeyKey]

  const DefaultPort := 3001
  const DefaultNodeEnv := "development"

  function MissingMessage(key: string): string {
    "Missing required environment variable: " + key
  }

  const BadDatabaseUrl := "DATABASE_URL must be a valid PostgreSQL connection string"
  const BadPort := "PORT must be a valid port number (1-65535)"

  /** The thrown message: a header, then one `  - ` line per error. */
  function FailureMessage(errors: seq<string>): string {
    "Environment validation failed:\n  - " + Join(errors, "\n  - ")
  }

  /** `process.env[key]` is truthy: set and not empty. */
  predicate Present(env: map<string, string>, key: string) {
    key in env && env[key] != []
  }

  // ---------------------------------------------------------------------------
  // isValidDatabaseUrl: the protocol `new URL(url)` reports

  /** C0 controls and space, which the URL parser strips from both ends. */
  predicate IsC0OrSpace(c: char) {
    c as int <= 0x20
  }

  const TabOrNewline: set<char> := {'\t', '\n', '\r'}

  function StripC0Start(s: string): (r: string)
    ensures |r| <= |s| && r == s[|s| - |r|..]
    ensures (forall i :: 0 <= i < |s| ==> !IsC0OrSpace(s[i])) ==> r == s
  {
    if s != [] && IsC0OrSpace(s[0]) then StripC0Start(s[1..]) else s
  }

  function StripC0End(s: string): (r: string)
    ensures |r| <= |s| && r == s[..|r|]
    ensures (forall i :: 0 <= i < |s| ==> !IsC0OrSpace(s[i])) ==> r == s
  {
    if s != [] && IsC0OrSpace(s[|s| - 1]) then StripC0End(s[..|s| - 1]) else s
  }

  predicate IsAsciiAlpha(c: char) {
    'a' <= c <= 'z' || 'A' <= c <= 'Z'
  }

  predicate IsSchemeChar(c: char) {
    IsAsciiAlpha(c) || '0' <= c <= '9' || c == '+' || c == '-' || c == '.'
  }

  /** The length of the run of scheme characters at the start of `s`. */
  function SchemeRun(s: string): (n: nat)
    ensures n <= |s| && forall i :: 0 <= i < n ==> IsSchemeChar(s[i])
    ensures n < |s| ==> !IsSchemeChar(s[n])
  {
    if s != [] && IsSchemeChar(s[0]) then 1 + SchemeRun(s[1..]) else 0
  }

  /**
   * The scheme `new URL(url)` finds, lower-cased: after trimming C0 controls and spaces and
   * dropping tabs and newlines, a letter, then scheme characters, then ':'. None when there
   * is no such scheme, in which case the constructor throws.
   */
  function SchemeOf(url: string): Option<string> {
    var s := RemoveAll(StripC0End(StripC0Start(url)), TabOrNewline);
    var n := SchemeRun(s);
    if n > 0 && IsAsciiAlpha(s[0]) && n < |s| && s[n] == ':' then Some(LowerStr(s[..n]))
    else None
  }

  /**
   * `isValidDatabaseUrl(url)`: the URL parses and its protocol is `postgres:` or
   * `postgresql:`. Whether the part after the scheme parses (host, port, path) is the
   * `restParses` oracle.
   */
  predicate IsValidDatabaseUrl(url: string, restParses: string -> bool) {
    var scheme := SchemeOf(url);
    scheme.Some? && restParses(url) && (scheme.value == "postgres" || scheme.value == "postgresql")
  }

  /** A URL that spells its scheme out first has that scheme, whatever its case. */
  lemma {:induction false} SchemeOfSpelled(scheme: string, rest: string)
    requires scheme != [] && IsAsciiAlpha(scheme[0]) && forall i :: 0 <= i < |scheme| ==> IsSchemeChar(scheme[i])
    requires forall i :: 0 <= i < |rest| ==> !IsC0OrSpace(rest[i])
    ensures SchemeOf(scheme + ":" + rest) == Some(LowerStr(scheme))
  {
    var url := scheme + ":" + rest;
    NothingToClean(scheme, rest);
    SchemeRunStops(scheme, rest);
    assert url[..|scheme|] == scheme && url[|scheme|] == ':' && url[0] == scheme[0];
  }

  /** Without controls, spaces, tabs or newlines, the URL parser's clean-up changes nothing. */
  lemma {:induction false} NothingToClean(scheme: string, rest: string)
    requires forall i :: 0 <= i < |scheme| ==> IsSchemeChar(scheme[i])
    requires forall i :: 0 <= i < |rest| ==> !IsC0OrSpace(rest[i])
    ensures var url := scheme + ":" + rest; RemoveAll(StripC0End(StripC0Start(url)), TabOrNewline) == url
  {
    var url := scheme + ":" + rest;
    forall i | 0 <= i < |url|
      ensures !IsC0OrSpace(url[i])
    {
      if i > |scheme| {
        assert url[i] == rest[i - |scheme| - 1];
      } else if i < |scheme| {
        assert url[i] == scheme[i];
      }
    }
    CleanUrl(url);
  }

  lemma {:induction false} CleanUrl(url: string)
    requires forall i :: 0 <= i < |url| ==> !IsC0OrSpace(url[i])
    ensures RemoveAll(StripC0End(StripC0Start(url)), TabOrNewline) == url
  {
    forall i | 0 <= i < |url|
      ensures url[i] !in TabOrNewline
    {
      assert !IsC0OrSpace(url[i]);
    }
    RemoveAllNothing(url, TabOrNewline);
  }

  lemma {:induction false} SchemeRunStops(scheme: string, rest: string)
    requires forall i :: 0 <= i < |scheme| ==> IsSchemeChar(scheme[i])
    ensures SchemeRun(scheme + ":" + rest) == |scheme|
  {
    if scheme != [] {
      assert (scheme + ":" + rest)[1..] == scheme[1..] + ":" + rest;
      SchemeRunStops(scheme[1..], rest);
    }
  }

  // ---------------------------------------------------------------------------
  // validateEnv

  /** The missing-variable messages for `keys`, in order. */
  function MissingErrors(keys: seq<string>, env: map<string, string>): (r: seq<string>)
    ensures |r| <= |keys|
  {
    if keys == [] then []
    else
      var last := keys[|keys| - 1];
      MissingErrors(keys[..|keys| - 1], env) + (if Present(env, last) then [] else [MissingMessage(last)])
  }

  /** The missing-variable messages name exactly the keys that are unset or empty. */
  lemma {:induction false} MissingErrorsNameMissingKeys(keys: seq<string>, env: map<string, string>, m: string)
    ensures m in MissingErrors(keys, env) <==> exists k :: k in keys && !Present(env, k) && m == MissingMessage(k)
  {
    if keys != [] {
      var init, last := keys[..|keys| - 1], keys[|keys| - 1];
      MissingErrorsNameMissingKeys(init, env, m);
      assert keys == init + [last];
      assert forall k :: k in keys <==> k in init || k == last;
    }
  }

  /** Each step of the loop over the required keys appends at most that key's message. */
  lemma {:induction false} MissingErrorsStep(keys: seq<string>, i: nat, env: map<string, string>)
    requires i < |keys|
    ensures MissingErrors(keys[..i + 1], env) ==
      MissingErrors(keys[..i], env) + (if Present(env, keys[i]) then [] else [MissingMessage(keys[i])])
  {
    assert keys[..i + 1][..i] == keys[..i];
  }

  /** PORT, when set, is a decimal integer in 1..65535 (after `parseInt(…, 10)`). */
  predicate PortAcceptable(value: string) {
    var port := ParseInt10(value);
    port.Int? && 1 <= port.value <= 65535
  }

  /** Every problem `validateEnv` reports, in the order it pushes them. */
  function Errors(env: map<string, string>, restParses: string -> bool): seq<string> {
    MissingErrors(Required, env) + UrlErrors(env, restParses) + PortErrors(env)
  }

  /** The DATABASE_URL message, when the variable is set and is not a PostgreSQL URL. */
  function UrlErrors(env: map<string, string>, restParses: string -> bool): (r: seq<string>)
    ensures r == [] || r == [BadDatabaseUrl]
  {
    if Present(env, DatabaseUrlKey) && !IsValidDatabaseUrl(env[DatabaseUrlKey], restParses) then [BadDatabaseUrl] else []
  }

  /** The PORT message, when the variable is set and is not a port number. */
  function PortErrors(env: map<string, string>): (r: seq<string>)
    ensures r == [] || r == [BadPort]
  {
    if Present(env, PortKey) && !PortAcceptable(env[PortKey]) then [BadPort] else []
  }

  /** `parseInt(process.env.PORT, 10) || 3001`. */
  function PortOf(env: map<string, string>): int {
    if PortKey !in env then DefaultPort
    else match ParseInt10(env[PortKey])
      case NaN => DefaultPort
      case Int(n) => if n != 0 then n else DefaultPort
  }

  /** `process.env[key] || fallback`. */
  function OrDefault(env: map<string, string>, key: string, fallback: string): string {
    if Present(env, key) then env[key] else fallback
  }

  /** The configuration returned when nothing is wrong. */
  function ConfigOf(env: map<string, string>): Config
    requires Present(env, DatabaseUrlKey) && Present(env, ClerkSecretKeyKey)
  {
    Config(env[DatabaseUrlKey], env[ClerkSecretKeyKey], PortOf(env),
      OrDefault(env, NodeEnvKey, DefaultNodeEnv),
      if Present(env, ResendApiKeyKey) then Some(env[ResendApiKeyKey]) else None)
  }

  /**
   * `validateEnv()`: throws the joined messages when any problem was found, otherwise
   * returns the configuration.
   */
  method ValidateEnv(env: map<string, string>, restParses: string -> bool) returns (r: Result<Config, string>)
    ensures r.Failure? <==> Errors(env, restParses) != []
    ensures r.Failure? ==> r.error == FailureMessage(Errors(env, restParses))
    ensures r.Success? ==> Present(env, DatabaseUrlKey) && Present(env, ClerkSecretKeyKey) && r.value == ConfigOf(env)
  {
    var errors := CollectMissing(Required, env);
    if Present(env, DatabaseUrlKey) && !IsValidDatabaseUrl(env[DatabaseUrlKey], restParses) {
      errors := errors + [BadDatabaseUrl];
    }
    if Present(env, PortKey) && !PortAcceptable(env[PortKey]) {
      errors := errors + [BadPort];
    }
    assert errors == Errors(env, restParses);
    if |errors| > 0 {
      return Failure(FailureMessage(errors));
    }
    AllRequiredPresent(env, restParses);
    r := Success(ConfigOf(env));
  }

  /** The loop over the required keys: one message per key that is unset or empty, in key order. */
  method CollectMissing(keys: seq<string>, env: map<string, string>) returns (errors: seq<string>)
    ensures errors == MissingErrors(keys, env)
  {
    errors := [];
    for i := 0 to |keys|
      invariant errors == MissingErrors(keys[..i], env)
    {
      MissingErrorsStep(keys, i, env);
      if !Present(env, keys[i]) {
        errors := errors + [MissingMessage(keys[i])];
      }
    }
    assert keys[..|keys|] == keys;
  }

  /** With no errors, both required variables are set. */
  lemma {:induction false} AllRequiredPresent(env: map<string, string>, restParses: string -> bool)
    requires Errors(env, restParses) == []
    ensures Present(env, DatabaseUrlKey) && Present(env, ClerkSecretKeyKey)
  {
    var missing := MissingErrors(Required, env);
    MissingErrorsNameMissingKeys(Required, env, MissingMessage(DatabaseUrlKey));
    MissingErrorsNameMissingKeys(Required, env, MissingMessage(ClerkSecretKeyKey));
    assert DatabaseUrlKey in Required && ClerkSecretKeyKey in Required;
    assert missing == [];
  }

  /** The missing-variable messages are as long as the header plus the key, which tells them from the others. */
  lemma {:induction false} MessageLengths(key: string)
    requires key in Required
    ensures |MissingMessage(key)| in {51, 55} && |BadDatabaseUrl| == 57 && |BadPort| == 42
  {
  }

  /** Each required variable that is unset or empty gets its own message. */
  lemma {:induction false} MissingIsReported(env: map<string, string>, restParses: string -> bool, key: string)
    requires key in Required
    ensures MissingMessage(key) in Errors(env, restParses) <==> !Present(env, key)
  {
    var m := MissingMessage(key);
    MessageLengths(key);
    MissingErrorsNameMissingKeys(Required, env, m);
    if m in MissingErrors(Required, env) {
      var k :| k in Required && !Present(env, k) && m == MissingMessage(k);
      MissingMessageInjective(k, key);
    }
  }

  lemma {:induction false} MissingMessageInjective(a: string, b: string)
    requires MissingMessage(a) == MissingMessage(b)
    ensures a == b
  {
    var h := "Missing required environment variable: ";
    assert a == MissingMessage(a)[|h|..];
    assert b == MissingMessage(b)[|h|..];
  }

  /** A set DATABASE_URL is reported exactly when it is not a PostgreSQL URL; an unset one only as missing. */
  lemma {:induction false} DatabaseUrlIsChecked(env: map<string, string>, restParses: string -> bool)
    ensures BadDatabaseUrl in Errors(env, restParses) <==>
      Present(env, DatabaseUrlKey) && !IsValidDatabaseUrl(env[DatabaseUrlKey], restParses)
  {
    MessageLengths(DatabaseUrlKey);
    MissingErrorsNameMissingKeys(Required, env, BadDatabaseUrl);
    forall k | k in Required
      ensures MissingMessage(k) != BadDatabaseUrl
    {
      MessageLengths(k);
    }
  }

  /** A set PORT is reported exactly when it does not parse to 1..65535. */
  lemma {:induction false} PortIsChecked(env: map<string, string>, restParses: string -> bool)
    ensures BadPort in Errors(env, restParses) <==> Present(env, PortKey) && !PortAcceptable(env[PortKey])
  {
    MessageLengths(DatabaseUrlKey);
    MissingErrorsNameMissingKeys(Required, env, BadPort);
    forall k | k in Required
      ensures MissingMessage(k) != BadPort
    {
      MessageLengths(k);
    }
  }

  /** A configuration that validates has a port in 1..65535: the given one, or 3001 when unset or empty. */
  lemma {:induction false} ValidPortInRange(env: map<string, string>, restParses: string -> bool)
    requires Errors(env, restParses) == []
    ensures 1 <= PortOf(env) <= 65535
    ensures !Present(env, PortKey) ==> PortOf(env) == DefaultPort
    ensures Present(env, PortKey) ==> PortOf(env) == ParseInt10(env[PortKey]).value
  {
    if Present(env, PortKey) {
      assert PortAcceptable(env[PortKey]);
    } else if PortKey in env {
      var e := env[PortKey];
      assert e == [];
      assert TrimStart(e) == [] && Unsigned(e) == [] && LeadingDigits(e) == [];
    }
  }
}
