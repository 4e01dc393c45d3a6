/** The endpoint configuration of config.go: layered retry policies, field validation and the
    collection of every problem, from parsed YAML to resolved endpoints. */
module Config {
  import opened Types
  import opened Interpolation

  /** A duration as time.ParseDuration reads it. */
  datatype Duration = Unparsable | Nanos(n: int)

  datatype RawPolicy = RawPolicy(
    attempts: Option<int>,
    retryDelay: Option<Duration>,
    connectTimeout: Option<Duration>,
    stallTimeout: Option<Duration>,
    maxConnectFailures: Option<int>)

  datatype RawEndpoint = RawEndpoint(
    name: string,
    protocol: string,
    host: string,
    port: int,
    username: string,
    password: string,
    privateKey: string,
    overwrite: string,
    insecureSkipVerify: bool,
    policy: RawPolicy)

  datatype RawConfig = RawConfig(endpoints: seq<RawEndpoint>, policy: RawPolicy)

  /** What the process contributes: its environment variables, and what expandHome makes of a key path. */
  datatype Process = Process(env: map<string, string>, expandHome: string -> Option<string>)

  const SECOND := 1_000_000_000

  /** DefaultAttempts and so on: uploadfun.go:11-20. */
  const DEFAULTS := Policy(3, 2 * SECOND, 30 * SECOND, 300 * SECOND, 3)

  // ---------------------------------------------------------------- problems

  datatype Label = TopLevel | Named(name: string) | Numbered(index: nat)

  datatype PolicyField = Attempts | MaxConnectFailures | RetryDelay | ConnectTimeout | StallTimeout

  datatype TextField = Name | Host | Username | Password | PrivateKey | OverwriteMode

  datatype Issue =
    | NoEndpoints
    | Undefined(text: TextField, names: seq<string>)
    | NameRequired
    | DuplicateName
    | ProtocolRequired
    | UnknownProtocol(raw: string)
    | HostRequired
    | PortOutOfRange(port: int)
    | UsernameRequired
    | KeyUnsupported
    | PasswordRequired
    | PasswordOrKeyRequired
    | SkipVerifyUnsupported
    | UnknownOverwrite(raw: string)
    | KeyPath
    | BadPolicy(policyField: PolicyField)

  datatype Problem = Problem(who: Label, issue: Issue)

  function When(bad: bool, who: Label, issue: Issue): seq<Problem> {
    if bad then [Problem(who, issue)] else []
  }

  // ---------------------------------------------------------------- the retry policy

  /** parseNonNegativeDuration and parsePositiveDuration, `least` being 0 or 1: the duration, and
      whether it is acceptable.  An unacceptable one is replaced by 0. */
  function ParseDuration(raw: Option<Duration>, def: int, least: int): (int, bool) {
    var d := if raw.None? then Nanos(def) else raw.value;
    if d.Unparsable? || d.n < least then (0, false) else (d.n, true)
  }

  function Overlay<T>(raw: Option<T>, base: T): T {
    if raw.Some? then raw.value else base
  }

  function Overlaid(raw: RawPolicy, base: Policy): Policy {
    Policy(
      Overlay(raw.attempts, base.attempts),
      ParseDuration(raw.retryDelay, base.retryDelay, 0).0,
      ParseDuration(raw.connectTimeout, base.connectTimeout, 1).0,
      ParseDuration(raw.stallTimeout, base.stallTimeout, 0).0,
      Overlay(raw.maxConnectFailures, base.maxConnectFailures))
  }

  /** Is this field of the policy a problem where it is read, over these defaults? */
  predicate FieldIsBad(raw: RawPolicy, base: Policy, field: PolicyField) {
    match field
    case Attempts => raw.attempts.Some? && raw.attempts.value < 1
    case MaxConnectFailures => raw.maxConnectFailures.Some? && raw.maxConnectFailures.value < 1
    case RetryDelay => !ParseDuration(raw.retryDelay, base.retryDelay, 0).1
    case ConnectTimeout => !ParseDuration(raw.connectTimeout, base.connectTimeout, 1).1
    case StallTimeout => !ParseDuration(raw.stallTimeout, base.stallTimeout, 0).1
  }

  function PolicyProblems(raw: RawPolicy, base: Policy, who: Label): seq<Problem> {
    When(FieldIsBad(raw, base, Attempts), who, BadPolicy(Attempts))
    + When(FieldIsBad(raw, base, MaxConnectFailures), who, BadPolicy(MaxConnectFailures))
    + When(FieldIsBad(raw, base, RetryDelay), who, BadPolicy(RetryDelay))
    + When(FieldIsBad(raw, base, ConnectTimeout), who, BadPolicy(ConnectTimeout))
    + When(FieldIsBad(raw, base, StallTimeout), who, BadPolicy(StallTimeout))
  }

  /** errs = append(errs, ...), if there is something to append. */
  method Collect(errs: seq<Problem>, bad: bool, who: Label, issue: Issue) returns (all: seq<Problem>)
    ensures all == errs + When(bad, who, issue)
  {
    all := errs;
    if bad {
      all := all + [Problem(who, issue)];
    }
  }

  /** resolvePolicy: config.go:100-135. */
  method ResolvePolicy(raw: RawPolicy, base: Policy, who: Label) returns (p: Policy, errs: seq<Problem>)
    ensures p == Overlaid(raw, base) && errs == PolicyProblems(raw, base, who)
    ensures errs == [] <==> ValidPolicy(raw) && BaseServes(raw, base)
    ensures errs == [] ==> SoundBase(p)
  {
    hide When, ParseDuration, ValidPolicy, BaseServes, SoundBase;
    PolicyProblemsExact(raw, base, who);
    p := base;
    errs := [];
    if raw.attempts.Some? {
      p := p.(attempts := raw.attempts.value);
    }
    errs := Collect(errs, raw.attempts.Some? && p.attempts < 1, who, BadPolicy(Attempts));
    assert errs == When(FieldIsBad(raw, base, Attempts), who, BadPolicy(Attempts));
    if raw.maxConnectFailures.Some? {
      p := p.(maxConnectFailures := raw.maxConnectFailures.value);
    }
    errs := Collect(errs, raw.maxConnectFailures.Some? && p.maxConnectFailures < 1, who, BadPolicy(MaxConnectFailures));
    var d, ok := ReadDuration(raw.retryDelay, base.retryDelay, 0);
    p := p.(retryDelay := d);
    errs := Collect(errs, !ok, who, BadPolicy(RetryDelay));
    d, ok := ReadDuration(raw.connectTimeout, base.connectTimeout, 1);
    p := p.(connectTimeout := d);
    errs := Collect(errs, !ok, who, BadPolicy(ConnectTimeout));
    d, ok := ReadDuration(raw.stallTimeout, base.stallTimeout, 0);
    p := p.(stallTimeout := d);
    errs := Collect(errs, !ok, who, BadPolicy(StallTimeout));
  }

  method ReadDuration(raw: Option<Duration>, def: int, least: int) returns (d: int, ok: bool)
    ensures (d, ok) == ParseDuration(raw, def, least)
  {
    if raw == None {
      d, ok := def, true;
    } else if raw.value.Unparsable? {
      d, ok := 0, false;
    } else {
      d, ok := raw.value.n, true;
    }
    if ok && d < least {
      return 0, false;
    }
  }

  // ---------------------------------------------------------------- one endpoint

  /** An endpoint's string fields after interpolation. */
  datatype Fields = Fields(
    name: string,
    host: string,
    username: string,
    password: string,
    privateKey: string,
    overwrite: string)

  function FieldsOf(re: RawEndpoint, env: map<string, string>): Fields {
    Fields(
      Interpolated(re.name, env).0,
      Interpolated(re.host, env).0,
      Interpolated(re.username, env).0,
      Interpolated(re.password, env).0,
      Interpolated(re.privateKey, env).0,
      Interpolated(re.overwrite, env).0)
  }

  function LabelOf(re: RawEndpoint, index: nat): Label {
    if re.name != "" then Named(re.name) else Numbered(index)
  }

  function ProtocolOf(raw: string): Option<Protocol> {
    if raw == "ftp" then Some(Ftp) else if raw == "ftps" then Some(Ftps) else if raw == "sftp" then Some(Sftp) else None
  }

  function OverwriteOf(raw: string): Option<Overwrite> {
    if raw == "" || raw == "delete-first" then Some(DeleteFirst) else if raw == "direct" then Some(Direct) else None
  }

  function TextProblem(who: Label, text: TextField, value: string, env: map<string, string>): seq<Problem> {
    var missing := Interpolated(value, env).1;
    When(missing != [], who, Undefined(text, missing))
  }

  function TextProblems(re: RawEndpoint, who: Label, env: map<string, string>): seq<Problem> {
    TextProblem(who, Name, re.name, env) + TextProblem(who, Host, re.host, env)
    + TextProblem(who, Username, re.username, env) + TextProblem(who, Password, re.password, env)
    + TextProblem(who, PrivateKey, re.privateKey, env) + TextProblem(who, OverwriteMode, re.overwrite, env)
  }

  function NameProblems(who: Label, name: string, seen: set<string>): seq<Problem> {
    if name == "" then [Problem(who, NameRequired)] else When(name in seen, who, DuplicateName)
  }

  function ProtocolProblems(who: Label, raw: string): seq<Problem> {
    if raw == "" then [Problem(who, ProtocolRequired)] else When(ProtocolOf(raw).None?, who, UnknownProtocol(raw))
  }

  function AuthProblems(who: Label, protocol: Option<Protocol>, password: string, privateKey: string): seq<Problem> {
    if protocol.None? then []
    else if protocol.value.Sftp? then When(password == "" && privateKey == "", who, PasswordOrKeyRequired)
    else When(privateKey != "", who, KeyUnsupported) + When(password == "", who, PasswordRequired)
  }

  /** An empty key path stays empty; another has its leading tilde expanded. */
  function KeyPathOf(privateKey: string, process: Process): Option<string> {
    if privateKey == "" then Some("") else process.expandHome(privateKey)
  }

  function FieldProblems(re: RawEndpoint, who: Label, seen: set<string>, process: Process): seq<Problem> {
    var f := FieldsOf(re, process.env);
    var protocol := ProtocolOf(re.protocol);
    TextProblems(re, who, process.env)
    + NameProblems(who, f.name, seen)
    + ProtocolProblems(who, re.protocol)
    + When(f.host == "", who, HostRequired)
    + When(re.port < 0 || re.port > 65535, who, PortOutOfRange(re.port))
    + When(f.username == "", who, UsernameRequired)
    + AuthProblems(who, protocol, f.password, f.privateKey)
    + When(re.insecureSkipVerify && protocol != Some(Ftps), who, SkipVerifyUnsupported)
    + When(OverwriteOf(f.overwrite).None?, who, UnknownOverwrite(f.overwrite))
    + When(KeyPathOf(f.privateKey, process).None?, who, KeyPath)
  }

  function EndpointProblems(re: RawEndpoint, who: Label, globals: Policy, seen: set<string>,
                            process: Process): seq<Problem> {
    FieldProblems(re, who, seen, process) + PolicyProblems(re.policy, globals, who)
  }

  /** What buildEndpoint assembles, whether or not it found problems. */
  function EndpointOf(re: RawEndpoint, globals: Policy, process: Process): Endpoint {
    var f := FieldsOf(re, process.env);
    Endpoint(
      f.name,
      Overlay(ProtocolOf(re.protocol), Ftp),
      f.host,
      re.port,
      f.username,
      f.password,
      Overlay(KeyPathOf(f.privateKey, process), ""),
      Overlay(OverwriteOf(f.overwrite), DeleteFirst),
      re.insecureSkipVerify,
      Overlaid(re.policy, globals))
  }

  method ResolveField(who: Label, text: TextField, value: string, env: map<string, string>, errs: seq<Problem>)
    returns (v: string, all: seq<Problem>)
    ensures v == Interpolated(value, env).0 && all == errs + TextProblem(who, text, value, env)
  {
    var missing;
    v, missing := InterpolateEnv(value, env);
    all := Collect(errs, missing != [], who, Undefined(text, missing));
  }

  /** interpolateFields: config.go:217-236. */
  method InterpolateFields(re: RawEndpoint, who: Label, env: map<string, string>)
    returns (f: Fields, errs: seq<Problem>)
    ensures f == FieldsOf(re, env) && errs == TextProblems(re, who, env)
    ensures errs == [] <==> ValidTexts(re, env)
  {
    hide Interpolated, TextProblem, ValidTexts;
    TextProblemsExact(re, who, env);
    var name, host, username, password, privateKey, overwrite;
    name, errs := ResolveField(who, Name, re.name, env, []);
    assert errs == TextProblem(who, Name, re.name, env);
    host, errs := ResolveField(who, Host, re.host, env, errs);
    username, errs := ResolveField(who, Username, re.username, env, errs);
    password, errs := ResolveField(who, Password, re.password, env, errs);
    privateKey, errs := ResolveField(who, PrivateKey, re.privateKey, env, errs);
    overwrite, errs := ResolveField(who, OverwriteMode, re.overwrite, env, errs);
    f := Fields(name, host, username, password, privateKey, overwrite);
  }

  /** validateName: config.go:238-247. */
  method ValidateName(who: Label, name: string, seen: set<string>) returns (errs: seq<Problem>, nowSeen: set<string>)
    ensures errs == NameProblems(who, name, seen)
    ensures errs == [] <==> name != "" && name !in seen
    ensures nowSeen == if name == "" then seen else seen + {name}
  {
    if name == "" {
      return [Problem(who, NameRequired)], seen;
    }
    if name in seen {
      assert seen + {name} == seen;
      return [Problem(who, DuplicateName)], seen;
    }
    return [], seen + {name};
  }

  /** buildEndpoint: config.go:137-197. */
  method BuildEndpoint(re: RawEndpoint, index: nat, globals: Policy, seen: set<string>, process: Process)
    returns (endpoint: Endpoint, errs: seq<Problem>, nowSeen: set<string>)
    ensures endpoint == EndpointOf(re, globals, process)
    ensures errs == EndpointProblems(re, LabelOf(re, index), globals, seen, process)
    ensures errs == [] <==> ValidEndpoint(re, process) && BaseServes(re.policy, globals) && NameOf(re, process) !in seen
    ensures var name := FieldsOf(re, process.env).name; nowSeen == if name == "" then seen else seen + {name}
  {
    hide When, FieldsOf, TextProblems, NameProblems, ProtocolProblems, AuthProblems, PolicyProblems, OverwriteOf,
         ProtocolOf, KeyPathOf;
    hide Overlaid, ValidEndpoint, BaseServes, NameOf, ValidPolicy, ValidTexts;
    EndpointProblemsExact(re, LabelOf(re, index), globals, seen, process);
    var who := LabelOf(re, index);
    var f, nameErrs, policy, policyErrs;
    f, errs := InterpolateFields(re, who, process.env);
    nameErrs, nowSeen := ValidateName(who, f.name, seen);
    errs := errs + nameErrs;
    errs := errs + ProtocolProblems(who, re.protocol);
    var protocol := ProtocolOf(re.protocol);
    errs := Collect(errs, f.host == "", who, HostRequired);
    errs := Collect(errs, re.port < 0 || re.port > 65535, who, PortOutOfRange(re.port));
    errs := Collect(errs, f.username == "", who, UsernameRequired);
    errs := errs + AuthProblems(who, protocol, f.password, f.privateKey);
    errs := Collect(errs, re.insecureSkipVerify && protocol != Some(Ftps), who, SkipVerifyUnsupported);
    var overwrite := OverwriteOf(f.overwrite);
    errs := Collect(errs, overwrite.None?, who, UnknownOverwrite(f.overwrite));
    var privateKey := KeyPathOf(f.privateKey, process);
    errs := Collect(errs, privateKey.None?, who, KeyPath);
    policy, policyErrs := ResolvePolicy(re.policy, globals, who);
    errs := errs + policyErrs;
    endpoint := Endpoint(
      f.name, Overlay(protocol, Ftp), f.host, re.port, f.username, f.password, Overlay(privateKey, ""),
      Overlay(overwrite, DeleteFirst), re.insecureSkipVerify, policy);
  }

  function NameOf(re: RawEndpoint, process: Process): string {
    FieldsOf(re, process.env).name
  }

  // ---------------------------------------------------------------- what makes an endpoint valid

  predicate AtLeast(raw: Option<Duration>, least: int) {
    raw.Some? ==> raw.value.Nanos? && raw.value.n >= least
  }

  /** The policy fields that are set are acceptable. */
  predicate ValidPolicy(raw: RawPolicy) {
    && (raw.attempts.Some? ==> raw.attempts.value >= 1)
    && (raw.maxConnectFailures.Some? ==> raw.maxConnectFailures.value >= 1)
    && AtLeast(raw.retryDelay, 0)
    && AtLeast(raw.connectTimeout, 1)
    && AtLeast(raw.stallTimeout, 0)
  }

  /** The three names of protocols, and of what they stand for. */
  predicate NamesProtocol(raw: string, protocol: Protocol) {
    match protocol
    case Ftp => raw == "ftp"
    case Ftps => raw == "ftps"
    case Sftp => raw == "sftp"
  }

  /** Deleting first is the default. */
  predicate NamesMode(raw: string, mode: Overwrite) {
    match mode
    case DeleteFirst => raw == "" || raw == "delete-first"
    case Direct => raw == "direct"
  }

  predicate ValidAuth(protocol: Protocol, password: string, privateKey: string) {
    if protocol.Sftp? then password != "" || privateKey != "" else password != "" && privateKey == ""
  }

  /** Every reference in the endpoint's texts is to a variable that is set. */
  predicate ValidTexts(re: RawEndpoint, env: map<string, string>) {
    && !SomeUnset(Segments(re.name), env) && !SomeUnset(Segments(re.host), env)
    && !SomeUnset(Segments(re.username), env) && !SomeUnset(Segments(re.password), env)
    && !SomeUnset(Segments(re.privateKey), env) && !SomeUnset(Segments(re.overwrite), env)
  }

  /** The endpoint is acceptable, whatever the rest of the configuration. */
  predicate ValidEndpoint(re: RawEndpoint, process: Process) {
    var f := FieldsOf(re, process.env);
    && ValidTexts(re, process.env)
    && f.name != "" && f.host != "" && f.username != ""
    && 0 <= re.port <= 65535
    && (exists protocol :: NamesProtocol(re.protocol, protocol) && ValidAuth(protocol, f.password, f.privateKey))
    && (re.insecureSkipVerify ==> re.protocol == "ftps")
    && (f.overwrite == "" || f.overwrite == "delete-first" || f.overwrite == "direct")
    && (f.privateKey != "" ==> process.expandHome(f.privateKey).Some?)
    && ValidPolicy(re.policy)
  }

  /** Defaults that cannot be at fault themselves. */
  predicate SoundBase(base: Policy) {
    base.retryDelay >= 0 && base.connectTimeout >= 1 && base.stallTimeout >= 0
  }

  /** The defaults that show through are acceptable. */
  predicate BaseServes(raw: RawPolicy, base: Policy) {
    && (raw.retryDelay.None? ==> base.retryDelay >= 0)
    && (raw.connectTimeout.None? ==> base.connectTimeout >= 1)
    && (raw.stallTimeout.None? ==> base.stallTimeout >= 0)
  }

  lemma PolicyProblemsExact(raw: RawPolicy, base: Policy, who: Label)
    ensures PolicyProblems(raw, base, who) == [] <==> ValidPolicy(raw) && BaseServes(raw, base)
    ensures ValidPolicy(raw) && BaseServes(raw, base) ==> SoundBase(Overlaid(raw, base))
  {
  }

  lemma TextProblemsExact(re: RawEndpoint, who: Label, env: map<string, string>)
    ensures TextProblems(re, who, env) == [] <==> ValidTexts(re, env)
  {
    hide Segments, SomeUnset, Interpolated;
    TextProblemExact(who, Name, re.name, env);
    TextProblemExact(who, Host, re.host, env);
    TextProblemExact(who, Username, re.username, env);
    TextProblemExact(who, Password, re.password, env);
    TextProblemExact(who, PrivateKey, re.privateKey, env);
    TextProblemExact(who, OverwriteMode, re.overwrite, env);
    hide TextProblem;
  }

  lemma TextProblemExact(who: Label, text: TextField, value: string, env: map<string, string>)
    ensures TextProblem(who, text, value, env) == [] <==> !SomeUnset(Segments(value), env)
  {
    FailsExactlyOnUnsetReferences(value, env);
  }

  lemma EndpointProblemsExact(re: RawEndpoint, who: Label, globals: Policy, seen: set<string>, process: Process)
    ensures EndpointProblems(re, who, globals, seen, process) == [] <==>
            ValidEndpoint(re, process) && BaseServes(re.policy, globals) && NameOf(re, process) !in seen
  {
    hide TextProblems, ValidTexts, FieldsOf, PolicyProblems, ValidPolicy, BaseServes;
    TextProblemsExact(re, who, process.env);
    PolicyProblemsExact(re.policy, globals, who);
    if ProtocolOf(re.protocol).Some? {
      assert NamesProtocol(re.protocol, ProtocolOf(re.protocol).value);
    }
  }

  // ---------------------------------------------------------------- the whole configuration

  function Globals(raw: RawConfig): Policy {
    Overlaid(raw.policy, DEFAULTS)
  }

  /** The names in use before endpoint `n`. */
  function SeenBefore(raw: RawConfig, n: nat, process: Process): set<string>
    requires n <= |raw.endpoints|
  {
    set k | 0 <= k < n && NameOf(raw.endpoints[k], process) != "" :: NameOf(raw.endpoints[k], process)
  }

  function ProblemsOf(raw: RawConfig, k: nat, process: Process): seq<Problem>
    requires k < |raw.endpoints|
  {
    var re := raw.endpoints[k];
    EndpointProblems(re, LabelOf(re, k), Globals(raw), SeenBefore(raw, k, process), process)
  }

  /** The problems of the first `n` endpoints, in order. */
  function ProblemsUpTo(raw: RawConfig, n: nat, process: Process): seq<Problem>
    requires n <= |raw.endpoints|
  {
    if n == 0 then [] else ProblemsUpTo(raw, n - 1, process) + ProblemsOf(raw, n - 1, process)
  }

  function AllProblems(raw: RawConfig, process: Process): seq<Problem> {
    PolicyProblems(raw.policy, DEFAULTS, TopLevel)
    + When(raw.endpoints == [], TopLevel, NoEndpoints)
    + ProblemsUpTo(raw, |raw.endpoints|, process)
  }
}
