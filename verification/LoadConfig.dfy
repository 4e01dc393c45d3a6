/** LoadConfig of config.go:47-78, and what its success and its failures mean. */
module LoadConfigs {
  import opened Types
  import opened Interpolation
  import opened Config

  // ---------------------------------------------------------------- what makes a configuration valid

  predicate DistinctNames(raw: RawConfig, process: Process) {
    forall j, k :: 0 <= j < k < |raw.endpoints| ==>
      NameOf(raw.endpoints[j], process) != NameOf(raw.endpoints[k], process)
  }

  predicate ValidConfig(raw: RawConfig, process: Process) {
    && ValidPolicy(raw.policy)
    && raw.endpoints != []
    && (forall k :: 0 <= k < |raw.endpoints| ==> ValidEndpoint(raw.endpoints[k], process))
    && DistinctNames(raw, process)
  }

  // ---------------------------------------------------------------- no problem means valid

  lemma {:induction false} ProblemsUpToExact(raw: RawConfig, n: nat, process: Process)
    requires n <= |raw.endpoints| && SoundBase(Globals(raw))
    ensures ProblemsUpTo(raw, n, process) == [] <==> FirstValid(raw, n, process)
  {
    hide EndpointProblems, ValidEndpoint, Overlaid, FieldsOf;
    if n > 0 {
      ProblemsUpToExact(raw, n - 1, process);
      var re := raw.endpoints[n - 1];
      EndpointProblemsExact(re, LabelOf(re, n - 1), Globals(raw), SeenBefore(raw, n - 1, process), process);
      SeenExact(raw, n - 1, process);
    }
  }

  predicate FirstValid(raw: RawConfig, n: nat, process: Process)
    requires n <= |raw.endpoints|
  {
    && (forall k :: 0 <= k < n ==> ValidEndpoint(raw.endpoints[k], process))
    && (forall j, k :: 0 <= j < k < n ==> NameOf(raw.endpoints[j], process) != NameOf(raw.endpoints[k], process))
  }

  /** A name that is not empty is in use before endpoint `n` if one of the first `n` has it. */
  lemma SeenExact(raw: RawConfig, n: nat, process: Process)
    requires n < |raw.endpoints|
    ensures ValidEndpoint(raw.endpoints[n], process) ==>
              (NameOf(raw.endpoints[n], process) in SeenBefore(raw, n, process) <==>
               exists k :: 0 <= k < n && NameOf(raw.endpoints[k], process) == NameOf(raw.endpoints[n], process))
  {
  }

  lemma AllProblemsExact(raw: RawConfig, process: Process)
    ensures AllProblems(raw, process) == [] <==> ValidConfig(raw, process)
  {
    hide ProblemsUpTo, PolicyProblems, ValidPolicy, ValidEndpoint, Overlaid;
    PolicyProblemsExact(raw.policy, DEFAULTS, TopLevel);
    if ValidPolicy(raw.policy) {
      ProblemsUpToExact(raw, |raw.endpoints|, process);
    }
  }

  // ---------------------------------------------------------------- loading

  function Layered<T>(own: Option<T>, global: Option<T>, def: T): T {
    if own.Some? then own.value else if global.Some? then global.value else def
  }

  /** Every policy field is the endpoint's own value, else the global one, else the default. */
  predicate IsLayered(p: Policy, own: RawPolicy, global: RawPolicy) {
    && p.attempts == Layered(own.attempts, global.attempts, 3)
    && p.maxConnectFailures == Layered(own.maxConnectFailures, global.maxConnectFailures, 3)
    && Nanos(p.retryDelay) == Layered(own.retryDelay, global.retryDelay, Nanos(2 * SECOND))
    && Nanos(p.connectTimeout) == Layered(own.connectTimeout, global.connectTimeout, Nanos(30 * SECOND))
    && Nanos(p.stallTimeout) == Layered(own.stallTimeout, global.stallTimeout, Nanos(5 * 60 * SECOND))
  }

  /** What the engine relies on. */
  predicate Workable(p: Policy) {
    p.attempts >= 1 && p.maxConnectFailures >= 1 && p.connectTimeout > 0 && p.retryDelay >= 0 && p.stallTimeout >= 0
  }

  lemma ValidPoliciesLayer(own: RawPolicy, global: RawPolicy)
    requires ValidPolicy(own) && ValidPolicy(global)
    ensures IsLayered(Overlaid(own, Overlaid(global, DEFAULTS)), own, global)
    ensures Workable(Overlaid(own, Overlaid(global, DEFAULTS)))
  {
  }

  /** An endpoint that was loaded is the one described, every text with its references replaced. */
  predicate IsResolved(e: Endpoint, re: RawEndpoint, raw: RawConfig, process: Process) {
    && e.name == Substitute(Segments(re.name), process.env)
    && e.host == Substitute(Segments(re.host), process.env)
    && e.username == Substitute(Segments(re.username), process.env)
    && e.password == Substitute(Segments(re.password), process.env)
    && NamesProtocol(re.protocol, e.protocol)
    && NamesMode(Substitute(Segments(re.overwrite), process.env), e.overwrite)
    && (var key := Substitute(Segments(re.privateKey), process.env);
        if key == "" then e.privateKey == "" else Some(e.privateKey) == process.expandHome(key))
    && e.port == re.port && e.insecureSkipVerify == re.insecureSkipVerify
    && IsLayered(e.policy, re.policy, raw.policy) && Workable(e.policy)
  }

  lemma ValidEndpointResolves(re: RawEndpoint, raw: RawConfig, process: Process)
    requires ValidEndpoint(re, process) && ValidPolicy(raw.policy)
    ensures IsResolved(EndpointOf(re, Globals(raw), process), re, raw, process)
  {
    hide Segments, Substitute, SomeUnset, Missing, Overlaid, IsLayered, Workable;
    ValidPoliciesLayer(re.policy, raw.policy);
    FailsExactlyOnUnsetReferences(re.name, process.env);
    FailsExactlyOnUnsetReferences(re.host, process.env);
    FailsExactlyOnUnsetReferences(re.username, process.env);
    FailsExactlyOnUnsetReferences(re.password, process.env);
    FailsExactlyOnUnsetReferences(re.privateKey, process.env);
    FailsExactlyOnUnsetReferences(re.overwrite, process.env);
  }

  /** LoadConfig, from the parsed file on: config.go:58-77.  It succeeds exactly on valid
      configurations, and otherwise returns every problem there is. */
  method LoadConfig(raw: RawConfig, process: Process) returns (r: Result<seq<Endpoint>, seq<Problem>>)
    ensures r.Ok? <==> ValidConfig(raw, process)
    ensures r.Err? ==> r.error == AllProblems(raw, process)
    ensures r.Ok? ==> |r.value| == |raw.endpoints|
    ensures r.Ok? ==> forall k :: 0 <= k < |r.value| ==> IsResolved(r.value[k], raw.endpoints[k], raw, process)
    ensures r.Ok? ==> forall j, k :: 0 <= j < k < |r.value| ==> r.value[j].name != r.value[k].name
  {
    hide EndpointProblems, EndpointOf, PolicyProblems, FieldsOf, ValidEndpoint, ValidPolicy, Overlaid, IsResolved;
    var globals, errs := ResolvePolicy(raw.policy, DEFAULTS, TopLevel);
    errs := Collect(errs, raw.endpoints == [], TopLevel, NoEndpoints);
    ghost var atTop := errs;
    var seen: set<string> := {};
    var endpoints := [];
    for i := 0 to |raw.endpoints|
      invariant errs == atTop + ProblemsUpTo(raw, i, process)
      invariant seen == SeenBefore(raw, i, process)
      invariant |endpoints| == i
      invariant forall k :: 0 <= k < i ==> endpoints[k] == EndpointOf(raw.endpoints[k], globals, process)
    {
      var endpoint, endpointErrs;
      endpoint, endpointErrs, seen := BuildEndpoint(raw.endpoints[i], i, globals, seen, process);
      errs := errs + endpointErrs;
      endpoints := endpoints + [endpoint];
    }
    AllProblemsExact(raw, process);
    if errs != [] {
      return Err(errs);
    }
    forall k | 0 <= k < |endpoints| ensures IsResolved(endpoints[k], raw.endpoints[k], raw, process) {
      ValidEndpointResolves(raw.endpoints[k], raw, process);
    }
    forall k | 0 <= k < |endpoints| ensures endpoints[k].name == NameOf(raw.endpoints[k], process) {
      NameKept(raw.endpoints[k], globals, process);
    }
    return Ok(endpoints);
  }

  lemma NameKept(re: RawEndpoint, globals: Policy, process: Process)
    ensures EndpointOf(re, globals, process).name == NameOf(re, process)
  {
  }

  // ---------------------------------------------------------------- who is blamed

  /** For each policy field, which endpoints report it.  Only a bad global connect_timeout is
      inherited as a problem, by every endpoint that does not set its own; other bad globals are
      reported once, at the top level. */
  lemma BlameForPolicies(raw: RawConfig, k: nat, process: Process, field: PolicyField)
    requires k < |raw.endpoints|
    ensures var re := raw.endpoints[k];
            var own := FieldIsBad(re.policy, DEFAULTS, field);
            Problem(LabelOf(re, k), BadPolicy(field)) in ProblemsOf(raw, k, process) <==>
            own || (field == ConnectTimeout && re.policy.connectTimeout.None?
                    && FieldIsBad(raw.policy, DEFAULTS, ConnectTimeout))
  {
    var re := raw.endpoints[k];
    var who := LabelOf(re, k);
    FieldIssues(re, who, SeenBefore(raw, k, process), process);
    PolicyProblemsName(re.policy, Globals(raw), who, field);
    BadOverGlobals(re.policy, raw.policy, field);
    hide PolicyProblems, Overlaid, FieldProblems, FieldIsBad, SeenBefore, LabelOf;
  }

  predicate IsNaming(issue: Issue) {
    issue.NameRequired? || issue.DuplicateName?
  }

  /** Problems that are about neither the endpoint's name nor its policy. */
  predicate Plain(problems: seq<Problem>) {
    forall p :: p in problems ==> !p.issue.BadPolicy? && !IsNaming(p.issue)
  }

  lemma WhenPlain(bad: bool, who: Label, issue: Issue)
    requires !issue.BadPolicy? && !IsNaming(issue)
    ensures Plain(When(bad, who, issue))
  {
  }

  lemma TextsPlain(re: RawEndpoint, who: Label, env: map<string, string>)
    ensures Plain(TextProblems(re, who, env))
  {
    TextPlain(who, Name, re.name, env);
    TextPlain(who, Host, re.host, env);
    TextPlain(who, Username, re.username, env);
    TextPlain(who, Password, re.password, env);
    TextPlain(who, PrivateKey, re.privateKey, env);
    TextPlain(who, OverwriteMode, re.overwrite, env);
    hide TextProblem, IsNaming;
  }

  lemma TextPlain(who: Label, text: TextField, value: string, env: map<string, string>)
    ensures Plain(TextProblem(who, text, value, env))
  {
    hide Interpolated;
  }

  lemma PartsPlain(re: RawEndpoint, who: Label, password: string, privateKey: string)
    ensures Plain(ProtocolProblems(who, re.protocol))
    ensures Plain(AuthProblems(who, ProtocolOf(re.protocol), password, privateKey))
  {
    hide ProtocolOf;
  }

  lemma NamesSay(who: Label, name: string, seen: set<string>)
    ensures forall p :: p in NameProblems(who, name, seen) ==> IsNaming(p.issue)
    ensures Problem(who, NameRequired) in NameProblems(who, name, seen) <==> name == ""
    ensures Problem(who, DuplicateName) in NameProblems(who, name, seen) <==> name != "" && name in seen
  {
  }

  /** What is found outside the policy is plain, but for what is said of the name. */
  lemma FieldIssues(re: RawEndpoint, who: Label, seen: set<string>, process: Process)
    ensures forall p :: p in FieldProblems(re, who, seen, process) ==>
              !p.issue.BadPolicy? && (IsNaming(p.issue) ==> p in NameProblems(who, NameOf(re, process), seen))
  {
    hide FieldsOf, TextProblems, NameProblems, ProtocolProblems, AuthProblems, When, KeyPathOf, OverwriteOf, ProtocolOf,
         Interpolated;
    var f := FieldsOf(re, process.env);
    TextsPlain(re, who, process.env);
    NamesSay(who, f.name, seen);
    PartsPlain(re, who, f.password, f.privateKey);
    WhenPlain(f.host == "", who, HostRequired);
    WhenPlain(re.port < 0 || re.port > 65535, who, PortOutOfRange(re.port));
    WhenPlain(f.username == "", who, UsernameRequired);
    WhenPlain(re.insecureSkipVerify && ProtocolOf(re.protocol) != Some(Ftps), who, SkipVerifyUnsupported);
    WhenPlain(OverwriteOf(f.overwrite).None?, who, UnknownOverwrite(f.overwrite));
    WhenPlain(KeyPathOf(f.privateKey, process).None?, who, KeyPath);
    hide IsNaming;
  }

  lemma NamesAreKept(re: RawEndpoint, who: Label, seen: set<string>, process: Process)
    ensures forall p :: p in NameProblems(who, NameOf(re, process), seen) ==> p in FieldProblems(re, who, seen, process)
  {
    hide FieldsOf, TextProblems, NameProblems, ProtocolProblems, AuthProblems, When, KeyPathOf, OverwriteOf, ProtocolOf,
         Interpolated;
  }

  lemma PolicyProblemsName(raw: RawPolicy, base: Policy, who: Label, field: PolicyField)
    ensures Problem(who, BadPolicy(field)) in PolicyProblems(raw, base, who) <==> FieldIsBad(raw, base, field)
  {
  }

  lemma BadOverGlobals(own: RawPolicy, global: RawPolicy, field: PolicyField)
    ensures FieldIsBad(own, Overlaid(global, DEFAULTS), field) <==>
            FieldIsBad(own, DEFAULTS, field)
            || (field == ConnectTimeout && own.connectTimeout.None? && FieldIsBad(global, DEFAULTS, ConnectTimeout))
  {
  }

  /** Who is told off for a name: every endpoint whose resolved name is empty, and every endpoint
      whose resolved name an earlier one has - so of several endpoints of one name all but the first. */
  lemma NamesAreBlamedExactly(raw: RawConfig, k: nat, process: Process)
    requires k < |raw.endpoints|
    ensures var who, name := LabelOf(raw.endpoints[k], k), NameOf(raw.endpoints[k], process);
            && (Problem(who, NameRequired) in ProblemsOf(raw, k, process) <==> name == "")
            && (Problem(who, DuplicateName) in ProblemsOf(raw, k, process) <==>
                name != "" && TakenBefore(raw, k, name, process))
  {
    var re := raw.endpoints[k];
    var who, seen := LabelOf(re, k), SeenBefore(raw, k, process);
    FieldIssues(re, who, seen, process);
    NamesAreKept(re, who, seen, process);
    NamesSay(who, NameOf(re, process), seen);
    PoliciesSay(re.policy, Globals(raw), who);
    hide PolicyProblems, FieldProblems, FieldsOf, Overlaid, NameProblems;
  }

  ghost predicate TakenBefore(raw: RawConfig, k: nat, name: string, process: Process)
    requires k <= |raw.endpoints|
  {
    exists j :: 0 <= j < k && NameOf(raw.endpoints[j], process) == name
  }

  lemma PoliciesSay(raw: RawPolicy, base: Policy, who: Label)
    ensures forall p :: p in PolicyProblems(raw, base, who) ==> p.issue.BadPolicy?
  {
    hide FieldIsBad;
  }

  function CountIssue(problems: seq<Problem>, issue: Issue): nat {
    if problems == [] then 0
    else CountIssue(problems[..|problems| - 1], issue) + if problems[|problems| - 1].issue == issue then 1 else 0
  }

  lemma {:induction false} CountPlus(a: seq<Problem>, b: seq<Problem>, issue: Issue)
    ensures CountIssue(a + b, issue) == CountIssue(a, issue) + CountIssue(b, issue)
  {
    if b == [] {
      assert a + b == a;
    } else {
      var m := |b| - 1;
      assert (a + b)[..|a| + m] == a + b[..m];
      CountPlus(a, b[..m], issue);
    }
  }

  lemma {:induction false} CountOther(problems: seq<Problem>, issue: Issue)
    requires issue.BadPolicy? && forall p :: p in problems ==> !p.issue.BadPolicy?
    ensures CountIssue(problems, issue) == 0
  {
    if problems != [] {
      CountOther(problems[..|problems| - 1], issue);
      assert problems[|problems| - 1] in problems;
    }
  }

  lemma CountWhen(bad: bool, who: Label, has: Issue, issue: Issue)
    ensures CountIssue(When(bad, who, has), issue) == if bad && has == issue then 1 else 0
  {
    assert [Problem(who, has)][..0] == [];
  }

  lemma CountPolicy(raw: RawPolicy, base: Policy, who: Label, field: PolicyField)
    ensures CountIssue(PolicyProblems(raw, base, who), BadPolicy(field)) ==
            if FieldIsBad(raw, base, field) then 1 else 0
  {
    hide When, FieldIsBad, CountIssue;
    var issue := BadPolicy(field);
    var a := When(FieldIsBad(raw, base, Attempts), who, BadPolicy(Attempts));
    var b := When(FieldIsBad(raw, base, MaxConnectFailures), who, BadPolicy(MaxConnectFailures));
    var c := When(FieldIsBad(raw, base, RetryDelay), who, BadPolicy(RetryDelay));
    var d := When(FieldIsBad(raw, base, ConnectTimeout), who, BadPolicy(ConnectTimeout));
    var e := When(FieldIsBad(raw, base, StallTimeout), who, BadPolicy(StallTimeout));
    CountWhen(FieldIsBad(raw, base, Attempts), who, BadPolicy(Attempts), issue);
    CountWhen(FieldIsBad(raw, base, MaxConnectFailures), who, BadPolicy(MaxConnectFailures), issue);
    CountWhen(FieldIsBad(raw, base, RetryDelay), who, BadPolicy(RetryDelay), issue);
    CountWhen(FieldIsBad(raw, base, ConnectTimeout), who, BadPolicy(ConnectTimeout), issue);
    CountWhen(FieldIsBad(raw, base, StallTimeout), who, BadPolicy(StallTimeout), issue);
    CountPlus(a, b, issue);
    CountPlus(a + b, c, issue);
    CountPlus(a + b + c, d, issue);
    CountPlus(a + b + c + d, e, issue);
  }

  /** Endpoint `re` reports this field: its own value is bad, or it is connect_timeout and a bad
      global one shows through. */
  predicate Blamed(re: RawEndpoint, global: RawPolicy, field: PolicyField) {
    FieldIsBad(re.policy, DEFAULTS, field)
    || (field == ConnectTimeout && re.policy.connectTimeout.None? && FieldIsBad(global, DEFAULTS, ConnectTimeout))
  }

  function BlamedAmong(endpoints: seq<RawEndpoint>, global: RawPolicy, field: PolicyField): nat {
    if endpoints == [] then 0
    else
      BlamedAmong(endpoints[..|endpoints| - 1], global, field)
      + if Blamed(endpoints[|endpoints| - 1], global, field) then 1 else 0
  }

  lemma ProblemsUpToOne(raw: RawConfig, n: nat, process: Process)
    requires n < |raw.endpoints|
    ensures ProblemsUpTo(raw, n + 1, process) == ProblemsUpTo(raw, n, process) + ProblemsOf(raw, n, process)
  {
    hide ProblemsOf;
  }

  lemma BlamedOne(raw: RawConfig, n: nat, field: PolicyField)
    requires n < |raw.endpoints|
    ensures BlamedAmong(raw.endpoints[..n + 1], raw.policy, field) ==
            BlamedAmong(raw.endpoints[..n], raw.policy, field) +
              if Blamed(raw.endpoints[n], raw.policy, field) then 1 else 0
  {
    hide Blamed;
    assert raw.endpoints[..n + 1][..n] == raw.endpoints[..n];
  }

  lemma NoReports(raw: RawConfig, process: Process, field: PolicyField)
    ensures CountIssue(ProblemsUpTo(raw, 0, process), BadPolicy(field)) == 0
    ensures BlamedAmong(raw.endpoints[..0], raw.policy, field) == 0
  {
  }

  lemma {:induction false} ReportsUpTo(raw: RawConfig, n: nat, process: Process, field: PolicyField)
    requires n <= |raw.endpoints|
    ensures CountIssue(ProblemsUpTo(raw, n, process), BadPolicy(field)) ==
            BlamedAmong(raw.endpoints[..n], raw.policy, field)
  {
    hide *;
    if n == 0 {
      NoReports(raw, process, field);
    } else {
      ReportsUpTo(raw, n - 1, process, field);
      ProblemsUpToOne(raw, n - 1, process);
      BlamedOne(raw, n - 1, field);
      EndpointReports(raw, n - 1, process, field);
      CountPlus(ProblemsUpTo(raw, n - 1, process), ProblemsOf(raw, n - 1, process), BadPolicy(field));
    }
  }

  lemma EndpointReports(raw: RawConfig, k: nat, process: Process, field: PolicyField)
    requires k < |raw.endpoints|
    ensures CountIssue(ProblemsOf(raw, k, process), BadPolicy(field)) ==
            if Blamed(raw.endpoints[k], raw.policy, field) then 1 else 0
  {
    hide CountIssue, FieldProblems, PolicyProblems, FieldIsBad, SeenBefore, LabelOf, Overlaid;
    var re := raw.endpoints[k];
    var who, seen := LabelOf(re, k), SeenBefore(raw, k, process);
    FieldIssues(re, who, seen, process);
    CountOther(FieldProblems(re, who, seen, process), BadPolicy(field));
    CountPolicy(re.policy, Globals(raw), who, field);
    BadOverGlobals(re.policy, raw.policy, field);
    CountPlus(FieldProblems(re, who, seen, process), PolicyProblems(re.policy, Globals(raw), who), BadPolicy(field));
  }

  /** How often a bad policy field is reported: once if the global value is bad and once for every
      endpoint to blame.  So a bad global connect_timeout is reported again for each endpoint that
      relies on it, and no other bad global is. */
  lemma PolicyReports(raw: RawConfig, process: Process, field: PolicyField)
    ensures CountIssue(AllProblems(raw, process), BadPolicy(field)) ==
            (if FieldIsBad(raw.policy, DEFAULTS, field) then 1 else 0) + BlamedAmong(raw.endpoints, raw.policy, field)
  {
    hide CountIssue, PolicyProblems, ProblemsUpTo, FieldIsBad, BlamedAmong, When;
    var issue := BadPolicy(field);
    var a, b := PolicyProblems(raw.policy, DEFAULTS, TopLevel), When(raw.endpoints == [], TopLevel, NoEndpoints);
    CountPolicy(raw.policy, DEFAULTS, TopLevel, field);
    CountWhen(raw.endpoints == [], TopLevel, NoEndpoints, issue);
    CountPlus(a, b, issue);
    CountPlus(a + b, ProblemsUpTo(raw, |raw.endpoints|, process), issue);
    ReportsUpTo(raw, |raw.endpoints|, process, field);
    assert raw.endpoints[..|raw.endpoints|] == raw.endpoints;
  }

  // ---------------------------------------------------------------- every endpoint can be configured

  function SpelledProtocol(p: Protocol): string {
    if p.Ftp? then "ftp" else if p.Ftps? then "ftps" else "sftp"
  }

  function SpelledMode(mode: Overwrite): string {
    if mode == Direct then "direct" else "delete-first"
  }

  /** An endpoint written out with nothing left to defaults. */
  function SpelledOut(e: Endpoint): RawEndpoint {
    RawEndpoint(
      e.name, SpelledProtocol(e.protocol), e.host, e.port, e.username, e.password, e.privateKey,
      SpelledMode(e.overwrite), e.insecureSkipVerify,
      RawPolicy(
        Some(e.policy.attempts), Some(Nanos(e.policy.retryDelay)), Some(Nanos(e.policy.connectTimeout)),
        Some(Nanos(e.policy.stallTimeout)), Some(e.policy.maxConnectFailures)))
  }

  predicate NoReference(s: string) {
    AllLiteral(Segments(s))
  }

  /** An endpoint as the engine needs it, whose texts stand for themselves. */
  predicate Describable(e: Endpoint, process: Process) {
    && e.name != "" && e.host != "" && e.username != "" && 0 <= e.port <= 65535
    && ValidAuth(e.protocol, e.password, e.privateKey)
    && (e.insecureSkipVerify ==> e.protocol.Ftps?)
    && (e.privateKey != "" ==> process.expandHome(e.privateKey) == Some(e.privateKey))
    && Workable(e.policy)
    && NoReference(e.name) && NoReference(e.host) && NoReference(e.username) && NoReference(e.password)
    && NoReference(e.privateKey)
  }

  function SpelledConfig(endpoints: seq<Endpoint>, global: RawPolicy): RawConfig {
    RawConfig(seq(|endpoints|, k requires 0 <= k < |endpoints| => SpelledOut(endpoints[k])), global)
  }

  lemma PlainText(s: string, env: map<string, string>)
    requires NoReference(s)
    ensures Interpolated(s, env) == (s, []) && Substitute(Segments(s), env) == s && !SomeUnset(Segments(s), env)
  {
    FixedExactlyWithoutReferences(s);
    FailsExactlyOnUnsetReferences(s, env);
  }

  lemma ModeIsPlain(mode: Overwrite)
    ensures NoReference(SpelledMode(mode))
  {
    hide NoReference;
    PlainWithoutDollar(SpelledMode(mode));
  }

  lemma {:induction false} PlainWithoutDollar(s: string)
    requires '$' !in s
    ensures NoReference(s)
  {
    if s != [] {
      assert Reference(s) == "" by { assert s[0] != '$'; }
      PlainWithoutDollar(s[1..]);
      assert Segments(s)[1..] == Segments(s[1..]);
    }
  }

  lemma SpelledEndpointLoads(e: Endpoint, global: RawPolicy, process: Process)
    requires Describable(e, process) && ValidPolicy(global)
    ensures ValidEndpoint(SpelledOut(e), process) && NameOf(SpelledOut(e), process) == e.name
    ensures EndpointOf(SpelledOut(e), Overlaid(global, DEFAULTS), process) == e
  {
    hide NoReference, Interpolated, Segments, Substitute, SomeUnset, Missing;
    PlainText(e.name, process.env);
    PlainText(e.host, process.env);
    PlainText(e.username, process.env);
    PlainText(e.password, process.env);
    PlainText(e.privateKey, process.env);
    ModeIsPlain(e.overwrite);
    PlainText(SpelledOut(e).overwrite, process.env);
  }

  /** Round trip: whatever endpoints the engine can work with, there is a configuration that loads
      as exactly those, under any valid global policy. */
  lemma SpelledConfigLoads(endpoints: seq<Endpoint>, global: RawPolicy, process: Process)
    requires endpoints != [] && ValidPolicy(global)
    requires forall k :: 0 <= k < |endpoints| ==> Describable(endpoints[k], process)
    requires forall j, k :: 0 <= j < k < |endpoints| ==> endpoints[j].name != endpoints[k].name
    ensures var raw := SpelledConfig(endpoints, global);
            && ValidConfig(raw, process) && |raw.endpoints| == |endpoints|
            && forall k :: 0 <= k < |endpoints| ==> EndpointOf(raw.endpoints[k], Globals(raw), process) == endpoints[k]
  {
    var raw := SpelledConfig(endpoints, global);
    forall k | 0 <= k < |endpoints|
      ensures ValidEndpoint(raw.endpoints[k], process) && NameOf(raw.endpoints[k], process) == endpoints[k].name
      ensures EndpointOf(raw.endpoints[k], Globals(raw), process) == endpoints[k]
    {
      SpelledEndpointLoads(endpoints[k], global, process);
    }
    hide ValidEndpoint, Describable, ValidPolicy, FieldsOf, EndpointOf, SpelledOut;
  }

  // ---------------------------------------------------------------- with references

  lemma ProtocolsArePlain(raw: string, protocol: Protocol)
    requires NamesProtocol(raw, protocol)
    ensures AllLiteral(Segments(raw))
  {
    hide AllLiteral, Segments;
    PlainWithoutDollar(raw);
  }

  lemma ReferenceReads(name: string, value: string)
    requires IsName(name)
    ensures !AllLiteral(Segments(Spelled(name))) && Interpolated(Spelled(name), map[name := value]) == (value, [])
  {
    hide Segments, Substitute, Missing;
    SingleScan(name);
    SubstituteOne(Var(name), map[name := value]);
    assert [Var(name)][0].Var?;
  }

  /** The protocol is the one text of an endpoint that is not interpolated.  A reference in it is read
      literally, and rejected whatever the environment; interpolating it would have made a difference
      exactly then, and could have made it acceptable. */
  lemma ProtocolIsReadLiterally(re: RawEndpoint, process: Process, name: string)
    ensures !AllLiteral(Segments(re.protocol)) ==> !ValidEndpoint(re, process)
    ensures Fixed(re.protocol) <==> AllLiteral(Segments(re.protocol))
    ensures IsName(name) ==>
            (forall protocol :: !NamesProtocol(Spelled(name), protocol))
            && Interpolated(Spelled(name), map[name := "ftp"]) == ("ftp", [])
  {
    hide AllLiteral, Segments, Interpolated, ValidTexts, FieldsOf, NamesProtocol, ValidPolicy;
    FixedExactlyWithoutReferences(re.protocol);
    if protocol :| NamesProtocol(re.protocol, protocol) {
      ProtocolsArePlain(re.protocol, protocol);
    }
    if IsName(name) {
      ReferenceReads(name, "ftp");
      if protocol :| NamesProtocol(Spelled(name), protocol) {
        ProtocolsArePlain(Spelled(name), protocol);
      }
    }
  }

  const TEXTS := 5

  /** The texts of the endpoints, numbered: name, host, username, password and key path of each in turn. */
  function TextFor(endpoints: seq<Endpoint>, keys: seq<string>, n: nat): string
    requires |keys| == |endpoints| && n < TEXTS * |endpoints|
  {
    var e := endpoints[n / TEXTS];
    match n % TEXTS
    case 0 => e.name
    case 1 => e.host
    case 2 => e.username
    case 3 => e.password
    case _ => keys[n / TEXTS]
  }

  /** The variable that holds the n-th text. */
  function Variable(n: nat): string {
    FreshName(n)
  }

  /** An environment with every text of the endpoints in a variable of its own. */
  function Environment(endpoints: seq<Endpoint>, keys: seq<string>): map<string, string>
    requires |keys| == |endpoints|
  {
    var names := set n | 0 <= n < TEXTS * |endpoints| :: Variable(n);
    map name | name in names && 0 < |name| <= TEXTS * |endpoints| :: TextFor(endpoints, keys, |name| - 1)
  }

  lemma EnvironmentHolds(endpoints: seq<Endpoint>, keys: seq<string>, n: nat)
    requires |keys| == |endpoints| && n < TEXTS * |endpoints|
    ensures Interpolated(Spelled(Variable(n)), Environment(endpoints, keys)) == (TextFor(endpoints, keys, n), [])
    ensures !SomeUnset(Segments(Spelled(Variable(n))), Environment(endpoints, keys))
  {
    var env, name := Environment(endpoints, keys), Variable(n);
    assert name in env && env[name] == TextFor(endpoints, keys, n);
    SingleScan(name);
    SubstituteOne(Var(name), env);
    hide Environment, TextFor;
    FailsExactlyOnUnsetReferences(Spelled(name), env);
  }

  /** An endpoint with a reference for every text. */
  function Referring(e: Endpoint, k: nat): RawEndpoint {
    RawEndpoint(
      Spelled(Variable(TEXTS * k)), SpelledProtocol(e.protocol), Spelled(Variable(TEXTS * k + 1)), e.port,
      Spelled(Variable(TEXTS * k + 2)), Spelled(Variable(TEXTS * k + 3)), Spelled(Variable(TEXTS * k + 4)),
      SpelledMode(e.overwrite), e.insecureSkipVerify, SpelledOut(e).policy)
  }

  /** An endpoint as the engine needs it; `key` is a path that home expansion turns into its key's. */
  predicate Configurable(e: Endpoint, key: string, process: Process) {
    && e.name != "" && e.host != "" && e.username != "" && 0 <= e.port <= 65535
    && ValidAuth(e.protocol, e.password, e.privateKey)
    && (e.insecureSkipVerify ==> e.protocol.Ftps?)
    && (if key == "" then e.privateKey == ""
        else e.privateKey != "" && process.expandHome(key) == Some(e.privateKey))
    && Workable(e.policy)
  }

  lemma ReferringFields(endpoints: seq<Endpoint>, keys: seq<string>, k: nat)
    requires |keys| == |endpoints| && k < |endpoints|
    ensures var e, re, env := endpoints[k], Referring(endpoints[k], k), Environment(endpoints, keys);
            && FieldsOf(re, env) == Fields(e.name, e.host, e.username, e.password, keys[k], SpelledMode(e.overwrite))
            && ValidTexts(re, env)
  {
    TextsAre(endpoints, keys, k);
    hide Environment, TextFor, Interpolated, Segments, SomeUnset, Variable, AllLiteral, Spelled, SpelledMode;
    var env := Environment(endpoints, keys);
    EnvironmentHolds(endpoints, keys, TEXTS * k);
    EnvironmentHolds(endpoints, keys, TEXTS * k + 1);
    EnvironmentHolds(endpoints, keys, TEXTS * k + 2);
    EnvironmentHolds(endpoints, keys, TEXTS * k + 3);
    EnvironmentHolds(endpoints, keys, TEXTS * k + 4);
    ModeIsPlain(endpoints[k].overwrite);
    PlainText(SpelledMode(endpoints[k].overwrite), env);
  }

  /** It is the interpolated texts that count. */
  lemma FieldsDecide(re: RawEndpoint, e: Endpoint, key: string, global: RawPolicy, process: Process)
    requires FieldsOf(re, process.env) ==
             Fields(e.name, e.host, e.username, e.password, key, SpelledMode(e.overwrite))
    requires ValidTexts(re, process.env) && Configurable(e, key, process) && ValidPolicy(global)
    requires re.protocol == SpelledProtocol(e.protocol) && re.port == e.port
    requires re.insecureSkipVerify == e.insecureSkipVerify && re.policy == SpelledOut(e).policy
    ensures ValidEndpoint(re, process) && NameOf(re, process) == e.name
    ensures EndpointOf(re, Overlaid(global, DEFAULTS), process) == e
  {
    hide FieldsOf, ValidTexts;
    assert NamesProtocol(re.protocol, e.protocol);
  }

  lemma ReferringEndpointLoads(endpoints: seq<Endpoint>, keys: seq<string>, k: nat, global: RawPolicy,
                               process: Process)
    requires |keys| == |endpoints| && k < |endpoints| && process.env == Environment(endpoints, keys)
    requires Configurable(endpoints[k], keys[k], process) && ValidPolicy(global)
    ensures ValidEndpoint(Referring(endpoints[k], k), process)
    ensures NameOf(Referring(endpoints[k], k), process) == endpoints[k].name
    ensures EndpointOf(Referring(endpoints[k], k), Overlaid(global, DEFAULTS), process) == endpoints[k]
  {
    hide Environment, FieldsOf, ValidTexts, Configurable, ValidPolicy, ValidEndpoint, EndpointOf, NameOf, Spelled,
         SpelledProtocol;
    ReferringFields(endpoints, keys, k);
    FieldsDecide(Referring(endpoints[k], k), endpoints[k], keys[k], global, process);
  }

  lemma TextsAre(endpoints: seq<Endpoint>, keys: seq<string>, k: nat)
    requires |keys| == |endpoints| && k < |endpoints|
    ensures TEXTS * k + 4 < TEXTS * |endpoints|
    ensures TextFor(endpoints, keys, TEXTS * k) == endpoints[k].name
    ensures TextFor(endpoints, keys, TEXTS * k + 1) == endpoints[k].host
    ensures TextFor(endpoints, keys, TEXTS * k + 2) == endpoints[k].username
    ensures TextFor(endpoints, keys, TEXTS * k + 3) == endpoints[k].password
    ensures TextFor(endpoints, keys, TEXTS * k + 4) == keys[k]
  {
  }

  function ReferringConfig(endpoints: seq<Endpoint>, global: RawPolicy): RawConfig {
    RawConfig(seq(|endpoints|, k requires 0 <= k < |endpoints| => Referring(endpoints[k], k)), global)
  }

  /** Round trip without restrictions on texts: whatever endpoints the engine can work with, some
      configuration and environment load as exactly those, under any valid global policy.  Texts that
      hold a reference themselves come in through variables. */
  lemma EveryEndpointCanBeConfigured(endpoints: seq<Endpoint>, keys: seq<string>, global: RawPolicy, process: Process)
    requires endpoints != [] && |keys| == |endpoints| && ValidPolicy(global)
    requires process.env == Environment(endpoints, keys)
    requires forall k :: 0 <= k < |endpoints| ==> Configurable(endpoints[k], keys[k], process)
    requires forall j, k :: 0 <= j < k < |endpoints| ==> endpoints[j].name != endpoints[k].name
    ensures var raw := ReferringConfig(endpoints, global);
            && ValidConfig(raw, process) && |raw.endpoints| == |endpoints|
            && forall k :: 0 <= k < |endpoints| ==> EndpointOf(raw.endpoints[k], Globals(raw), process) == endpoints[k]
  {
    var raw := ReferringConfig(endpoints, global);
    forall k | 0 <= k < |endpoints|
      ensures ValidEndpoint(raw.endpoints[k], process) && NameOf(raw.endpoints[k], process) == endpoints[k].name
      ensures EndpointOf(raw.endpoints[k], Globals(raw), process) == endpoints[k]
    {
      ReferringEndpointLoads(endpoints, keys, k, global, process);
    }
    hide ValidEndpoint, Configurable, ValidPolicy, FieldsOf, EndpointOf, Referring, Environment;
  }
}
