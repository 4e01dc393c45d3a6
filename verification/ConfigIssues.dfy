/** What an endpoint of the configuration is reported for: each issue stated on its own, and the order
    of the reports (config.go:137-322). */
module ConfigIssues {
  import opened Types
  import opened Interpolation
  import opened Config
  import opened LoadConfigs

  // ---------------------------------------------------------------- what each issue is

  /** An endpoint with what its reports depend on: the defaults, the names in use, the process. */
  datatype Case = Case(re: RawEndpoint, base: Policy, seen: set<string>, process: Process)

  function TextOf(re: RawEndpoint, text: TextField): string {
    match text
    case Name => re.name
    case Host => re.host
    case Username => re.username
    case Password => re.password
    case PrivateKey => re.privateKey
    case OverwriteMode => re.overwrite
  }

  /** The text with its references replaced, or as it is if one of them is unset. */
  function Resolved(x: Case, text: TextField): string {
    Interpolated(TextOf(x.re, text), x.process.env).0
  }

  predicate BadDuration(raw: Option<Duration>, def: int, least: int) {
    match raw
    case None => def < least
    case Some(Unparsable) => true
    case Some(Nanos(n)) => n < least
  }

  /** The field is set to something unacceptable, or is an unset duration that inherits something such. */
  predicate IsBad(policy: RawPolicy, base: Policy, field: PolicyField) {
    match field
    case Attempts => policy.attempts.Some? && policy.attempts.value < 1
    case MaxConnectFailures => policy.maxConnectFailures.Some? && policy.maxConnectFailures.value < 1
    case RetryDelay => BadDuration(policy.retryDelay, base.retryDelay, 0)
    case ConnectTimeout => BadDuration(policy.connectTimeout, base.connectTimeout, 1)
    case StallTimeout => BadDuration(policy.stallTimeout, base.stallTimeout, 0)
  }

  /** The endpoint has this issue. */
  predicate Has(x: Case, issue: Issue) {
    var re := x.re;
    match issue
    case NoEndpoints => false
    case Undefined(text, names) => names != [] && names == Interpolated(TextOf(re, text), x.process.env).1
    case NameRequired => Resolved(x, Name) == ""
    case DuplicateName => Resolved(x, Name) != "" && Resolved(x, Name) in x.seen
    case ProtocolRequired => re.protocol == ""
    case UnknownProtocol(raw) => raw == re.protocol && raw != "" && raw != "ftp" && raw != "ftps" && raw != "sftp"
    case HostRequired => Resolved(x, Host) == ""
    case PortOutOfRange(port) => port == re.port && !(0 <= port <= 65535)
    case UsernameRequired => Resolved(x, Username) == ""
    case KeyUnsupported => (re.protocol == "ftp" || re.protocol == "ftps") && Resolved(x, PrivateKey) != ""
    case PasswordRequired => (re.protocol == "ftp" || re.protocol == "ftps") && Resolved(x, Password) == ""
    case PasswordOrKeyRequired =>
      re.protocol == "sftp" && Resolved(x, Password) == "" && Resolved(x, PrivateKey) == ""
    case SkipVerifyUnsupported => re.insecureSkipVerify && re.protocol != "ftps"
    case UnknownOverwrite(raw) =>
      raw == Resolved(x, OverwriteMode) && raw != "" && raw != "delete-first" && raw != "direct"
    case KeyPath =>
      Resolved(x, PrivateKey) != "" && x.process.expandHome(Resolved(x, PrivateKey)).None?
    case BadPolicy(field) => IsBad(re.policy, x.base, field)
  }

  /** The order in which issues are looked for. */
  function Rank(issue: Issue): int {
    match issue
    case NoEndpoints => -1
    case Undefined(Name, _) => 0
    case Undefined(Host, _) => 1
    case Undefined(Username, _) => 2
    case Undefined(Password, _) => 3
    case Undefined(PrivateKey, _) => 4
    case Undefined(OverwriteMode, _) => 5
    case NameRequired => 6
    case DuplicateName => 7
    case ProtocolRequired => 8
    case UnknownProtocol(_) => 9
    case HostRequired => 10
    case PortOutOfRange(_) => 11
    case UsernameRequired => 12
    case KeyUnsupported => 13
    case PasswordRequired => 14
    case PasswordOrKeyRequired => 15
    case SkipVerifyUnsupported => 16
    case UnknownOverwrite(_) => 17
    case KeyPath => 18
    case BadPolicy(Attempts) => 19
    case BadPolicy(MaxConnectFailures) => 20
    case BadPolicy(RetryDelay) => 21
    case BadPolicy(ConnectTimeout) => 22
    case BadPolicy(StallTimeout) => 23
  }

  const RANKS := 24

  // ---------------------------------------------------------------- a stretch of reports

  /** All about `who`, in strictly increasing order, from `lo` on and below `hi`. */
  predicate Ranked(ps: seq<Problem>, who: Label, lo: int, hi: int) {
    && (forall k :: 0 <= k < |ps| ==> ps[k].who == who && lo <= Rank(ps[k].issue) < hi)
    && (forall j, k :: 0 <= j < k < |ps| ==> Rank(ps[j].issue) < Rank(ps[k].issue))
  }

  /** These are the reports of the issues in the range: of those the endpoint has, and in order. */
  ghost predicate Exactly(x: Case, who: Label, ps: seq<Problem>, lo: int, hi: int) {
    && lo <= hi && Ranked(ps, who, lo, hi)
    && forall issue :: lo <= Rank(issue) < hi ==> (Problem(who, issue) in ps <==> Has(x, issue))
  }

  lemma Outside(ps: seq<Problem>, who: Label, lo: int, hi: int, issue: Issue)
    requires Ranked(ps, who, lo, hi) && !(lo <= Rank(issue) < hi)
    ensures Problem(who, issue) !in ps
  {
    hide Rank;
  }

  lemma Plus(x: Case, who: Label, a: seq<Problem>, b: seq<Problem>, lo: int, mid: int, hi: int)
    requires Exactly(x, who, a, lo, mid) && Exactly(x, who, b, mid, hi)
    ensures Exactly(x, who, a + b, lo, hi)
  {
    hide Rank, Has;
    forall issue | lo <= Rank(issue) < hi ensures Problem(who, issue) in a + b <==> Has(x, issue) {
      if Rank(issue) < mid {
        Outside(b, who, mid, hi, issue);
      } else {
        Outside(a, who, lo, mid, issue);
      }
    }
  }

  /** One possible report, of the one issue of its rank that the endpoint can have. */
  lemma One(x: Case, who: Label, bad: bool, issue: Issue)
    requires Has(x, issue) == bad
    requires forall other :: Rank(other) == Rank(issue) && Has(x, other) ==> other == issue
    ensures Exactly(x, who, When(bad, who, issue), Rank(issue), Rank(issue) + 1)
  {
    hide Rank, Has;
  }

  lemma OneText(x: Case, who: Label, text: TextField)
    ensures var lo := Rank(Undefined(text, []));
            Exactly(x, who, TextProblem(who, text, TextOf(x.re, text), x.process.env), lo, lo + 1)
  {
    hide Interpolated;
    var missing := Interpolated(TextOf(x.re, text), x.process.env).1;
    SameRank(text, missing);
    One(x, who, missing != [], Undefined(text, missing));
  }

  lemma SameRank(text: TextField, names: seq<string>)
    ensures Rank(Undefined(text, names)) == Rank(Undefined(text, []))
    ensures forall other :: Rank(other) == Rank(Undefined(text, names)) ==> other.Undefined? && other.text == text
  {
  }

  lemma Texts(x: Case, who: Label)
    ensures Exactly(x, who, TextProblems(x.re, who, x.process.env), 0, 6)
  {
    hide Exactly, TextProblem, Has;
    OneText(x, who, Name);
    OneText(x, who, Host);
    OneText(x, who, Username);
    OneText(x, who, Password);
    OneText(x, who, PrivateKey);
    OneText(x, who, OverwriteMode);
    var env := x.process.env;
    var a, b := TextProblem(who, Name, x.re.name, env), TextProblem(who, Host, x.re.host, env);
    var c, d := TextProblem(who, Username, x.re.username, env), TextProblem(who, Password, x.re.password, env);
    var e, f := TextProblem(who, PrivateKey, x.re.privateKey, env),
                TextProblem(who, OverwriteMode, x.re.overwrite, env);
    Plus(x, who, a, b, 0, 1, 2);
    Plus(x, who, a + b, c, 0, 2, 3);
    Plus(x, who, a + b + c, d, 0, 3, 4);
    Plus(x, who, a + b + c + d, e, 0, 4, 5);
    Plus(x, who, a + b + c + d + e, f, 0, 5, 6);
  }

  lemma Namings(x: Case, who: Label)
    ensures Exactly(x, who, NameProblems(who, Resolved(x, Name), x.seen), 6, 8)
  {
    hide Exactly, Resolved;
    var name := Resolved(x, Name);
    One(x, who, name == "", NameRequired);
    One(x, who, name != "" && name in x.seen, DuplicateName);
    var a, b := When(name == "", who, NameRequired), When(name != "" && name in x.seen, who, DuplicateName);
    Plus(x, who, a, b, 6, 7, 8);
    assert NameProblems(who, name, x.seen) == a + b;
  }

  lemma Protocols(x: Case, who: Label)
    ensures Exactly(x, who, ProtocolProblems(who, x.re.protocol), 8, 10)
  {
    hide Exactly;
    var raw := x.re.protocol;
    var unknown := raw != "" && raw != "ftp" && raw != "ftps" && raw != "sftp";
    One(x, who, raw == "", ProtocolRequired);
    One(x, who, unknown, UnknownProtocol(raw));
    var a, b := When(raw == "", who, ProtocolRequired), When(unknown, who, UnknownProtocol(raw));
    Plus(x, who, a, b, 8, 9, 10);
    assert ProtocolProblems(who, raw) == a + b;
  }

  lemma Auths(x: Case, who: Label)
    ensures var password, key := Resolved(x, Password), Resolved(x, PrivateKey);
            Exactly(x, who, AuthProblems(who, ProtocolOf(x.re.protocol), password, key), 13, 16)
  {
    hide Exactly, Resolved;
    var raw, password, key := x.re.protocol, Resolved(x, Password), Resolved(x, PrivateKey);
    var ftp := raw == "ftp" || raw == "ftps";
    One(x, who, ftp && key != "", KeyUnsupported);
    One(x, who, ftp && password == "", PasswordRequired);
    One(x, who, raw == "sftp" && password == "" && key == "", PasswordOrKeyRequired);
    var a, b := When(ftp && key != "", who, KeyUnsupported), When(ftp && password == "", who, PasswordRequired);
    var c := When(raw == "sftp" && password == "" && key == "", who, PasswordOrKeyRequired);
    Plus(x, who, a, b, 13, 14, 15);
    Plus(x, who, a + b, c, 13, 15, 16);
    assert AuthProblems(who, ProtocolOf(raw), password, key) == a + b + c;
  }

  lemma OnePolicy(x: Case, who: Label, field: PolicyField)
    ensures var bad, lo := FieldIsBad(x.re.policy, x.base, field), Rank(BadPolicy(field));
            Exactly(x, who, When(bad, who, BadPolicy(field)), lo, lo + 1)
  {
    PolicyRank(field);
    assert FieldIsBad(x.re.policy, x.base, field) == Has(x, BadPolicy(field));
    hide FieldIsBad, Has, Exactly, Rank;
    One(x, who, FieldIsBad(x.re.policy, x.base, field), BadPolicy(field));
  }

  lemma PolicyRank(field: PolicyField)
    ensures forall other :: Rank(other) == Rank(BadPolicy(field)) ==> other == BadPolicy(field)
  {
  }

  lemma Policies(x: Case, who: Label)
    ensures Exactly(x, who, PolicyProblems(x.re.policy, x.base, who), 19, 24)
  {
    hide Exactly;
    var raw, base := x.re.policy, x.base;
    OnePolicy(x, who, Attempts);
    OnePolicy(x, who, MaxConnectFailures);
    OnePolicy(x, who, RetryDelay);
    OnePolicy(x, who, ConnectTimeout);
    OnePolicy(x, who, StallTimeout);
    hide When, FieldIsBad, Has, BadDuration;
    var a := When(FieldIsBad(raw, base, Attempts), who, BadPolicy(Attempts));
    var b := When(FieldIsBad(raw, base, MaxConnectFailures), who, BadPolicy(MaxConnectFailures));
    var c := When(FieldIsBad(raw, base, RetryDelay), who, BadPolicy(RetryDelay));
    var d := When(FieldIsBad(raw, base, ConnectTimeout), who, BadPolicy(ConnectTimeout));
    var e := When(FieldIsBad(raw, base, StallTimeout), who, BadPolicy(StallTimeout));
    Plus(x, who, a, b, 19, 20, 21);
    Plus(x, who, a + b, c, 19, 21, 22);
    Plus(x, who, a + b + c, d, 19, 22, 23);
    Plus(x, who, a + b + c + d, e, 19, 23, 24);
  }

  lemma Fields(x: Case, who: Label)
    ensures Exactly(x, who, FieldProblems(x.re, who, x.seen, x.process), 0, 19)
  {
    hide Exactly, Resolved, TextProblems, NameProblems, ProtocolProblems, AuthProblems;
    var f := FieldsOf(x.re, x.process.env);
    FieldsAreResolved(x);
    Texts(x, who);
    Namings(x, who);
    Protocols(x, who);
    Auths(x, who);
    Requireds(x, who);
    Numbers(x, who);
    Modes(x, who);
    hide FieldsOf, When, Has, KeyPathOf, OverwriteOf, ProtocolOf;
    var a := TextProblems(x.re, who, x.process.env);
    var b, c := NameProblems(who, f.name, x.seen), ProtocolProblems(who, x.re.protocol);
    var d := When(f.host == "", who, HostRequired);
    var e := When(x.re.port < 0 || x.re.port > 65535, who, PortOutOfRange(x.re.port));
    var g := When(f.username == "", who, UsernameRequired);
    var h := AuthProblems(who, ProtocolOf(x.re.protocol), f.password, f.privateKey);
    var i := When(x.re.insecureSkipVerify && ProtocolOf(x.re.protocol) != Some(Ftps), who, SkipVerifyUnsupported);
    var j := When(OverwriteOf(f.overwrite).None?, who, UnknownOverwrite(f.overwrite));
    var k := When(KeyPathOf(f.privateKey, x.process).None?, who, KeyPath);
    Plus(x, who, a, b, 0, 6, 8);
    Plus(x, who, a + b, c, 0, 8, 10);
    Plus(x, who, a + b + c, d, 0, 10, 11);
    Plus(x, who, a + b + c + d, e, 0, 11, 12);
    Plus(x, who, a + b + c + d + e, g, 0, 12, 13);
    Plus(x, who, a + b + c + d + e + g, h, 0, 13, 16);
    Plus(x, who, a + b + c + d + e + g + h, i, 0, 16, 17);
    Plus(x, who, a + b + c + d + e + g + h + i, j, 0, 17, 18);
    Plus(x, who, a + b + c + d + e + g + h + i + j, k, 0, 18, 19);
  }

  lemma FieldsAreResolved(x: Case)
    ensures FieldsOf(x.re, x.process.env) ==
            Config.Fields(Resolved(x, Name), Resolved(x, Host), Resolved(x, Username), Resolved(x, Password),
                          Resolved(x, PrivateKey), Resolved(x, OverwriteMode))
  {
    hide Interpolated;
  }

  lemma Requireds(x: Case, who: Label)
    ensures Exactly(x, who, When(Resolved(x, Host) == "", who, HostRequired), 10, 11)
    ensures Exactly(x, who, When(Resolved(x, Username) == "", who, UsernameRequired), 12, 13)
  {
    hide Exactly, Resolved;
    One(x, who, Resolved(x, Host) == "", HostRequired);
    One(x, who, Resolved(x, Username) == "", UsernameRequired);
  }

  lemma Numbers(x: Case, who: Label)
    ensures Exactly(x, who, When(x.re.port < 0 || x.re.port > 65535, who, PortOutOfRange(x.re.port)), 11, 12)
    ensures Exactly(x, who, When(x.re.insecureSkipVerify && ProtocolOf(x.re.protocol) != Some(Ftps), who,
                                 SkipVerifyUnsupported), 16, 17)
  {
    hide Exactly;
    One(x, who, x.re.port < 0 || x.re.port > 65535, PortOutOfRange(x.re.port));
    One(x, who, x.re.insecureSkipVerify && ProtocolOf(x.re.protocol) != Some(Ftps), SkipVerifyUnsupported);
  }

  lemma Modes(x: Case, who: Label)
    ensures var mode := Resolved(x, OverwriteMode);
            Exactly(x, who, When(OverwriteOf(mode).None?, who, UnknownOverwrite(mode)), 17, 18)
    ensures Exactly(x, who, When(KeyPathOf(Resolved(x, PrivateKey), x.process).None?, who, KeyPath), 18, 19)
  {
    hide Exactly, Resolved;
    var mode := Resolved(x, OverwriteMode);
    One(x, who, OverwriteOf(mode).None?, UnknownOverwrite(mode));
    One(x, who, KeyPathOf(Resolved(x, PrivateKey), x.process).None?, KeyPath);
  }

  // ---------------------------------------------------------------- main results

  /** An endpoint is reported for exactly the issues it has, each at most once, and in this order. */
  lemma EndpointIssuesExact(re: RawEndpoint, who: Label, base: Policy, seen: set<string>, process: Process)
    ensures var ps := EndpointProblems(re, who, base, seen, process);
            && Ranked(ps, who, 0, RANKS)
            && forall issue :: Problem(who, issue) in ps <==> Has(Case(re, base, seen, process), issue)
  {
    var x := Case(re, base, seen, process);
    Fields(x, who);
    Policies(x, who);
    hide FieldProblems, PolicyProblems;
    var ps := EndpointProblems(re, who, base, seen, process);
    Plus(x, who, FieldProblems(re, who, seen, process), PolicyProblems(re.policy, base, who), 0, 19, 24);
    hide EndpointProblems, Has;
    forall issue ensures Problem(who, issue) in ps <==> Has(x, issue) {
      RankInRange(issue);
      if issue.NoEndpoints? {
        Outside(ps, who, 0, RANKS, issue);
        NeverAnEndpoints(x);
      }
    }
  }

  lemma RankInRange(issue: Issue)
    ensures issue.NoEndpoints? || 0 <= Rank(issue) < RANKS
    ensures issue.NoEndpoints? ==> Rank(issue) == -1
  {
  }

  lemma NeverAnEndpoints(x: Case)
    ensures !Has(x, NoEndpoints)
  {
  }

  /** How the k-th endpoint is referred to: by its name as written, or by its place if it has none. */
  predicate Names(who: Label, re: RawEndpoint, k: nat) {
    match who
    case TopLevel => false
    case Named(name) => name == re.name && name != ""
    case Numbered(index) => index == k && re.name == ""
  }

  function CaseOf(raw: RawConfig, k: nat, process: Process): Case
    requires k < |raw.endpoints|
  {
    Case(raw.endpoints[k], Globals(raw), SeenBefore(raw, k, process), process)
  }

  /** The k-th endpoint has this problem. */
  predicate HasProblem(raw: RawConfig, k: nat, process: Process, p: Problem)
    requires k < |raw.endpoints|
  {
    Names(p.who, raw.endpoints[k], k) && Has(CaseOf(raw, k, process), p.issue)
  }

  ghost predicate SomeHas(raw: RawConfig, n: nat, process: Process, p: Problem)
    requires n <= |raw.endpoints|
  {
    exists k :: 0 <= k < n && HasProblem(raw, k, process, p)
  }

  /** The configuration itself has this problem: a bad global value, or no endpoint. */
  predicate HasGlobally(raw: RawConfig, issue: Issue) {
    match issue
    case BadPolicy(field) => IsBad(raw.policy, DEFAULTS, field)
    case NoEndpoints => raw.endpoints == []
    case _ => false
  }

  lemma ProblemsOfOne(raw: RawConfig, k: nat, process: Process, p: Problem)
    requires k < |raw.endpoints|
    ensures p in ProblemsOf(raw, k, process) <==> HasProblem(raw, k, process, p)
  {
    var re := raw.endpoints[k];
    var who, ps := LabelOf(re, k), ProblemsOf(raw, k, process);
    EndpointIssuesExact(re, who, Globals(raw), SeenBefore(raw, k, process), process);
    LabelIs(p.who, re, k);
    hide EndpointProblems, Has, Ranked, Globals, SeenBefore, LabelOf, Names;
    AllAbout(ps, who, p);
    assert p == Problem(p.who, p.issue);
  }

  lemma AllAbout(ps: seq<Problem>, who: Label, p: Problem)
    requires Ranked(ps, who, 0, RANKS)
    ensures p in ps ==> p.who == who
  {
    hide Rank;
  }

  lemma LabelIs(who: Label, re: RawEndpoint, k: nat)
    ensures Names(who, re, k) <==> who == LabelOf(re, k)
  {
  }

  lemma {:induction false} ProblemsUpToAre(raw: RawConfig, n: nat, process: Process, p: Problem)
    requires n <= |raw.endpoints|
    ensures p in ProblemsUpTo(raw, n, process) <==> SomeHas(raw, n, process, p)
  {
    hide ProblemsOf, HasProblem;
    if n > 0 {
      ProblemsUpToAre(raw, n - 1, process, p);
      ProblemsOfOne(raw, n - 1, process, p);
    }
  }

  lemma GlobalsAre(raw: RawConfig, p: Problem)
    ensures p in PolicyProblems(raw.policy, DEFAULTS, TopLevel) + When(raw.endpoints == [], TopLevel, NoEndpoints) <==>
            p.who.TopLevel? && HasGlobally(raw, p.issue)
  {
    if p.issue.BadPolicy? {
      PolicyProblemsName(raw.policy, DEFAULTS, TopLevel, p.issue.policyField);
    }
    PoliciesSay(raw.policy, DEFAULTS, TopLevel);
    AllAtTheTop(raw.policy);
    hide PolicyProblems;
    assert p == Problem(p.who, p.issue);
  }

  lemma AllAtTheTop(policy: RawPolicy)
    ensures forall p :: p in PolicyProblems(policy, DEFAULTS, TopLevel) ==> p.who.TopLevel?
  {
    hide FieldIsBad;
  }

  /** Nothing is lost and nothing made up: what a rejected configuration is reported for is exactly
      what is wrong with it at the top level and with each of its endpoints. */
  lemma AllIssuesExact(raw: RawConfig, process: Process, p: Problem)
    ensures p in AllProblems(raw, process) <==>
            (p.who.TopLevel? && HasGlobally(raw, p.issue)) || SomeHas(raw, |raw.endpoints|, process, p)
  {
    GlobalsAre(raw, p);
    ProblemsUpToAre(raw, |raw.endpoints|, process, p);
    hide PolicyProblems, ProblemsUpTo, HasGlobally, SomeHas, When;
  }
}
