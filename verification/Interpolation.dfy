/** ${VAR} interpolation of configuration values: the pattern of config.go:45 and interpolateEnv,
    config.go:324-342. */
module Interpolation {

  predicate IsNameStart(c: char) {
    'A' <= c <= 'Z' || 'a' <= c <= 'z' || c == '_'
  }

  predicate IsNameChar(c: char) {
    IsNameStart(c) || '0' <= c <= '9'
  }

  /** [A-Za-z_][A-Za-z0-9_]* */
  predicate IsName(name: string) {
    name != [] && IsNameStart(name[0]) && forall k :: 0 <= k < |name| ==> IsNameChar(name[k])
  }

  /** The characters of names by their code points: letters and the underscore, and digits after the first. */
  lemma NamesAreAscii(c: char)
    ensures IsNameStart(c) <==> 65 <= c as int <= 90 || 97 <= c as int <= 122 || c as int == 95
    ensures IsNameChar(c) <==> IsNameStart(c) || 48 <= c as int <= 57
  {
  }

  function Spelled(name: string): string {
    "${" + name + "}"
  }

  /** How many name characters `s` begins with. */
  function NameLength(s: string): (n: nat)
    ensures n <= |s|
    ensures forall k :: 0 <= k < n ==> IsNameChar(s[k])
    ensures n < |s| ==> !IsNameChar(s[n])
  {
    if s != [] && IsNameChar(s[0]) then 1 + NameLength(s[1..]) else 0
  }

  /** The name `s` begins with a reference to; "" if it does not begin with a reference. */
  function Reference(s: string): string {
    if |s| < 2 || s[..2] != "${" then ""
    else
      var n := NameLength(s[2..]);
      if n > 0 && IsNameStart(s[2]) && 2 + n < |s| && s[2 + n] == '}' then s[2..2 + n] else ""
  }

  /** A piece of the text: a character that stands for itself, or a reference. */
  datatype Segment = Lit(c: char) | Var(name: string)

  /** The text, cut up from left to right. */
  function Segments(s: string): seq<Segment> {
    if s == [] then []
    else if Reference(s) == "" then [Lit(s[0])] + Segments(s[1..])
    else ReferenceFits(s); [Var(Reference(s))] + Segments(s[|Reference(s)| + 3..])
  }

  function SourceOf(segment: Segment): string {
    if segment.Lit? then [segment.c] else Spelled(segment.name)
  }

  function Source(segments: seq<Segment>): string {
    if segments == [] then [] else SourceOf(segments[0]) + Source(segments[1..])
  }

  function ValueOf(segment: Segment, env: map<string, string>): string {
    if segment.Var? && segment.name in env then env[segment.name] else SourceOf(segment)
  }

  function Substitute(segments: seq<Segment>, env: map<string, string>): string {
    if segments == [] then [] else ValueOf(segments[0], env) + Substitute(segments[1..], env)
  }

  predicate Unset(segment: Segment, env: map<string, string>) {
    segment.Var? && segment.name !in env
  }

  /** The references without a value, in order, repeats included. */
  function Missing(segments: seq<Segment>, env: map<string, string>): seq<string> {
    if segments == [] then []
    else (if Unset(segments[0], env) then [segments[0].name] else []) + Missing(segments[1..], env)
  }

  function CountUnset(segments: seq<Segment>, env: map<string, string>): nat {
    if segments == [] then 0 else (if Unset(segments[0], env) then 1 else 0) + CountUnset(segments[1..], env)
  }

  /** Every reference without a value is among the missing, at its own place in their order. */
  lemma {:induction false} MissingInOrder(segments: seq<Segment>, env: map<string, string>, k: nat)
    requires k < |segments|
    ensures |Missing(segments, env)| == CountUnset(segments, env)
    ensures Unset(segments[k], env) ==>
              var n := CountUnset(segments[..k], env);
              n < |Missing(segments, env)| && Missing(segments, env)[n] == segments[k].name
  {
    if k > 0 {
      MissingInOrder(segments[1..], env, k - 1);
      assert segments[..k][1..] == segments[1..][..k - 1];
    } else if |segments| > 1 {
      MissingInOrder(segments[1..], env, 0);
    }
  }

  lemma ReferenceFits(s: string)
    ensures Reference(s) != "" ==>
              |Reference(s)| + 3 <= |s| && s[..|Reference(s)| + 3] == Spelled(Reference(s)) && IsName(Reference(s))
  {
    if Reference(s) != "" {
      var n := NameLength(s[2..]);
      var name := s[2..2 + n];
      assert forall k :: 0 <= k < n ==> name[k] == s[2..][k];
      assert s[..2 + n] == s[..2] + name;
      assert s[..n + 3] == s[..2 + n] + [s[2 + n]];
    }
  }

  /** The scan finds a reference exactly where the pattern matches, and the name it finds is the only one. */
  lemma ReferenceIsTheMatch(s: string, name: string)
    ensures Reference(s) == name && name != "" <==> IsName(name) && Spelled(name) <= s
  {
    ReferenceFits(s);
    if IsName(name) && Spelled(name) <= s {
      var n := |name|;
      assert forall k :: 0 <= k < n + 3 ==> s[k] == Spelled(name)[k];
      assert s[2..2 + n] == name;
      assert s[..2] == "${";
      assert s[2 + n] == '}';
      assert forall k :: 0 <= k < n ==> s[2..][k] == name[k];
      NameEnds(s[2..], n);
    }
  }

  lemma {:induction false} NameEnds(s: string, n: nat)
    requires n < |s| && !IsNameChar(s[n]) && forall k :: 0 <= k < n ==> IsNameChar(s[k])
    ensures NameLength(s) == n
  {
    if n > 0 {
      NameEnds(s[1..], n - 1);
    }
  }

  /** A cut of the text in which no character that stands for itself begins a reference. */
  predicate IsScan(segments: seq<Segment>) {
    forall k :: 0 <= k < |segments| ==> ScansAt(segments, k)
  }

  predicate ScansAt(segments: seq<Segment>, k: nat)
    requires k < |segments|
  {
    if segments[k].Var? then IsName(segments[k].name) else Reference(Source(segments[k..])) == ""
  }

  /** Nothing is lost or invented by the scan, and it is leftmost. */
  lemma {:induction false} ScanIsFaithful(s: string)
    ensures Source(Segments(s)) == s && IsScan(Segments(s))
  {
    hide Reference;
    if s != [] {
      ReferenceFits(s);
      var segments := Segments(s);
      var rest := if Reference(s) == "" then s[1..] else s[|Reference(s)| + 3..];
      ScanIsFaithful(rest);
      assert segments[1..] == Segments(rest);
      assert Source(segments) == s;
      forall k | 0 <= k < |segments| ensures ScansAt(segments, k) {
        if k == 0 {
          assert segments[0..] == segments;
        } else {
          assert ScansAt(Segments(rest), k - 1);
          assert segments[k..] == Segments(rest)[k - 1..];
        }
      }
    }
  }

  /** There is only one such cut. */
  lemma {:induction false} ScanIsUnique(segments: seq<Segment>)
    requires IsScan(segments)
    ensures segments == Segments(Source(segments))
  {
    hide Reference;
    if segments != [] {
      var s, rest := Source(segments), segments[1..];
      assert ScansAt(segments, 0) && segments[0..] == segments;
      forall k | 0 <= k < |rest| ensures ScansAt(rest, k) {
        assert ScansAt(segments, k + 1);
        assert segments[k + 1..] == rest[k..];
      }
      ScanIsUnique(rest);
      if segments[0].Var? {
        ReferenceIsTheMatch(s, segments[0].name);
        assert s[|segments[0].name| + 3..] == Source(rest);
      } else {
        assert s[1..] == Source(rest);
      }
    }
  }

  // ---------------------------------------------------------------- interpolation

  /** The result and, if there are any, the missing names. */
  function Interpolated(s: string, env: map<string, string>): (string, seq<string>) {
    var missing := Missing(Segments(s), env);
    (if missing == [] then Substitute(Segments(s), env) else s, missing)
  }

  predicate SomeUnset(segments: seq<Segment>, env: map<string, string>) {
    exists k :: 0 <= k < |segments| && Unset(segments[k], env)
  }

  lemma {:induction false} MissingIffUnset(segments: seq<Segment>, env: map<string, string>)
    ensures Missing(segments, env) != [] <==> SomeUnset(segments, env)
  {
    if segments != [] {
      MissingIffUnset(segments[1..], env);
      if k :| 0 <= k < |segments| && Unset(segments[k], env) {
        if k > 0 {
          assert segments[1..][k - 1] == segments[k];
        }
      }
      if k :| 0 <= k < |segments[1..]| && Unset(segments[1..][k], env) {
        assert segments[k + 1] == segments[1..][k];
      }
    }
  }

  /** interpolateEnv fails exactly when the text refers to a variable that is not set, and then it
      returns the text unchanged. */
  lemma FailsExactlyOnUnsetReferences(s: string, env: map<string, string>)
    ensures var (out, missing) := Interpolated(s, env);
            && (missing != [] <==> SomeUnset(Segments(s), env))
            && (missing != [] ==> out == s)
            && (missing == [] ==> out == Substitute(Segments(s), env))
  {
    MissingIffUnset(Segments(s), env);
  }

  /** The names the text refers to. */
  function Names(segments: seq<Segment>): set<string> {
    set segment | segment in segments && segment.Var? :: segment.name
  }

  /** Inserted values are never scanned: two environments that agree on the names written in the
      text give the same answer, whatever names their values mention. */
  lemma {:induction false} OnlyWrittenNamesMatter(segments: seq<Segment>, env: map<string, string>,
                                                  other: map<string, string>)
    requires forall name :: name in Names(segments) ==> (name in env <==> name in other)
    requires forall name :: name in Names(segments) && name in env ==> env[name] == other[name]
    ensures Substitute(segments, env) == Substitute(segments, other) &&
            Missing(segments, env) == Missing(segments, other)
  {
    if segments != [] {
      assert segments[0] in segments;
      assert segments[0].Var? ==> segments[0].name in Names(segments);
      forall name | name in Names(segments[1..]) ensures name in Names(segments) {
        var segment :| segment in segments[1..] && segment.Var? && segment.name == name;
        assert segment in segments;
      }
      OnlyWrittenNamesMatter(segments[1..], env, other);
    }
  }

  /** Giving every variable its own spelling as its value changes nothing. */
  lemma {:induction false} OwnSpellingIsIdentity(segments: seq<Segment>, env: map<string, string>)
    requires forall name :: name in env ==> env[name] == Spelled(name)
    ensures Substitute(segments, env) == Source(segments)
  {
    if segments != [] {
      OwnSpellingIsIdentity(segments[1..], env);
    }
  }

  lemma InterpolatingOwnSpellings(s: string, env: map<string, string>)
    requires forall name :: name in env ==> env[name] == Spelled(name)
    ensures Interpolated(s, env).0 == s
  {
    OwnSpellingIsIdentity(Segments(s), env);
    ScanIsFaithful(s);
  }

  ghost predicate Fixed(s: string) {
    forall env :: Interpolated(s, env) == (s, [])
  }

  /** The texts no environment can change or reject are those without a reference: so a second pass
      over an interpolated text is harmless only if no reference came in with a value. */
  lemma FixedExactlyWithoutReferences(s: string)
    ensures Fixed(s) <==> AllLiteral(Segments(s))
  {
    hide Reference, Segments, Substitute, Missing;
    if AllLiteral(Segments(s)) {
      forall env ensures Interpolated(s, env) == (s, []) {
        LiteralsStay(Segments(s), env);
        ScanIsFaithful(s);
      }
    } else {
      var none: map<string, string> := map[];
      ReferencesAreUnset(Segments(s), none);
      assert Interpolated(s, none).1 != [];
    }
  }

  predicate AllLiteral(segments: seq<Segment>) {
    forall k :: 0 <= k < |segments| ==> segments[k].Lit?
  }

  lemma ReferencesAreUnset(segments: seq<Segment>, none: map<string, string>)
    requires !AllLiteral(segments) && none == map[]
    ensures Missing(segments, none) != []
  {
    var k :| 0 <= k < |segments| && segments[k].Var?;
    assert Unset(segments[k], none);
    MissingIffUnset(segments, none);
  }

  lemma {:induction false} LiteralsStay(segments: seq<Segment>, env: map<string, string>)
    requires AllLiteral(segments)
    ensures Substitute(segments, env) == Source(segments) && Missing(segments, env) == []
  {
    if segments != [] {
      LiteralsStay(segments[1..], env);
    }
  }

  /** Interpolation is not idempotent: a reference that a value completes comes out as text, and a
      second pass would look it up. */
  lemma NestedReferenceComesOut(a: string, b: string)
    requires IsName(a) && IsName(b) && a != b
    ensures Interpolated("${" + Spelled(a) + "}", map[a := b]) == (Spelled(b), [])
    ensures Interpolated(Spelled(b), map[a := b]) == (Spelled(b), [b])
  {
    hide Reference, Segments, Substitute, Missing;
    NestedScan(a);
    SubstituteFour(Nesting(a), map[a := b]);
    assert "$" + ("{" + (b + "}")) == Spelled(b);
    SingleScan(b);
    SubstituteOne(Var(b), map[a := b]);
  }

  function Nesting(a: string): seq<Segment> {
    [Lit('$'), Lit('{'), Var(a), Lit('}')]
  }

  lemma SourceFour(segments: seq<Segment>)
    requires |segments| == 4
    ensures Source(segments[3..]) == SourceOf(segments[3])
    ensures Source(segments[2..]) == SourceOf(segments[2]) + SourceOf(segments[3])
    ensures Source(segments[1..]) == SourceOf(segments[1]) + SourceOf(segments[2]) + SourceOf(segments[3])
    ensures Source(segments) ==
            SourceOf(segments[0]) + SourceOf(segments[1]) + SourceOf(segments[2]) + SourceOf(segments[3])
  {
    SourceOne(segments[3..]);
    SourceOne(segments[2..]);
    SourceOne(segments[1..]);
    SourceOne(segments);
    hide Source, SourceOf;
    assert segments[1..][1..] == segments[2..] && segments[2..][1..] == segments[3..] && segments[3..][1..] == [];
  }

  lemma SourceOne(segments: seq<Segment>)
    requires segments != []
    ensures Source(segments) == SourceOf(segments[0]) + Source(segments[1..])
    ensures |segments| == 1 ==> Source(segments) == SourceOf(segments[0])
  {
    hide SourceOf;
  }

  lemma NestedScan(a: string)
    requires IsName(a)
    ensures Segments("${" + Spelled(a) + "}") == Nesting(a)
  {
    var s, outer := "${" + Spelled(a) + "}", Nesting(a);
    hide Source, Segments;
    SourceFour(outer);
    assert Source(outer) == s && outer[0..] == outer;
    assert Reference(s) == "" by { assert s[2] == '$'; }
    assert ScansAt(outer, 0) && ScansAt(outer, 1) && ScansAt(outer, 2) && ScansAt(outer, 3);
    ScanIsUnique(outer);
  }

  lemma SingleScan(b: string)
    requires IsName(b)
    ensures Segments(Spelled(b)) == [Var(b)]
  {
    assert Source([Var(b)]) == Spelled(b) && ScansAt([Var(b)], 0);
    ScanIsUnique([Var(b)]);
  }

  lemma SubstituteFour(segments: seq<Segment>, env: map<string, string>)
    requires |segments| == 4
    ensures Substitute(segments, env) ==
            ValueOf(segments[0], env) +
              (ValueOf(segments[1], env) + (ValueOf(segments[2], env) + ValueOf(segments[3], env)))
    ensures (forall k :: 0 <= k < 4 ==> !Unset(segments[k], env)) ==> Missing(segments, env) == []
  {
    var one, two := segments[1..], segments[1..][1..];
    assert two[1..] == [segments[3]];
    SubstituteOne(segments[3], env);
    assert Substitute(two, env) == ValueOf(segments[2], env) + ValueOf(segments[3], env);
    assert Substitute(one, env) == ValueOf(segments[1], env) + Substitute(two, env);
    if forall k :: 0 <= k < 4 ==> !Unset(segments[k], env) {
      assert !Unset(segments[0], env) && !Unset(segments[1], env) && !Unset(segments[2], env) &&
             !Unset(segments[3], env);
      assert Missing(two, env) == [];
      assert Missing(one, env) == [];
    }
  }

  lemma SubstituteOne(segment: Segment, env: map<string, string>)
    ensures Substitute([segment], env) == ValueOf(segment, env)
    ensures Missing([segment], env) == if Unset(segment, env) then [segment.name] else []
  {
  }

  // ---------------------------------------------------------------- a second pass

  /** Wherever nothing is missing, interpolating the result again returns it unchanged. */
  ghost predicate Idempotent(s: string) {
    forall env :: Interpolated(s, env).1 == [] ==>
      Interpolated(Interpolated(s, env).0, env) == (Interpolated(s, env).0, [])
  }

  /** The segments with every reference replaced by one to `name`. */
  function Renamed(segments: seq<Segment>, name: string): seq<Segment> {
    if segments == [] then []
    else [if segments[0].Var? then Var(name) else segments[0]] + Renamed(segments[1..], name)
  }

  lemma {:induction false} RenamedAt(segments: seq<Segment>, name: string, k: nat)
    requires k <= |segments|
    ensures |Renamed(segments, name)| == |segments| && Renamed(segments, name)[k..] == Renamed(segments[k..], name)
    ensures k < |segments| ==> Renamed(segments, name)[k] == if segments[k].Var? then Var(name) else segments[k]
  {
    if k == 0 {
      if segments != [] {
        RenamedAt(segments[1..], name, 0);
      }
      assert segments[0..] == segments;
    } else {
      RenamedAt(segments[1..], name, k - 1);
      assert segments[1..][k - 1..] == segments[k..];
    }
  }

  /** What a text starts with, up to its first dollar sign, is not affected by renaming. */
  lemma {:induction false} RenamingKeepsStart(segments: seq<Segment>, name: string, t: string)
    requires '$' !in t
    ensures t <= Source(segments) <==> t <= Source(Renamed(segments, name))
  {
    if t != [] && segments != [] {
      assert t[0] != '$';
      if segments[0].Lit? {
        RenamingKeepsStart(segments[1..], name, t[1..]);
        StartsWith(segments[0].c, Source(segments[1..]), t);
        StartsWith(segments[0].c, Source(Renamed(segments[1..], name)), t);
        RenamedAt(segments, name, 1);
      } else {
        RenamedAt(segments, name, 0);
        assert Source(segments)[0] == '$' && Source(Renamed(segments, name))[0] == '$';
      }
    }
  }

  lemma StartsWith(c: char, rest: string, t: string)
    requires t != []
    ensures t <= [c] + rest <==> t[0] == c && t[1..] <= rest
  {
    assert ([c] + rest)[1..] == rest;
    if t[0] == c && t[1..] <= rest {
      assert [c] + t[1..] == t;
    }
  }

  lemma NamesHoldNoDollar(name: string)
    requires IsName(name)
    ensures '$' !in "{" + name + "}"
  {
    assert forall k :: 0 <= k < |name| ==> name[k] != '$';
  }

  /** A character that begins no reference begins none after renaming. */
  lemma RenamingAddsNoMatch(segments: seq<Segment>, name: string)
    requires segments != [] && segments[0].Lit? && Reference(Source(segments)) == ""
    ensures Reference(Source(Renamed(segments, name))) == ""
  {
    var found := Reference(Source(Renamed(segments, name)));
    if found != "" {
      ReferenceIsTheMatch(Source(Renamed(segments, name)), found);
      NamesHoldNoDollar(found);
      var tail := "{" + found + "}";
      assert Spelled(found) == "$" + tail;
      StartsWith(segments[0].c, Source(Renamed(segments[1..], name)), Spelled(found));
      RenamingKeepsStart(segments[1..], name, tail);
      StartsWith(segments[0].c, Source(segments[1..]), Spelled(found));
      ReferenceIsTheMatch(Source(segments), found);
    }
  }

  lemma RenamedScans(segments: seq<Segment>, name: string)
    requires IsScan(segments) && IsName(name)
    ensures IsScan(Renamed(segments, name))
  {
    hide Reference, Source, Renamed;
    RenamedAt(segments, name, 0);
    var renamed := Renamed(segments, name);
    forall k | 0 <= k < |renamed| ensures ScansAt(renamed, k) {
      RenamedAt(segments, name, k);
      assert ScansAt(segments, k);
      if segments[k].Lit? {
        RenamingAddsNoMatch(segments[k..], name);
      }
    }
  }

  /** Giving every variable the spelling of `name` as its value renames all references. */
  lemma {:induction false} SpellingRenames(segments: seq<Segment>, env: map<string, string>, name: string)
    requires forall k :: 0 <= k < |segments| && segments[k].Var? ==>
               segments[k].name in env && env[segments[k].name] == Spelled(name)
    ensures Substitute(segments, env) == Source(Renamed(segments, name)) && Missing(segments, env) == []
  {
    hide Spelled;
    if segments != [] {
      SpellingRenames(segments[1..], env, name);
      RenamedAt(segments, name, 1);
    }
  }

  /** A name longer than the text is not written in it. */
  function FreshName(n: nat): (name: string)
    ensures IsName(name) && |name| == n + 1
  {
    if n == 0 then "A" else "A" + FreshName(n - 1)
  }

  lemma {:induction false} NamesAreShorter(segments: seq<Segment>, k: nat)
    requires k < |segments| && segments[k].Var?
    ensures |segments[k].name| <= |Source(segments)|
  {
    if k > 0 {
      NamesAreShorter(segments[1..], k - 1);
    }
  }

  /** An environment for which a second pass fails, if the text holds a reference. */
  lemma ReferencesBreakIdempotence(s: string)
    requires !AllLiteral(Segments(s))
    ensures !Idempotent(s)
  {
    hide Reference, Renamed, Segments, Substitute, Missing, Source;
    var segments, unused := Segments(s), FreshName(|s|);
    ScanIsFaithful(s);
    var env := map name | name in Names(segments) :: Spelled(unused);
    forall k | 0 <= k < |segments| && segments[k].Var?
      ensures segments[k].name in env && segments[k].name != unused
    {
      assert segments[k] in segments;
      NamesAreShorter(segments, k);
    }
    SpellingRenames(segments, env, unused);
    RenamedScans(segments, unused);
    var renamed := Renamed(segments, unused);
    ScanIsUnique(renamed);
    var j :| 0 <= j < |segments| && segments[j].Var?;
    RenamedAt(segments, unused, j);
    FreshIsUnset(segments, unused, env);
    assert Unset(renamed[j], env);
    MissingIffUnset(renamed, env);
    assert Interpolated(s, env) == (Source(renamed), []);
    assert Interpolated(Source(renamed), env).1 != [];
  }

  lemma FreshIsUnset(segments: seq<Segment>, unused: string, env: map<string, string>)
    requires forall k :: 0 <= k < |segments| && segments[k].Var? ==> segments[k].name != unused
    requires env.Keys == Names(segments)
    ensures unused !in env
  {
  }

  /** Interpolation is idempotent on a text exactly if the text holds no reference: whatever
      reference it holds, some value completes another one that a second pass would look up. */
  lemma IdempotentExactlyWithoutReferences(s: string)
    ensures Idempotent(s) <==> AllLiteral(Segments(s))
  {
    hide Reference, Segments, Interpolated;
    if AllLiteral(Segments(s)) {
      FixedExactlyWithoutReferences(s);
    } else {
      ReferencesBreakIdempotence(s);
    }
  }

  /** One step of the scan. */
  lemma ScanStep(s: string, env: map<string, string>)
    requires s != []
    ensures var name := Reference(s);
            var n := if name == "" then 1 else |name| + 3;
            var segment := if name == "" then Lit(s[0]) else Var(name);
            && n <= |s|
            && Substitute(Segments(s), env) == ValueOf(segment, env) + Substitute(Segments(s[n..]), env)
            && Missing(Segments(s), env) ==
              (if Unset(segment, env) then [name] else []) + Missing(Segments(s[n..]), env)
  {
    hide Reference;
    ReferenceFits(s);
    var name := Reference(s);
    assert Segments(s)[1..] == Segments(s[if name == "" then 1 else |name| + 3..]);
  }

  /** The part of the text before `i` has become `result`, and named these variables in vain. */
  predicate ScannedTo(s: string, i: nat, env: map<string, string>, result: string, missing: seq<string>) {
    && i <= |s|
    && Substitute(Segments(s), env) == result + Substitute(Segments(s[i..]), env)
    && Missing(Segments(s), env) == missing + Missing(Segments(s[i..]), env)
  }

  lemma ScanOn(s: string, i: nat, env: map<string, string>, result: string, missing: seq<string>)
    requires ScannedTo(s, i, env, result, missing) && i < |s|
    ensures var name := Reference(s[i..]);
            if name == "" then ScannedTo(s, i + 1, env, result + [s[i]], missing)
            else if name in env then ScannedTo(s, i + |name| + 3, env, result + env[name], missing)
            else ScannedTo(s, i + |name| + 3, env, result + Spelled(name), missing + [name])
  {
    hide Reference, Segments, Substitute, Missing, Spelled;
    ScanStep(s[i..], env);
    var name := Reference(s[i..]);
    var n := if name == "" then 1 else |name| + 3;
    assert s[i..][n..] == s[i + n..];
    assert missing + [] == missing;
  }

  lemma ScanBegins(s: string, env: map<string, string>)
    ensures ScannedTo(s, 0, env, "", [])
  {
    assert s[0..] == s;
  }

  lemma ScanEnds(s: string, env: map<string, string>, result: string, missing: seq<string>)
    requires ScannedTo(s, |s|, env, result, missing)
    ensures Interpolated(s, env) == (if missing == [] then result else s, missing)
  {
    NothingLeft(env);
    assert s[|s|..] == "" && result + "" == result && missing + [] == missing;
  }

  /** interpolateEnv: config.go:324-342.  The scan, the substitution and the list of missing names
      in one pass over the text. */
  method InterpolateEnv(s: string, env: map<string, string>) returns (out: string, missing: seq<string>)
    ensures (out, missing) == Interpolated(s, env)
  {
    hide Reference, ScannedTo, Interpolated, Spelled;
    var result := "";
    missing := [];
    var i := 0;
    ScanBegins(s, env);
    while i < |s|
      invariant 0 <= i <= |s| && ScannedTo(s, i, env, result, missing)
    {
      var name := Reference(s[i..]);
      ReferenceFits(s[i..]);
      ScanOn(s, i, env, result, missing);
      if name == "" {
        result := result + [s[i]];
        i := i + 1;
      } else {
        if name in env {
          result := result + env[name];
        } else {
          missing := missing + [name];
          result := result + Spelled(name);
        }
        i := i + |name| + 3;
      }
    }
    ScanEnds(s, env, result, missing);
    if missing != [] {
      return s, missing;
    }
    return result, [];
  }

  lemma NothingLeft(env: map<string, string>)
    ensures Substitute(Segments(""), env) == "" && Missing(Segments(""), env) == []
  {
  }
}
