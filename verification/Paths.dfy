/** Remote names: the basename of a local path, and the check that rejects a batch
    in which two inputs would land under the same remote name. */
module Paths {
  import opened Types

  const SEPARATOR := '/'

  function TrimTrailing(path: string): string {
    if path != [] && path[|path| - 1] == SEPARATOR then TrimTrailing(path[..|path| - 1]) else path
  }

  function AfterLastSeparator(path: string): string {
    if path == [] || path[|path| - 1] == SEPARATOR then []
    else AfterLastSeparator(path[..|path| - 1]) + [path[|path| - 1]]
  }

  /** filepath.Base on a slash-separated path. */
  function Base(path: string): string {
    if path == [] then "."
    else
      var trimmed := TrimTrailing(path);
      if trimmed == [] then [SEPARATOR] else AfterLastSeparator(trimmed)
  }

  lemma {:induction false} AfterLastSeparatorIsSuffix(path: string)
    ensures var r := AfterLastSeparator(path);
            SEPARATOR !in r && |r| <= |path| && path[|path| - |r|..] == r
            && (|r| < |path| ==> path[|path| - |r| - 1] == SEPARATOR)
  {
    if path != [] && path[|path| - 1] != SEPARATOR {
      AfterLastSeparatorIsSuffix(path[..|path| - 1]);
    }
  }

  lemma {:induction false} TrimTrailingSplits(path: string)
    ensures var r := TrimTrailing(path);
            r <= path && (r != [] ==> r[|r| - 1] != SEPARATOR)
            && forall k :: |r| <= k < |path| ==> path[k] == SEPARATOR
  {
    if path != [] && path[|path| - 1] == SEPARATOR {
      TrimTrailingSplits(path[..|path| - 1]);
    }
  }

  /** path = directory part + base + separators only, the directory part empty or ending in
      a separator. */
  predicate SplitsAt(path: string, base: string, i: nat, j: nat) {
    && i < j <= |path| && path[i..j] == base
    && (i == 0 || path[i - 1] == SEPARATOR)
    && (forall k :: j <= k < |path| ==> path[k] == SEPARATOR)
  }

  predicate AllSeparators(path: string) {
    forall k :: 0 <= k < |path| ==> path[k] == SEPARATOR
  }

  /** The basename of a path that is not all separators is its last element: a non-empty run without
      separators.  That of the empty path is a dot, and that of separators alone is one separator. */
  lemma BaseIsLastElement(path: string)
    ensures !AllSeparators(path) ==>
              SEPARATOR !in Base(path) && exists i: nat, j: nat :: SplitsAt(path, Base(path), i, j)
    ensures AllSeparators(path) ==> Base(path) == if path == "" then "." else "/"
  {
    TrimTrailingSplits(path);
    var trimmed := TrimTrailing(path);
    AfterLastSeparatorIsSuffix(trimmed);
    var base := AfterLastSeparator(trimmed);
    var j := |trimmed|;
    assert path[..j] == trimmed;
    if trimmed != [] {
      assert path[j - 1] == trimmed[j - 1];
      assert path[j - |base|..j] == trimmed[j - |base|..];
      assert SplitsAt(path, base, j - |base|, j);
    }
  }

  ghost predicate DistinctBases(files: seq<string>) {
    forall i, j :: 0 <= i < j < |files| ==> Base(files[i]) != Base(files[j])
  }

  datatype Collision = Collision(first: string, second: string, name: string)

  /** `second` is the first input whose remote name an earlier input, `first`, already has. */
  ghost predicate IsFirstCollision(files: seq<string>, c: Collision) {
    exists i, j ::
      0 <= i < j < |files|
      && files[i] == c.first && files[j] == c.second
      && Base(files[i]) == c.name && Base(files[j]) == c.name
      && DistinctBases(files[..j])
  }

  /** cmd/uploadfun/main.go:225-236.  Accepts a batch exactly when no two inputs share a
      remote name, and otherwise names the earliest pair that does. */
  method CheckBasenameCollisions(files: seq<string>) returns (collision: Option<Collision>)
    ensures collision.None? <==> DistinctBases(files)
    ensures collision.Some? ==> IsFirstCollision(files, collision.value)
  {
    var seen: map<string, string> := map[];
    ghost var owner: map<string, nat> := map[];
    var k := 0;
    while k < |files|
      invariant 0 <= k <= |files|
      invariant DistinctBases(files[..k])
      invariant seen.Keys == owner.Keys
      invariant forall name :: name in owner ==>
        owner[name] < k && files[owner[name]] == seen[name] && Base(files[owner[name]]) == name
      invariant forall i :: 0 <= i < k ==> Base(files[i]) in owner
    {
      var base := Base(files[k]);
      if base in seen {
        assert Base(files[owner[base]]) == Base(files[k]);
        return Some(Collision(seen[base], files[k], base));
      }
      ExtendDistinct(files, k);
      seen, owner, k := seen[base := files[k]], owner[base := k], k + 1;
    }
    assert files[..k] == files;
    collision := None;
  }

  lemma ExtendDistinct(files: seq<string>, k: nat)
    requires k < |files| && DistinctBases(files[..k])
    requires forall i :: 0 <= i < k ==> Base(files[i]) != Base(files[k])
    ensures DistinctBases(files[..k + 1])
  {
    var before, after := files[..k], files[..k + 1];
    forall i, j | 0 <= i < j < |after| ensures Base(after[i]) != Base(after[j]) {
      if j < k {
        assert Base(before[i]) != Base(before[j]);
      }
    }
  }
}
