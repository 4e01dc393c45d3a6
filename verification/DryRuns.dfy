/** What a dry run does to the remote store (dispatch.go:298-344). */
module DryRuns {
  import opened Types
  import opened Worker
  import opened Stores
  import opened Deletions
  import opened Jobs

  predicate IsAnswered(a: Action) { a.Connect? && a.failure.None? }
  predicate IsHangup(a: Action) { a.Disconnect? }

  predicate DryUp(pc: DryPc) {
    !pc.DryDialing? && !pc.DryOver? && !(pc.DryReporting? && !pc.connected)
  }

  function DryOutcome(pc: DryPc): Option<Option<Error>> {
    match pc
    case DryReporting(err, _) => Some(err)
    case DryClosing(err) => Some(err)
    case DryOver(err) => Some(err)
    case _ => None
  }

  /** The store can differ from the initial one at the probe's name only, and does not before the
      probe is uploaded.  `clean`: the probe has been deleted without an error. */
  ghost predicate DryHistory(p: Preflight, pc: DryPc, first: Store, now: Store, balance: int) {
    && SameExcept(first, now, p.remote)
    && (pc.DryDialing? || pc.DryLocal? || pc.DryUploadReady? ==> now == first)
    && balance == (if DryUp(pc) then 1 else 0)
  }

  lemma DryHistoryStep(p: Preflight, sizes: map<string, nat>, pc: DryPc, a: Action, q: DryPc,
                       first: Store, x: Store, y: Store, balance: int)
    requires DryStep(p, pc, a) == Some(q) && DryHistory(p, pc, first, x, balance) && StoreStep(sizes, x, a, y)
    ensures DryHistory(p, q, first, y,
      balance + (if IsAnswered(a) then 1 else 0) - if IsHangup(a) then 1 else 0)
    ensures a.Delete? || a.UploadBegin? ==> a.name == p.remote
    ensures a.Delete? ==> DryOutcome(pc).None? && DryOutcome(q) == Some(a.failure)
    ensures DryOutcome(q).None? ==> DryOutcome(pc).None?
    ensures DryOutcome(q) == Some(None) && !a.Delete? ==> DryOutcome(pc) == Some(None) && y == x
  {
  }

  /** A dry run touches no remote name but the probe's, and its connects and disconnects balance.  It
      deletes once, last, and is honest about it exactly if the probe is gone afterwards. */
  lemma {:induction false} DryHolds(p: Preflight, sizes: map<string, nat>, log: seq<Action>, pc: DryPc,
                                    stores: seq<Store>)
    requires JobRun(Dry(p), log) == Some(Dries(pc)) && Follows(sizes, log, stores)
    ensures DryHistory(p, pc, stores[0], stores[|log|], Count(IsAnswered, log) - Count(IsHangup, log))
    ensures forall k :: 0 <= k < |log| && (log[k].Delete? || log[k].UploadBegin?) ==> log[k].name == p.remote
    ensures DryOutcome(pc).None? ==> DeletesHonestly(log, stores)
    ensures DryOutcome(pc) == Some(None) ==> (DeletesHonestly(log, stores) <==> p.remote !in stores[|log|])
  {
    hide StoreStep, DryStep, DryHistory, DeletesHonestly, DryOutcome;
    if log == [] {
      NothingDecided();
      DryHistoryInit(p, stores);
    } else {
      var m := |log| - 1;
      var before, a := log[..m], log[m];
      var q := JobRun(Dry(p), before).value.pc;
      FollowsPrefix(sizes, log, stores);
      DryHolds(p, sizes, before, q, stores[..|log|]);
      HonestOne(log, stores);
      if a.Cancel? {
        CancelKeepsStore(sizes, stores[m], stores[|log|]);
      } else {
        DryHistoryStep(p, sizes, q, a, pc, stores[0], stores[m], stores[|log|],
                       Count(IsAnswered, before) - Count(IsHangup, before));
      }
    }
  }

  lemma NothingDecided()
    ensures DryOutcome(DryDialing).None?
  {
  }

  lemma HonestOne(log: seq<Action>, stores: seq<Store>)
    requires log != [] && |stores| == |log| + 1
    ensures DeletesHonestly(log, stores) <==>
            DeletesHonestly(log[..|log| - 1], stores[..|log|]) && Honest(log[|log| - 1], stores[|log|])
  {
    var m := |log| - 1;
    if DeletesHonestly(log, stores) {
      forall k | 0 <= k < m ensures Honest(log[..m][k], stores[..|log|][k + 1]) {
        assert Honest(log[k], stores[k + 1]);
      }
    }
    if DeletesHonestly(log[..m], stores[..|log|]) {
      forall k | 0 <= k < m ensures Honest(log[k], stores[k + 1]) {
        assert Honest(log[..m][k], stores[..|log|][k + 1]);
      }
    }
  }

  lemma DryHistoryInit(p: Preflight, stores: seq<Store>)
    requires |stores| == 1
    ensures DryHistory(p, DryDialing, stores[0], stores[0], 0) && DeletesHonestly([], stores)
  {
  }

  lemma CancelKeepsStore(sizes: map<string, nat>, x: Store, y: Store)
    requires StoreStep(sizes, x, Cancel, y)
    ensures x == y
  {
  }

  // ---------------------------------------------------------------- main results

  /** A dry run yields exactly one event, leaves no connection open, and changes no remote name but
      the probe's.  If it reports success it counts every file; and if moreover the probe's name was
      free, then the store is what it was exactly if Delete kept its contract. */
  lemma DryRunLeavesNoTrace(p: Preflight, sizes: map<string, nat>, log: seq<Action>, pc: DryPc, stores: seq<Store>)
    requires JobRun(Dry(p), log) == Some(Dries(pc)) && pc.DryOver? && Follows(sizes, log, stores)
    ensures Events(log) == [DryReport(p, pc.err)]
    ensures Count(IsAnswered, log) == Count(IsHangup, log)
    ensures SameExcept(stores[0], stores[|log|], p.remote)
    ensures pc.err.None? && p.remote !in stores[0] ==> (stores[|log|] == stores[0] <==> DeletesHonestly(log, stores))
  {
    hide JobRun, StoreStep, Events, DeletesHonestly;
    JobHolds(Dry(p), log, Dries(pc));
    DryHolds(p, sizes, log, pc, stores);
  }

  /** A dry run that reports success, with a probe whose name was free, leaves it on the server
      exactly if an FTP server answered 550 to the request to delete it while it was there. */
  lemma ProbeStaysExactly(p: Preflight, sizes: map<string, nat>, log: seq<Action>, stores: seq<Store>,
                          replies: seq<Reply>)
    requires JobRun(Dry(p), log) == Some(Dries(DryOver(None))) && Served(p.ep.protocol, sizes, log, stores, replies)
    requires p.remote !in stores[0]
    ensures p.remote in stores[|log|] <==> !p.ep.protocol.Sftp? && SomeDenied(log, stores, replies)
    ensures p.remote in stores[|log|] <==> stores[|log|] != stores[0]
  {
    hide JobRun, StoreStep, DeletesHonestly, SomeDenied, DeleteAnswer, PassesOn;
    DeleteIsHonestExactly(p.ep.protocol, sizes, log, stores, replies);
    DryRunLeavesNoTrace(p, sizes, log, DryOver(None), stores);
  }

  // ---------------------------------------------------------------- dry runs that fail

  /** The k-th action uploads the probe, and something of it is on the server afterwards. */
  predicate Plants(log: seq<Action>, stores: seq<Store>, name: string, k: nat)
    requires k < |log| && |stores| == |log| + 1
  {
    log[k].UploadBegin? && name in stores[k + 1]
  }

  /** The k-th action deletes the probe, and it is gone afterwards. */
  predicate Uproots(log: seq<Action>, stores: seq<Store>, name: string, k: nat)
    requires k < |log| && |stores| == |log| + 1
  {
    log[k].Delete? && name !in stores[k + 1]
  }

  ghost predicate Planted(log: seq<Action>, stores: seq<Store>, name: string)
    requires |stores| == |log| + 1
  {
    exists k :: 0 <= k < |log| && Plants(log, stores, name, k)
  }

  ghost predicate Uprooted(log: seq<Action>, stores: seq<Store>, name: string)
    requires |stores| == |log| + 1
  {
    exists k :: 0 <= k < |log| && Uproots(log, stores, name, k)
  }

  predicate FailsUpload(a: Action) { a.UploadEnd? && a.failure.Some? }

  /** Before the probe's upload and its deletion; in between; and afterwards. */
  predicate Unplanted(pc: DryPc) { pc.DryDialing? || pc.DryLocal? || pc.DryUploadReady? }
  predicate Undeleted(pc: DryPc) { Unplanted(pc) || pc.DryUploading? || pc.DryDeleting? }

  /** What there is to see of the probe: in the store, of its upload, of its deletion, of a failure. */
  datatype Probed = Probed(there: bool, planted: bool, uprooted: bool, failed: bool, deleted: bool)

  predicate ProbeInv(pc: DryPc, y: Probed) {
    && (y.there <==> y.planted && !y.uprooted)
    && (Unplanted(pc) ==> !y.planted)
    && (Undeleted(pc) ==> !y.uprooted && !y.failed && !y.deleted)
    && !(y.failed && y.deleted) && (y.uprooted ==> y.deleted)
  }

  lemma ProbeStep(p: Preflight, sizes: map<string, nat>, pc: DryPc, a: Action, q: DryPc, x: Store, y: Store,
                  seen: Probed)
    requires DryStep(p, pc, a) == Some(q) && StoreStep(sizes, x, a, y)
    requires ProbeInv(pc, seen) && seen.there == (p.remote in x)
    ensures ProbeInv(q, Probed(
      p.remote in y,
      seen.planted || (a.UploadBegin? && p.remote in y),
      seen.uprooted || (a.Delete? && p.remote !in y),
      seen.failed || FailsUpload(a),
      seen.deleted || a.Delete?))
  {
  }

  predicate SomeUploadFails(log: seq<Action>) {
    exists k :: 0 <= k < |log| && FailsUpload(log[k])
  }

  predicate SomeDeletes(log: seq<Action>) {
    exists k :: 0 <= k < |log| && log[k].Delete?
  }

  ghost function ProbedBy(log: seq<Action>, stores: seq<Store>, name: string): Probed
    requires |stores| == |log| + 1
  {
    Probed(name in stores[|log|], Planted(log, stores, name), Uprooted(log, stores, name), SomeUploadFails(log),
           SomeDeletes(log))
  }

  lemma ProbedOne(log: seq<Action>, stores: seq<Store>, name: string)
    requires log != [] && |stores| == |log| + 1
    ensures var a, y, seen := log[|log| - 1], stores[|log|], ProbedBy(log[..|log| - 1], stores[..|log|], name);
            ProbedBy(log, stores, name) == Probed(
              name in y,
              seen.planted || (a.UploadBegin? && name in y),
              seen.uprooted || (a.Delete? && name !in y),
              seen.failed || FailsUpload(a),
              seen.deleted || a.Delete?)
  {
    var m := |log| - 1;
    forall k | 0 <= k < m
      ensures Plants(log, stores, name, k) <==> Plants(log[..m], stores[..|log|], name, k)
      ensures Uproots(log, stores, name, k) <==> Uproots(log[..m], stores[..|log|], name, k)
      ensures log[k] == log[..m][k]
    {
    }
    assert Plants(log, stores, name, m) <==> log[m].UploadBegin? && name in stores[|log|];
    assert Uproots(log, stores, name, m) <==> log[m].Delete? && name !in stores[|log|];
  }

  lemma {:induction false} ProbeHolds(p: Preflight, sizes: map<string, nat>, log: seq<Action>, pc: DryPc,
                                      stores: seq<Store>)
    requires JobRun(Dry(p), log) == Some(Dries(pc)) && Follows(sizes, log, stores) && p.remote !in stores[0]
    ensures ProbeInv(pc, ProbedBy(log, stores, p.remote))
  {
    hide StoreStep, DryStep, ProbeInv, ProbedBy, FailsUpload;
    if log == [] {
      ProbeBegins(stores, p.remote);
    } else {
      var m := |log| - 1;
      var q := JobRun(Dry(p), log[..m]).value.pc;
      FollowsPrefix(sizes, log, stores);
      ProbeHolds(p, sizes, log[..m], q, stores[..|log|]);
      ProbedOne(log, stores, p.remote);
      var seen := ProbedBy(log[..m], stores[..|log|], p.remote);
      assert seen.there == (p.remote in stores[m]) by { ProbedSees(log[..m], stores[..|log|], p.remote); }
      if log[m].Cancel? {
        CancelKeepsStore(sizes, stores[m], stores[|log|]);
        ProbeUnmoved(pc, seen);
      } else {
        ProbeStep(p, sizes, q, log[m], pc, stores[m], stores[|log|], seen);
      }
    }
  }

  lemma ProbedSees(log: seq<Action>, stores: seq<Store>, name: string)
    requires |stores| == |log| + 1
    ensures ProbedBy(log, stores, name).there == (name in stores[|log|])
  {
  }

  lemma ProbeBegins(stores: seq<Store>, name: string)
    requires |stores| == 1 && name !in stores[0]
    ensures ProbeInv(DryDialing, ProbedBy([], stores, name))
  {
  }

  lemma ProbeUnmoved(pc: DryPc, seen: Probed)
    requires ProbeInv(pc, seen)
    ensures !FailsUpload(Cancel)
    ensures ProbeInv(pc, Probed(seen.there, seen.planted || false, seen.uprooted || false, seen.failed || false,
                                seen.deleted || false))
  {
  }

  /** Any dry run whose probe's name was free, successful or not, leaves something under it exactly if
      the upload left something and no delete took it away.  And a failed upload is never cleaned up:
      its remains stay, although the probe is meant to be there only until it is deleted. */
  lemma AnyDryRunLeavesItsProbeExactly(p: Preflight, sizes: map<string, nat>, log: seq<Action>, pc: DryPc,
                                       stores: seq<Store>)
    requires JobRun(Dry(p), log) == Some(Dries(pc)) && pc.DryOver? && Follows(sizes, log, stores)
    requires p.remote !in stores[0]
    ensures p.remote in stores[|log|] <==>
            Planted(log, stores, p.remote) && !Uprooted(log, stores, p.remote)
    ensures SomeUploadFails(log) ==>
            !SomeDeletes(log) && (p.remote in stores[|log|] <==> Planted(log, stores, p.remote))
  {
    hide JobRun, StoreStep;
    ProbeHolds(p, sizes, log, pc, stores);
  }

  // ---------------------------------------------------------------- it happens

  /** What a dry run has done, what has become of the store, and the server's replies to deletes. */
  datatype DryStory = DryStory(log: seq<Action>, pc: DryPc, stores: seq<Store>, replies: seq<Reply>)

  ghost predicate DryHappens(p: Preflight, sizes: map<string, nat>, x: Store, y: DryStory) {
    && JobRun(Dry(p), y.log) == Some(Dries(y.pc))
    && Served(p.ep.protocol, sizes, y.log, y.stores, y.replies) && y.stores[0] == x
  }

  function StoreNow(y: DryStory): Store {
    if y.stores == [] then map[] else y.stores[|y.stores| - 1]
  }

  lemma DryThen(p: Preflight, sizes: map<string, nat>, x: Store, y: DryStory, a: Action, reply: Reply, pc: DryPc,
                store: Store)
    returns (z: DryStory)
    requires DryHappens(p, sizes, x, y) && DryStep(p, y.pc, a) == Some(pc) && !a.Cancel?
    requires StoreStep(sizes, StoreNow(y), a, store)
    requires a.Delete? ==> PassesOn(p.ep.protocol, a, StoreNow(y), reply, store)
    ensures DryHappens(p, sizes, x, z) && z.pc == pc && StoreNow(z) == store
  {
    hide StoreStep, DryStep, PassesOn;
    JobRunOne(Dry(p), y.log, a);
    z := DryStory(y.log + [a], pc, y.stores + [store], y.replies + [reply]);
  }

  lemma DryBegins(p: Preflight, sizes: map<string, nat>, x: Store) returns (z: DryStory)
    ensures DryHappens(p, sizes, x, z) && z.pc.DryDialing? && StoreNow(z) == x
  {
    z := DryStory([], DryDialing, [x], []);
  }

  lemma DryProbes(p: Preflight, sizes: map<string, nat>, x: Store) returns (z: DryStory)
    ensures DryHappens(p, sizes, x, z) && z.pc.DryDeleting? && StoreNow(z) == x[p.remote := 0]
  {
    hide DryHappens;
    z := DryBegins(p, sizes, x);
    z := DryThen(p, sizes, x, z, Connect(None), Reply.Done, DryLocal, x);
    z := DryThen(p, sizes, x, z, ProbeFile(None), Reply.Done, DryUploadReady, x);
    z := DryThen(p, sizes, x, z, UploadBegin(p.local, p.remote), Reply.Done, DryUploading, x[p.remote := 0]);
    z := DryThen(p, sizes, x, z, UploadEnd(None), Reply.Done, DryDeleting, x[p.remote := 0]);
  }

  /** From a probe on an FTP server that denies access to a successful report. */
  lemma DryReportsSuccess(p: Preflight, sizes: map<string, nat>, x: Store, y: DryStory) returns (z: DryStory)
    requires !p.ep.protocol.Sftp? && DryHappens(p, sizes, x, y) && y.pc.DryDeleting?
    ensures DryHappens(p, sizes, x, z) && z.pc == DryOver(None) && StoreNow(z) == StoreNow(y)
  {
    hide DryHappens;
    var store, denied := StoreNow(y), Code(FILE_UNAVAILABLE, Error("no access", false));
    z := DryThen(p, sizes, x, y, Delete(p.remote, None), denied, DryReporting(None, true), store);
    z := DryThen(p, sizes, x, z, Send(DryReport(p, None)), Reply.Done, DryClosing(None), store);
    z := DryThen(p, sizes, x, z, Disconnect, Reply.Done, DryOver(None), store);
  }

  /** A dry run from store `x` can report success and leave its probe behind. */
  ghost predicate ProbeCanStay(p: Preflight, sizes: map<string, nat>, x: Store) {
    exists y :: DryHappens(p, sizes, x, y) && y.pc == DryOver(None) && p.remote in StoreNow(y)
  }

  /** That can happen, from any store without the probe, exactly through FTP and FTPS. */
  lemma ProbeCanStayExactlyThroughFtp(p: Preflight, sizes: map<string, nat>, x: Store)
    requires p.remote !in x
    ensures ProbeCanStay(p, sizes, x) <==> !p.ep.protocol.Sftp?
  {
    if !p.ep.protocol.Sftp? {
      var y := DryProbes(p, sizes, x);
      y := DryReportsSuccess(p, sizes, x, y);
    } else if ProbeCanStay(p, sizes, x) {
      var y :| DryHappens(p, sizes, x, y) && y.pc == DryOver(None) && p.remote in StoreNow(y);
      ProbeStaysExactly(p, sizes, y.log, y.stores, y.replies);
    }
  }
}
