/** The handover from the connect deadline to the stall deadline: internal/transport/conn.go:43-94,
    ftp.go:57-123 and sftp.go:43-70.  The dialling code, every read and write in flight and the
    clock take their steps in any order. */
module Deadlines {
  import opened Types

  /** The statements run once login has succeeded: clearDeadline(ctrlConn), d.ctx =
      context.Background() and guard.markEstablished(). */
  datatype Stmt = Clear | Detach | Mark

  const FTP_PROGRAM: seq<Stmt> := [Clear, Detach, Mark]
  const SFTP_PROGRAM: seq<Stmt> := [Clear, Mark]

  /** `redials`: the library dials data connections too (FTP).  `exclusive`: it never has two
      reads, or two writes, of one connection in flight at once.  `background`: it reads and writes
      on goroutines of its own, as an SSH client does; otherwise, as with FTP, only within a call
      made on it, and it has nothing in flight when such a call returns. */
  datatype Setup = Setup(
    connectTimeout: int,
    stallTimeout: int,
    program: seq<Stmt>,
    redials: bool,
    exclusive: bool,
    background: bool)

  datatype Direction = Reading | Writing

  /** Who set a deadline: armConnectDeadline, or the `arm` of a read or write. */
  datatype Setter = Connecting | Stall(op: nat)

  datatype Deadline = Deadline(at: int, setter: Setter)

  datatype Context = ConnectContext | BackgroundContext

  /** A connection, its deadline for each direction, and when and under which context it was dialled. */
  datatype Conn = Conn(read: Option<Deadline>, write: Option<Deadline>, dialled: int, ctx: Context)

  /** A call of guardedConn.Read or Write: `arm` loads the flag, may read the clock and set the
      deadline, and then the wrapped connection's own Read or Write blocks. */
  datatype Phase = Begun | Guarded | Timed | Running | Over

  /** `late`: the call began after establishment.  `reading`: the clock as `arm` read it. */
  datatype Op = Op(conn: nat, dir: Direction, start: int, late: bool, phase: Phase, reading: Option<int>)

  datatype State = State(
    now: int,
    loggedIn: bool,
    done: seq<Stmt>,
    todo: seq<Stmt>,
    established: bool,
    markedAt: int,
    ctx: Context,
    conns: seq<Conn>,
    ops: seq<Op>,
    wiped: bool)

  datatype Action =
    | Tick(elapsed: nat)
    | Dial
    | Login
    | Next
    | Begin(conn: nat, dir: Direction)
    | Load(op: nat)
    | ReadClock(op: nat)
    | Arm(op: nat)
    | End(op: nat)

  function Initial(setup: Setup): State {
    State(0, false, [], setup.program, false, 0, ConnectContext, [], [], false)
  }

  function DeadlineOf(conn: Conn, dir: Direction): Option<Deadline> {
    if dir == Reading then conn.read else conn.write
  }

  function SetDeadline(conn: Conn, dir: Direction, d: Option<Deadline>): Conn {
    if dir == Reading then conn.(read := d) else conn.(write := d)
  }

  predicate IsStall(d: Option<Deadline>) {
    d.Some? && d.value.setter.Stall?
  }

  /** The library's own code, which dials, runs until login returns and again once the client is
      handed over. */
  predicate LibraryRuns(s: State) {
    !s.loggedIn || s.todo == []
  }

  predicate InFlight(op: Op) {
    op.phase != Over
  }

  predicate Free(s: State, conn: nat, dir: Direction) {
    forall i :: 0 <= i < |s.ops| && s.ops[i].conn == conn && s.ops[i].dir == dir ==> !InFlight(s.ops[i])
  }

  predicate Idle(s: State) {
    forall i :: 0 <= i < |s.ops| ==> !InFlight(s.ops[i])
  }

  /** ftpDialer.dial, and the one dial of DialSFTP.  Only the first connection gets the connect deadline. */
  function Dialled(setup: Setup, s: State): Conn {
    var d := if s.conns == [] && setup.connectTimeout > 0
             then Some(Deadline(s.now + setup.connectTimeout, Connecting)) else None;
    Conn(d, d, s.now, s.ctx)
  }

  function Execute(s: State, stmt: Stmt): State {
    match stmt
    case Clear =>
      if s.conns == [] then s
      else
        var control := s.conns[0];
        s.(conns := s.conns[0 := control.(read := None, write := None)],
           wiped := s.wiped || IsStall(control.read) || IsStall(control.write))
    case Detach => s.(ctx := BackgroundContext)
    case Mark => if s.established then s else s.(established := true, markedAt := s.now)
  }

  function Step(setup: Setup, s: State, a: Action): Option<State> {
    match a
    case Tick(elapsed) => Some(s.(now := s.now + elapsed))
    case Dial =>
      if LibraryRuns(s) && (s.conns == [] || setup.redials)
      then Some(s.(conns := s.conns + [Dialled(setup, s)])) else None
    case Login =>
      if !s.loggedIn && s.conns != [] && (!setup.background ==> Idle(s)) then Some(s.(loggedIn := true)) else None
    case Next =>
      if s.loggedIn && s.todo != []
      then Some(Execute(s, s.todo[0]).(done := s.done + [s.todo[0]], todo := s.todo[1..])) else None
    case Begin(c, dir) =>
      if c < |s.conns| && (setup.exclusive ==> Free(s, c, dir)) && (!setup.background ==> LibraryRuns(s))
      then Some(s.(ops := s.ops + [Op(c, dir, s.now, s.established, Begun, None)])) else None
    case Load(i) =>
      if i < |s.ops| && s.ops[i].phase == Begun
      then
        var phase := if s.established && setup.stallTimeout > 0 then Guarded else Running;
        Some(s.(ops := s.ops[i := s.ops[i].(phase := phase)]))
      else None
    case ReadClock(i) =>
      if i < |s.ops| && s.ops[i].phase == Guarded
      then Some(s.(ops := s.ops[i := s.ops[i].(phase := Timed, reading := Some(s.now))])) else None
    case Arm(i) =>
      if i < |s.ops| && s.ops[i].phase == Timed && s.ops[i].conn < |s.conns| && s.ops[i].reading.Some?
      then
        var op := s.ops[i];
        var d := Some(Deadline(op.reading.value + setup.stallTimeout, Stall(i)));
        Some(s.(ops := s.ops[i := op.(phase := Running)],
                conns := s.conns[op.conn := SetDeadline(s.conns[op.conn], op.dir, d)]))
      else None
    case End(i) =>
      if i < |s.ops| && s.ops[i].phase == Running
      then Some(s.(ops := s.ops[i := s.ops[i].(phase := Over)])) else None
  }

  /** The state after a run, if every step of it can be taken.  A dial that fails is a run that stops. */
  function Run(setup: Setup, log: seq<Action>): Option<State> {
    if log == [] then Some(Initial(setup))
    else
      var before := Run(setup, log[..|log| - 1]);
      if before.None? then None else Step(setup, before.value, log[|log| - 1])
  }

  // ---------------------------------------------------------------- what every run keeps

  /** No deadline is cleared once the guard is established, and it is not established before one is. */
  predicate ClearsFirst(program: seq<Stmt>) {
    NoClearAfterMark(program) && forall j :: 0 <= j < |program| && program[j] == Mark ==> Clear in program[..j]
  }

  predicate NoClearAfterMark(program: seq<Stmt>) {
    forall i, j :: 0 <= i < j < |program| && program[i] == Mark ==> program[j] != Clear
  }

  predicate ProgramInv(setup: Setup, s: State) {
    && setup.program == s.done + s.todo
    && (s.established <==> Mark in s.done)
    && (s.established ==> s.markedAt <= s.now)
    && (!s.loggedIn ==> s.done == [])
    && (s.loggedIn ==> s.conns != [])
    && (s.ctx == BackgroundContext <==> Detach in s.done)
  }

  predicate OpInv(setup: Setup, s: State, op: Op) {
    && op.conn < |s.conns|
    && op.start <= s.now
    && (op.late ==> s.established && s.markedAt <= op.start)
    && (op.phase == Guarded || op.reading.Some? ==> s.established && setup.stallTimeout > 0)
    && (op.phase == Timed ==> op.reading.Some?)
    && (op.phase == Begun || op.phase == Guarded ==> op.reading.None?)
    && (op.reading.Some? ==> op.start <= op.reading.value <= s.now && s.markedAt <= op.reading.value)
    && (op.late && setup.stallTimeout > 0 && (op.phase == Running || op.phase == Over) ==> op.reading.Some?)
  }

  predicate Armed(op: Op) {
    op.reading.Some? && (op.phase == Running || op.phase == Over)
  }

  /** A deadline was set by a call that armed it, in that direction of that connection, or it is
      the control connection's connect deadline and nothing has been cleared. */
  predicate DeadlineInv(setup: Setup, s: State, c: nat, dir: Direction)
    requires c < |s.conns|
  {
    match DeadlineOf(s.conns[c], dir)
    case None => c == 0 && setup.connectTimeout > 0 ==> Clear in s.done
    case Some(Deadline(at, Connecting)) =>
      c == 0 && setup.connectTimeout > 0 && Clear !in s.done && at == s.conns[0].dialled + setup.connectTimeout
    case Some(Deadline(at, Stall(i))) =>
      && i < |s.ops| && s.ops[i].conn == c && s.ops[i].dir == dir && Armed(s.ops[i])
      && at == s.ops[i].reading.value + setup.stallTimeout
  }

  predicate CallsInv(setup: Setup, s: State) {
    forall i :: 0 <= i < |s.ops| ==> OpInv(setup, s, s.ops[i])
  }

  predicate DeadlinesInv(setup: Setup, s: State) {
    forall c: nat, dir :: c < |s.conns| ==> DeadlineInv(setup, s, c, dir)
  }

  /** Whatever has armed is still armed, by this call or a later one. */
  predicate ArmedInv(s: State, op: Op) {
    Armed(op) && op.conn < |s.conns| ==> IsStall(DeadlineOf(s.conns[op.conn], op.dir))
  }

  predicate StaysArmed(s: State) {
    forall i :: 0 <= i < |s.ops| ==> ArmedInv(s, s.ops[i])
  }

  predicate NotBoth(a: Op, b: Op) {
    a.conn == b.conn && a.dir == b.dir ==> !InFlight(a) || !InFlight(b)
  }

  /** With an exclusive library no two calls of one direction are in flight, so a running call that
      armed runs under its own deadline. */
  predicate ExclusiveInv(s: State) {
    && (forall i, j :: 0 <= i < j < |s.ops| ==> NotBoth(s.ops[i], s.ops[j]))
    && (forall i :: 0 <= i < |s.ops| && s.ops[i].phase == Running && s.ops[i].reading.Some? ==> OwnDeadline(s, i))
  }

  predicate OwnDeadline(s: State, i: nat)
    requires i < |s.ops|
  {
    var op := s.ops[i];
    op.conn < |s.conns| && IsStall(DeadlineOf(s.conns[op.conn], op.dir))
    && DeadlineOf(s.conns[op.conn], op.dir).value.setter.op == i
  }

  predicate Inv(setup: Setup, s: State) {
    && ProgramInv(setup, s) && CallsInv(setup, s) && DeadlinesInv(setup, s) && StaysArmed(s) && !s.wiped
    && (setup.exclusive ==> ExclusiveInv(s))
  }

  lemma ProgramStep(setup: Setup, s: State, a: Action, t: State)
    requires ProgramInv(setup, s) && Step(setup, s, a) == Some(t)
    ensures ProgramInv(setup, t)
  {
    hide ProgramInv, Dialled, DeadlineOf, SetDeadline;
    if a.Next? {
      ProgramNext(setup, s, t);
    } else {
      ProgramElsewhere(setup, s, t);
    }
  }

  lemma ProgramElsewhere(setup: Setup, s: State, t: State)
    requires ProgramInv(setup, s)
    requires t.done == s.done && t.todo == s.todo && t.established == s.established && t.markedAt == s.markedAt
    requires s.now <= t.now && t.ctx == s.ctx && (s.loggedIn ==> t.loggedIn)
    requires (t.conns == [] ==> s.conns == []) && (t.loggedIn ==> s.loggedIn || t.conns != [])
    ensures ProgramInv(setup, t)
  {
  }

  lemma ProgramNext(setup: Setup, s: State, t: State)
    requires ProgramInv(setup, s) && Step(setup, s, Next) == Some(t)
    ensures ProgramInv(setup, t)
  {
    assert s.todo == [s.todo[0]] + s.todo[1..];
  }

  lemma CallsStep(setup: Setup, s: State, a: Action, t: State)
    requires ProgramInv(setup, s) && CallsInv(setup, s) && Step(setup, s, a) == Some(t)
    ensures CallsInv(setup, t)
  {
    forall i | 0 <= i < |t.ops| ensures OpInv(setup, t, t.ops[i]) {
      if i < |s.ops| {
        assert OpInv(setup, s, s.ops[i]);
      }
    }
  }

  /** Under the right order a clear comes before establishment, when nothing has armed. */
  lemma ClearFindsNoStall(setup: Setup, s: State)
    requires NoClearAfterMark(setup.program) && ProgramInv(setup, s) && CallsInv(setup, s) && DeadlinesInv(setup, s)
    requires s.todo != [] && s.todo[0] == Clear && s.conns != []
    ensures !s.established
    ensures forall i :: 0 <= i < |s.ops| ==> s.ops[i].reading.None?
    ensures !IsStall(s.conns[0].read) && !IsStall(s.conns[0].write)
  {
    assert setup.program[|s.done|] == Clear;
    forall i | 0 <= i < |s.done| ensures s.done[i] != Mark {
      assert setup.program[i] == s.done[i];
    }
    forall i | 0 <= i < |s.ops| ensures s.ops[i].reading.None? {
      assert OpInv(setup, s, s.ops[i]);
    }
    assert DeadlineInv(setup, s, 0, Reading) && DeadlineInv(setup, s, 0, Writing);
  }

  lemma DeadlinesStep(setup: Setup, s: State, a: Action, t: State)
    requires NoClearAfterMark(setup.program)
    requires ProgramInv(setup, s) && CallsInv(setup, s) && DeadlinesInv(setup, s) && !s.wiped
    requires Step(setup, s, a) == Some(t)
    ensures DeadlinesInv(setup, t) && !t.wiped
  {
    hide DeadlinesInv, CallsInv, ProgramInv, NoClearAfterMark;
    if a.Next? {
      DeadlinesNext(setup, s, t);
    } else if a.Arm? {
      DeadlinesArm(setup, s, a.op, t);
    } else if a.Dial? {
      DeadlinesDial(setup, s, t);
    } else {
      DeadlinesElsewhere(setup, s, t);
    }
  }

  lemma DeadlinesArm(setup: Setup, s: State, i: nat, t: State)
    requires DeadlinesInv(setup, s) && Step(setup, s, Arm(i)) == Some(t) && !s.wiped
    ensures DeadlinesInv(setup, t) && !t.wiped
  {
    forall c: nat, dir | c < |t.conns| ensures DeadlineInv(setup, t, c, dir) {
      assert DeadlineInv(setup, s, c, dir);
    }
  }

  lemma DeadlinesDial(setup: Setup, s: State, t: State)
    requires ProgramInv(setup, s) && DeadlinesInv(setup, s) && Step(setup, s, Dial) == Some(t) && !s.wiped
    ensures DeadlinesInv(setup, t) && !t.wiped
  {
    forall c: nat, dir | c < |t.conns| ensures DeadlineInv(setup, t, c, dir) {
      if c < |s.conns| {
        assert DeadlineInv(setup, s, c, dir);
      }
    }
  }

  /** A step that leaves the connections and the armed calls alone. */
  lemma DeadlinesElsewhere(setup: Setup, s: State, t: State)
    requires DeadlinesInv(setup, s) && t.conns == s.conns && t.done == s.done && |s.ops| <= |t.ops|
    requires forall i :: 0 <= i < |s.ops| ==> StillArmed(s.ops[i], t.ops[i])
    ensures DeadlinesInv(setup, t)
  {
    forall c: nat, dir | c < |t.conns| ensures DeadlineInv(setup, t, c, dir) {
      assert DeadlineInv(setup, s, c, dir);
    }
  }

  predicate StillArmed(a: Op, b: Op) {
    b.conn == a.conn && b.dir == a.dir && (Armed(a) ==> Armed(b) && b.reading == a.reading)
  }

  lemma DeadlinesNext(setup: Setup, s: State, t: State)
    requires NoClearAfterMark(setup.program)
    requires ProgramInv(setup, s) && CallsInv(setup, s) && DeadlinesInv(setup, s) && !s.wiped
    requires Step(setup, s, Next) == Some(t)
    ensures DeadlinesInv(setup, t) && !t.wiped
  {
    if s.todo[0] == Clear {
      ClearFindsNoStall(setup, s);
    }
    forall c: nat, dir | c < |t.conns| ensures DeadlineInv(setup, t, c, dir) {
      assert DeadlineInv(setup, s, c, dir);
    }
  }

  lemma ArmedStep(setup: Setup, s: State, a: Action, t: State)
    requires NoClearAfterMark(setup.program)
    requires ProgramInv(setup, s) && CallsInv(setup, s) && DeadlinesInv(setup, s) && StaysArmed(s)
    requires Step(setup, s, a) == Some(t)
    ensures StaysArmed(t)
  {
    if a.Next? && s.todo[0] == Clear {
      ClearFindsNoStall(setup, s);
    }
    forall i | 0 <= i < |t.ops| ensures ArmedInv(t, t.ops[i]) {
      if i < |s.ops| {
        assert OpInv(setup, s, s.ops[i]) && ArmedInv(s, s.ops[i]);
      }
    }
  }

  lemma ExclusiveStep(setup: Setup, s: State, a: Action, t: State)
    requires NoClearAfterMark(setup.program) && setup.exclusive
    requires ProgramInv(setup, s) && CallsInv(setup, s) && DeadlinesInv(setup, s) && ExclusiveInv(s)
    requires Step(setup, s, a) == Some(t)
    ensures ExclusiveInv(t)
  {
    if a.Next? && s.todo[0] == Clear {
      ClearFindsNoStall(setup, s);
    }
    OwnDeadlinesStep(setup, s, a, t);
    hide OwnDeadline;
    if a.Begin? {
      var op := t.ops[|s.ops|];
      forall i | 0 <= i < |s.ops| ensures NotBoth(t.ops[i], op) {
        assert t.ops[i] == s.ops[i];
      }
      forall i, j | 0 <= i < j < |t.ops| ensures NotBoth(t.ops[i], t.ops[j]) {
        assert j < |s.ops| ==> NotBoth(s.ops[i], s.ops[j]);
      }
    } else {
      forall i, j | 0 <= i < j < |t.ops| ensures NotBoth(t.ops[i], t.ops[j]) {
        assert NotBoth(s.ops[i], s.ops[j]);
      }
    }
  }

  lemma OwnDeadlinesStep(setup: Setup, s: State, a: Action, t: State)
    requires setup.exclusive && CallsInv(setup, s) && ExclusiveInv(s) && Step(setup, s, a) == Some(t)
    requires a.Next? && s.todo[0] == Clear ==> forall i :: 0 <= i < |s.ops| ==> s.ops[i].reading.None?
    ensures forall i :: 0 <= i < |t.ops| && t.ops[i].phase == Running && t.ops[i].reading.Some? ==> OwnDeadline(t, i)
  {
    forall i | 0 <= i < |t.ops| && t.ops[i].phase == Running && t.ops[i].reading.Some? ensures OwnDeadline(t, i) {
      assert OpInv(setup, s, s.ops[i]);
      if s.ops[i].phase == Running {
        assert OwnDeadline(s, i);
      }
    }
  }

  lemma {:induction false} InvHolds(setup: Setup, log: seq<Action>, s: State)
    requires NoClearAfterMark(setup.program) && Run(setup, log) == Some(s)
    ensures Inv(setup, s)
  {
    if log != [] {
      var m := |log| - 1;
      var before := Run(setup, log[..m]).value;
      InvHolds(setup, log[..m], before);
      hide Run;
      ProgramStep(setup, before, log[m], s);
      CallsStep(setup, before, log[m], s);
      DeadlinesStep(setup, before, log[m], s);
      ArmedStep(setup, before, log[m], s);
      if setup.exclusive {
        ExclusiveStep(setup, before, log[m], s);
      }
    }
  }

  // ---------------------------------------------------------------- main results

  /** The control connection carries the connect deadline, dial plus timeout, in both directions
      until clearDeadline runs and no longer; no other connection ever carries one, and once the
      guard is established nobody does. */
  lemma ConnectDeadlineCoversTheLogin(setup: Setup, log: seq<Action>, s: State, c: nat, dir: Direction)
    requires ClearsFirst(setup.program) && Run(setup, log) == Some(s) && c < |s.conns|
    ensures var d := DeadlineOf(s.conns[c], dir);
            && (d == Some(Deadline(s.conns[c].dialled + setup.connectTimeout, Connecting)) <==>
                c == 0 && setup.connectTimeout > 0 && Clear !in s.done)
            && (d.Some? && d.value.setter == Connecting ==> Clear !in s.done)
            && (s.established ==> Clear in s.done)
  {
    InvHolds(setup, log, s);
    if s.established {
      MarkedMeansCleared(setup, s);
    }
    assert DeadlineInv(setup, s, c, dir);
    var d := DeadlineOf(s.conns[c], dir);
    if IsStall(d) {
      assert OpInv(setup, s, s.ops[d.value.setter.op]);
    }
  }

  lemma MarkedMeansCleared(setup: Setup, s: State)
    requires ClearsFirst(setup.program) && ProgramInv(setup, s) && s.established
    ensures Clear in s.done
  {
    var j :| 0 <= j < |s.done| && s.done[j] == Mark;
    assert setup.program[j] == Mark;
    assert setup.program[..j] == s.done[..j];
  }

  /** A read or write that began after establishment and blocks in the connection does so without
      any deadline when the stall timeout is 0.  Otherwise it runs under a deadline of exactly the
      stall timeout after a clock reading that some call of the same direction took since
      establishment: its own, taken since it began, if the library does not overlap such calls. */
  lemma TransferRunsUnderTheStallTimeout(setup: Setup, log: seq<Action>, s: State, i: nat)
    requires ClearsFirst(setup.program) && Run(setup, log) == Some(s)
    requires i < |s.ops| && s.ops[i].late && s.ops[i].phase == Running
    ensures s.ops[i].conn < |s.conns| && s.ops[i].start <= s.now && s.markedAt <= s.ops[i].start
    ensures var op, d := s.ops[i], DeadlineOf(s.conns[s.ops[i].conn], s.ops[i].dir);
            if setup.stallTimeout <= 0 then d == None
            else StalledAfter(setup, s, op, d) && (setup.exclusive ==> OwnStall(setup, s, i, d))
  {
    InvHolds(setup, log, s);
    var op := s.ops[i];
    assert OpInv(setup, s, op) && ArmedInv(s, op);
    MarkedMeansCleared(setup, s);
    assert DeadlineInv(setup, s, op.conn, op.dir);
    var d := DeadlineOf(s.conns[op.conn], op.dir);
    if IsStall(d) {
      assert OpInv(setup, s, s.ops[d.value.setter.op]);
    }
    if setup.exclusive && setup.stallTimeout > 0 {
      assert OwnDeadline(s, i);
    }
  }

  predicate StalledAfter(setup: Setup, s: State, op: Op, d: Option<Deadline>) {
    && IsStall(d) && d.value.setter.op < |s.ops|
    && var armer := s.ops[d.value.setter.op];
       && armer.conn == op.conn && armer.dir == op.dir && armer.reading.Some?
       && s.markedAt <= armer.reading.value <= s.now && d.value.at == armer.reading.value + setup.stallTimeout
  }

  predicate OwnStall(setup: Setup, s: State, i: nat, d: Option<Deadline>)
    requires i < |s.ops|
  {
    d.Some? && s.ops[i].start <= d.value.at - setup.stallTimeout <= s.now
    && s.ops[i].reading == Some(d.value.at - setup.stallTimeout)
  }

  /** No call of this direction of this connection has armed. */
  predicate NothingArmed(s: State, c: nat, dir: Direction) {
    forall i :: 0 <= i < |s.ops| && s.ops[i].conn == c && s.ops[i].dir == dir ==> !Armed(s.ops[i])
  }

  lemma UnguardedUntilArmed(setup: Setup, s: State, c: nat, dir: Direction)
    requires c < |s.conns| && DeadlineInv(setup, s, c, dir) && StaysArmed(s) && Clear in s.done
    ensures DeadlineOf(s.conns[c], dir).None? <==> NothingArmed(s, c, dir)
  {
    forall i | 0 <= i < |s.ops| ensures ArmedInv(s, s.ops[i]) {
    }
  }

  /** After the handover a direction of a connection is without a deadline exactly as long as no call
      of that direction has armed. */
  lemma UnguardedExactlyUntilArmed(setup: Setup, log: seq<Action>, s: State, c: nat, dir: Direction)
    requires ClearsFirst(setup.program) && Run(setup, log) == Some(s) && s.established && c < |s.conns|
    ensures DeadlineOf(s.conns[c], dir).None? <==> NothingArmed(s, c, dir)
  {
    hide DeadlineInv, StaysArmed, NothingArmed, ProgramInv, CallsInv, ExclusiveInv, Run;
    InvHolds(setup, log, s);
    MarkedMeansCleared(setup, s);
    assert DeadlineInv(setup, s, c, dir);
    UnguardedUntilArmed(setup, s, c, dir);
  }

  /** So with a stall timeout a call goes on without a deadline only if it loaded the flag before
      establishment, and then exactly until another call of its direction arms. */
  lemma BareOnlyIfLoadedBefore(setup: Setup, log: seq<Action>, s: State, i: nat)
    requires ClearsFirst(setup.program) && Run(setup, log) == Some(s) && setup.stallTimeout > 0
    requires s.established && i < |s.ops| && s.ops[i].phase == Running && s.ops[i].conn < |s.conns|
    ensures var op := s.ops[i];
            && (DeadlineOf(s.conns[op.conn], op.dir).None? ==> !op.late && op.reading.None?)
            && (DeadlineOf(s.conns[op.conn], op.dir).None? <==> NothingArmed(s, op.conn, op.dir))
  {
    UnguardedExactlyUntilArmed(setup, log, s, s.ops[i].conn, s.ops[i].dir);
    InvHolds(setup, log, s);
    assert OpInv(setup, s, s.ops[i]) && ArmedInv(s, s.ops[i]);
  }

  lemma RunOne(setup: Setup, log: seq<Action>, s: State, a: Action, t: State)
    requires Run(setup, log) == Some(s) && Step(setup, s, a) == Some(t)
    ensures Run(setup, log + [a]) == Some(t)
  {
    assert (log + [a])[..|log|] == log;
  }

  /** After the dial, the login and `k` statements, with nothing else going on. */
  predicate HandedOver(setup: Setup, s: State, k: nat) {
    && k <= |setup.program| && s.done == setup.program[..k] && s.todo == setup.program[k..]
    && s.loggedIn && |s.conns| == 1 && (s.established <==> Mark in s.done)
  }

  lemma FirstDial(setup: Setup) returns (s: State)
    ensures Run(setup, [Dial]) == Some(s)
    ensures s == Initial(setup).(conns := [Dialled(setup, Initial(setup))])
  {
    s := Step(setup, Initial(setup), Dial).value;
    RunOne(setup, [], Initial(setup), Dial, s);
    assert [] + [Dial] == [Dial];
  }

  lemma {:induction false} HandoverRuns(setup: Setup, k: nat) returns (log: seq<Action>, s: State)
    requires k <= |setup.program|
    ensures Run(setup, log) == Some(s) && HandedOver(setup, s, k) && s.ops == []
  {
    if k == 0 {
      var s1 := FirstDial(setup);
      s := s1.(loggedIn := true);
      RunOne(setup, [Dial], s1, Login, s);
      log := [Dial] + [Login];
    } else {
      var log', s' := HandoverRuns(setup, k - 1);
      s := Step(setup, s', Next).value;
      RunOne(setup, log', s', Next, s);
      log := log' + [Next];
      assert setup.program[..k] == setup.program[..k - 1] + [setup.program[k - 1]];
    }
  }

  ghost predicate CanWipe(setup: Setup) {
    exists log :: Wipes(setup, log)
  }

  predicate Wipes(setup: Setup, log: seq<Action>) {
    Run(setup, log).Some? && Run(setup, log).value.wiped
  }

  /** A call that begins once the guard is established arms. */
  lemma CallArms(setup: Setup, log: seq<Action>, s: State, k: nat) returns (log': seq<Action>, t: State)
    requires Run(setup, log) == Some(s) && HandedOver(setup, s, k) && s.ops == []
    requires setup.background && setup.stallTimeout > 0 && s.established
    ensures Run(setup, log') == Some(t) && HandedOver(setup, t, k) && IsStall(t.conns[0].read)
  {
    hide Run;
    var s1 := Step(setup, s, Begin(0, Reading)).value;
    RunOne(setup, log, s, Begin(0, Reading), s1);
    var s2 := Step(setup, s1, Load(0)).value;
    RunOne(setup, log + [Begin(0, Reading)], s1, Load(0), s2);
    var s3 := Step(setup, s2, ReadClock(0)).value;
    RunOne(setup, log + [Begin(0, Reading)] + [Load(0)], s2, ReadClock(0), s3);
    t := Step(setup, s3, Arm(0)).value;
    RunOne(setup, log + [Begin(0, Reading)] + [Load(0)] + [ReadClock(0)], s3, Arm(0), t);
    log' := log + [Begin(0, Reading)] + [Load(0)] + [ReadClock(0)] + [Arm(0)];
  }

  lemma WrongOrderWipes(setup: Setup)
    requires setup.background && setup.stallTimeout > 0 && !NoClearAfterMark(setup.program)
    ensures CanWipe(setup)
  {
    var i, j :| 0 <= i < j < |setup.program| && setup.program[i] == Mark && setup.program[j] == Clear;
    var log, s := HandoverRuns(setup, j);
    assert s.done[i] == Mark;
    var log', t := CallArms(setup, log, s, j);
    hide Run;
    var u := Step(setup, t, Next).value;
    RunOne(setup, log', t, Next, u);
    assert Wipes(setup, log' + [Next]);
  }

  predicate NothingArms(s: State) {
    && !s.wiped
    && (forall i :: 0 <= i < |s.ops| ==> s.ops[i].phase != Guarded && s.ops[i].phase != Timed)
    && (forall c :: 0 <= c < |s.conns| ==> !IsStall(s.conns[c].read) && !IsStall(s.conns[c].write))
  }

  lemma {:induction false} WithoutTimeoutNothingArms(setup: Setup, log: seq<Action>, s: State)
    requires setup.stallTimeout <= 0 && Run(setup, log) == Some(s)
    ensures NothingArms(s)
  {
    if log != [] {
      var before := Run(setup, log[..|log| - 1]).value;
      WithoutTimeoutNothingArms(setup, log[..|log| - 1], before);
      NothingArmsStep(setup, before, log[|log| - 1], s);
    }
  }

  lemma NothingArmsStep(setup: Setup, s: State, a: Action, t: State)
    requires setup.stallTimeout <= 0 && NothingArms(s) && Step(setup, s, a) == Some(t)
    ensures NothingArms(t)
  {
  }

  predicate NoStalls(s: State) {
    forall c :: 0 <= c < |s.conns| ==> !IsStall(s.conns[c].read) && !IsStall(s.conns[c].write)
  }

  /** Without goroutines of its own a library has no call in flight during the handover. */
  predicate QuietHandover(s: State) {
    && !s.wiped
    && (s.todo != [] || !s.loggedIn ==> NoStalls(s))
    && (s.loggedIn && s.todo != [] ==> Idle(s))
  }

  lemma QuietStep(setup: Setup, s: State, a: Action, t: State)
    requires !setup.background && ProgramInv(setup, s) && CallsInv(setup, s) && QuietHandover(s)
    requires Step(setup, s, a) == Some(t)
    ensures QuietHandover(t)
  {
    hide ProgramInv;
    if a.Arm? {
      assert OpInv(setup, s, s.ops[a.op]);
      BeforeLogin(setup, s);
    }
  }

  lemma BeforeLogin(setup: Setup, s: State)
    requires ProgramInv(setup, s)
    ensures !s.loggedIn ==> !s.established
  {
  }

  lemma {:induction false} QuietHolds(setup: Setup, log: seq<Action>, s: State)
    requires !setup.background && Run(setup, log) == Some(s)
    ensures ProgramInv(setup, s) && CallsInv(setup, s) && QuietHandover(s)
  {
    if log != [] {
      var m := |log| - 1;
      var before := Run(setup, log[..m]).value;
      QuietHolds(setup, log[..m], before);
      hide Run;
      ProgramStep(setup, before, log[m], s);
      CallsStep(setup, before, log[m], s);
      QuietStep(setup, before, log[m], s);
    }
  }

  /** Some interleaving lets clearDeadline wipe a stall deadline exactly when there is a stall timeout,
      the library reads or writes on goroutines of its own, and a clear comes after a mark.  For such a
      library it is the order of the statements that protects the deadline. */
  lemma WipedExactlyByClearAfterMark(setup: Setup)
    ensures CanWipe(setup) <==> setup.background && setup.stallTimeout > 0 && !NoClearAfterMark(setup.program)
  {
    if setup.background && setup.stallTimeout > 0 && !NoClearAfterMark(setup.program) {
      WrongOrderWipes(setup);
    }
    if CanWipe(setup) {
      var log :| Wipes(setup, log);
      var s := Run(setup, log).value;
      if !setup.background {
        QuietHolds(setup, log, s);
      } else if setup.stallTimeout <= 0 {
        WithoutTimeoutNothingArms(setup, log, s);
      } else if NoClearAfterMark(setup.program) {
        InvHolds(setup, log, s);
      }
    }
  }

  lemma BothProgramsClearFirst()
    ensures ClearsFirst(FTP_PROGRAM) && ClearsFirst(SFTP_PROGRAM)
    ensures Detach in FTP_PROGRAM && Detach !in SFTP_PROGRAM
  {
    assert FTP_PROGRAM[..2][0] == Clear && SFTP_PROGRAM[..1][0] == Clear;
  }

  /** A connection dialled after login is a data connection of the client that was handed over: it
      has no deadline, and the connect context no longer governs it exactly when the program detached. */
  lemma LaterDialsAreDetached(setup: Setup, log: seq<Action>, s: State, t: State)
    requires NoClearAfterMark(setup.program)
    requires Run(setup, log) == Some(s) && s.loggedIn && Step(setup, s, Dial) == Some(t)
    ensures setup.redials && |t.conns| == |s.conns| + 1 && s.done == setup.program
    ensures var conn := t.conns[|s.conns|];
            conn.read.None? && conn.write.None? && (conn.ctx == BackgroundContext <==> Detach in setup.program)
  {
    InvHolds(setup, log, s);
    assert s.done + [] == s.done;
  }

  /** One read, which did not arm, is in flight on the only connection. */
  predicate Blocked(setup: Setup, s: State) {
    && s.loggedIn && |s.conns| == 1 && s.ops == [Op(0, Reading, 0, false, Running, None)]
    && s.done + s.todo == setup.program && (s.established <==> Mark in s.done)
    && (Clear in s.done ==> s.conns[0].read == None)
  }

  lemma BlockedStep(setup: Setup, s: State) returns (t: State)
    requires Blocked(setup, s) && s.todo != []
    ensures Step(setup, s, Next) == Some(t) && Blocked(setup, t) && |t.todo| < |s.todo|
  {
    t := Step(setup, s, Next).value;
    assert s.todo == [s.todo[0]] + s.todo[1..];
  }

  /** A read that loads the flag before login returns, and is still blocked at the handover, goes on
      without any deadline. */
  lemma BlockedReadRunsBare(setup: Setup) returns (log: seq<Action>, s: State)
    requires ClearsFirst(setup.program) && Mark in setup.program && setup.background
    ensures Run(setup, log) == Some(s) && s.established && |s.ops| == 1 && |s.conns| == 1
    ensures s.ops[0].phase == Running && s.ops[0].dir == Reading && s.ops[0].conn == 0
    ensures s.conns[0].read == None
  {
    log, s := BlockedBegins(setup);
    hide Run, Step, Blocked;
    while s.todo != []
      invariant Run(setup, log) == Some(s) && Blocked(setup, s)
      decreases |s.todo|
    {
      var t := BlockedStep(setup, s);
      RunOne(setup, log, s, Next, t);
      log, s := log + [Next], t;
    }
    BlockedEnds(setup, s);
  }

  lemma BlockedBegins(setup: Setup) returns (log: seq<Action>, s: State)
    requires setup.background
    ensures Run(setup, log) == Some(s) && Blocked(setup, s)
  {
    hide Run;
    var s1 := FirstDial(setup);
    var s2 := Step(setup, s1, Begin(0, Reading)).value;
    RunOne(setup, [Dial], s1, Begin(0, Reading), s2);
    var s3 := Step(setup, s2, Load(0)).value;
    RunOne(setup, [Dial] + [Begin(0, Reading)], s2, Load(0), s3);
    s := s3.(loggedIn := true);
    log := [Dial] + [Begin(0, Reading)] + [Load(0)];
    RunOne(setup, log, s3, Login, s);
    log := log + [Login];
  }

  lemma BlockedEnds(setup: Setup, s: State)
    requires Blocked(setup, s) && s.todo == [] && Mark in setup.program && ClearsFirst(setup.program)
    ensures s.established && s.conns[0].read == None && s.ops == [Op(0, Reading, 0, false, Running, None)]
    ensures |s.conns| == 1
  {
    assert s.done + [] == s.done;
    MarkedIsCleared(setup.program);
  }

  lemma MarkedIsCleared(program: seq<Stmt>)
    requires ClearsFirst(program) && Mark in program
    ensures Clear in program
  {
    var j :| 0 <= j < |program| && program[j] == Mark;
    assert Clear in program[..j];
  }

  /** Without goroutines of its own a library has nothing in flight, once login has returned, but
      calls that began after establishment. */
  predicate SequentialInv(s: State) {
    s.loggedIn ==> forall i :: 0 <= i < |s.ops| ==> s.ops[i].late || !InFlight(s.ops[i])
  }

  lemma SequentialStep(setup: Setup, s: State, a: Action, t: State)
    requires !setup.background && Mark in setup.program
    requires ProgramInv(setup, s) && SequentialInv(s) && Step(setup, s, a) == Some(t)
    ensures SequentialInv(t)
  {
    assert s.todo == [] ==> s.done + s.todo == s.done;
  }

  lemma {:induction false} SequentialHolds(setup: Setup, log: seq<Action>, s: State)
    requires !setup.background && Mark in setup.program && Run(setup, log) == Some(s)
    ensures ProgramInv(setup, s) && SequentialInv(s)
  {
    if log != [] {
      var m := |log| - 1;
      var before := Run(setup, log[..m]).value;
      SequentialHolds(setup, log[..m], before);
      hide Run;
      ProgramStep(setup, before, log[m], s);
      SequentialStep(setup, before, log[m], s);
    }
  }

  predicate RunsBare(setup: Setup, log: seq<Action>, i: nat) {
    && Run(setup, log).Some?
    && var s := Run(setup, log).value;
       && s.established && i < |s.ops| && s.ops[i].phase == Running && s.ops[i].conn < |s.conns|
       && DeadlineOf(s.conns[s.ops[i].conn], s.ops[i].dir).None?
  }

  /** After establishment a read or write can be blocked without any deadline. */
  ghost predicate CanRunBare(setup: Setup) {
    exists log, i :: RunsBare(setup, log, i)
  }

  /** With a stall timeout that happens exactly if the library reads or writes on goroutines of its
      own: through SFTP, then, and not through FTP. */
  lemma BareCallsExactlyInBackground(setup: Setup)
    requires ClearsFirst(setup.program) && Mark in setup.program && setup.stallTimeout > 0
    ensures CanRunBare(setup) <==> setup.background
  {
    if setup.background {
      var log, s := BlockedReadRunsBare(setup);
      assert RunsBare(setup, log, 0);
    } else if CanRunBare(setup) {
      var log, i :| RunsBare(setup, log, i);
      var s := Run(setup, log).value;
      SequentialHolds(setup, log, s);
      InvHolds(setup, log, s);
      BareOnlyIfLoadedBefore(setup, log, s, i);
    }
  }

  /** How the two clients use their libraries. */
  function FtpSetup(connectTimeout: int, stallTimeout: int): Setup {
    Setup(connectTimeout, stallTimeout, FTP_PROGRAM, true, true, false)
  }

  function SftpSetup(connectTimeout: int, stallTimeout: int): Setup {
    Setup(connectTimeout, stallTimeout, SFTP_PROGRAM, false, true, true)
  }

  lemma BareThroughSftpOnly(connectTimeout: int, stallTimeout: int)
    requires stallTimeout > 0
    ensures CanRunBare(SftpSetup(connectTimeout, stallTimeout)) && !CanRunBare(FtpSetup(connectTimeout, stallTimeout))
  {
    BothProgramsClearFirst();
    assert FTP_PROGRAM[2] == Mark && SFTP_PROGRAM[1] == Mark;
    BareCallsExactlyInBackground(FtpSetup(connectTimeout, stallTimeout));
    BareCallsExactlyInBackground(SftpSetup(connectTimeout, stallTimeout));
  }
}
