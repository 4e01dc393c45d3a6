/** dial and ftpDialer.dial of internal/transport/ftp.go:57-123 and DialSFTP of sftp.go:43-70 as
    the straight-line code they are, with everybody else's steps let in between the statements. */
module Diallers {
  import opened Types
  import opened Deadlines

  /** A step of the clock or of a read or write in flight, as opposed to the dialling code. */
  predicate Elsewhere(a: Action) {
    !a.Dial? && !a.Login? && !a.Next?
  }

  predicate AllElsewhere(others: seq<Action>) {
    forall k :: 0 <= k < |others| ==> Elsewhere(others[k])
  }

  class Dialler {
    const setup: Setup
    /** ftpDialer.ctrlConn: the index of the control connection, once there is one. */
    var ctrlConn: Option<nat>
    var ctx: Context
    var established: bool
    var conns: seq<Conn>
    var ops: seq<Op>
    var now: int
    var loggedIn: bool
    /** The statements already executed, and the auxiliary fields of the state machine. */
    var done: seq<Stmt>
    var markedAt: int
    var wiped: bool
    ghost var log: seq<Action>

    function View(): State
      reads this
    {
      var todo := if |done| <= |setup.program| then setup.program[|done|..] else [];
      State(now, loggedIn, done, todo, established, markedAt, ctx, conns, ops, wiped)
    }

    /** The fields are what a run of the state machine leaves. */
    ghost predicate Valid()
      reads this
    {
      && Run(setup, log) == Some(View())
      && |done| <= |setup.program|
      && ctrlConn == (if conns == [] then None else Some(0))
    }

    constructor (setup: Setup)
      ensures Valid() && this.setup == setup && View() == Initial(setup)
    {
      this.setup := setup;
      ctrlConn, ctx, established, conns, ops, now := None, ConnectContext, false, [], [], 0;
      loggedIn, done, markedAt, wiped, log := false, [], 0, false, [];
    }

    /** The dial function handed to the library.  `clock` is read by armConnectDeadline. */
    method Dial()
      requires Valid() && LibraryRuns(View()) && (conns == [] || setup.redials)
      modifies this
      ensures Valid() && Step(setup, old(View()), Action.Dial) == Some(View())
    {
      ghost var before := View();
      var conn := Conn(None, None, now, ctx);
      if ctrlConn.None? {
        if setup.connectTimeout > 0 {
          var d := Some(Deadline(now + setup.connectTimeout, Connecting));
          conn := conn.(read := d, write := d);
        }
        ctrlConn := Some(|conns|);
      }
      conns := conns + [conn];
      RunOne(setup, log, before, Action.Dial, View());
      log := log + [Action.Dial];
    }

    method TakeStep(a: Action, t: State)
      requires Valid() && Step(setup, View(), a) == Some(t) && SameCode(View(), t) && t.todo == View().todo
      modifies this
      ensures Valid() && View() == t
    {
      hide Run, Step;
      RunOne(setup, log, View(), a, t);
      log := log + [a];
      now, conns, ops, markedAt, wiped := t.now, t.conns, t.ops, t.markedAt, t.wiped;
    }

    /** What happens elsewhere between two statements: those of these steps that are possible. */
    method LetIn(others: seq<Action>)
      requires Valid() && AllElsewhere(others)
      modifies this
      ensures Valid() && SameCode(old(View()), View())
    {
      hide Run, Step;
      for k := 0 to |others|
        invariant Valid() && SameCode(old(View()), View())
      {
        var before := View();
        var after := Step(setup, before, others[k]);
        if after.Some? {
          ElsewhereKeepsTheCode(setup, before, others[k], after.value);
          TakeStep(others[k], after.value);
        }
      }
    }

    /** A library without goroutines of its own returns when its reads and writes have. */
    method Settle()
      requires Valid() && !established
      modifies this
      ensures Valid() && SameCode(old(View()), View()) && Idle(View())
    {
      var i := 0;
      while i < |ops|
        invariant 0 <= i <= |ops| && |ops| == |old(ops)|
        invariant Valid() && SameCode(old(View()), View())
        invariant forall j :: 0 <= j < i ==> !InFlight(ops[j])
      {
        PhasesBefore(setup, log, View(), i);
        if ops[i].phase == Begun {
          var t := Step(setup, View(), Load(i)).value;
          TakeStep(Load(i), t);
        }
        if ops[i].phase == Running {
          var t := Step(setup, View(), End(i)).value;
          TakeStep(End(i), t);
        }
        i := i + 1;
      }
    }

    /** The next statement of the dialling code. */
    method Execute(stmt: Stmt)
      requires Valid() && loggedIn && |done| < |setup.program| && setup.program[|done|] == stmt
      modifies this
      ensures Valid() && Step(setup, old(View()), Next) == Some(View()) && done == old(done) + [stmt]
      ensures loggedIn
    {
      hide Run, IsStall;
      ghost var before := View();
      match stmt {
        case Clear =>
          if ctrlConn.Some? {
            wiped := wiped || IsStall(conns[0].read) || IsStall(conns[0].write);
            conns := conns[0 := conns[0].(read := None, write := None)];
          }
        case Detach =>
          ctx := BackgroundContext;
        case Mark =>
          if !established {
            established, markedAt := true, now;
          }
      }
      done := done + [stmt];
      assert before.todo[1..] == View().todo;
      RunOne(setup, log, before, Next, View());
      log := log + [Next];
    }

    /** ftpDialAndLogin, or the dial and openSFTP of DialSFTP: the library dials, and reads and
        writes, as it pleases.  It logs in only through a connection it has dialled. */
    method DialAndLogin(moves: seq<seq<Action>>, succeeds: bool) returns (ok: bool)
      requires View() == Initial(setup) && Valid()
      requires forall k :: 0 <= k < |moves| ==> AllElsewhere(moves[k])
      modifies this
      ensures Valid() && done == [] && loggedIn == ok
      ensures ok <==> succeeds && moves != []
    {
      ok := false;
      for k := 0 to |moves|
        invariant Valid() && done == [] && !loggedIn && !established && (conns == [] <==> k == 0)
      {
        if conns == [] || setup.redials {
          Dial();
        }
        LetIn(moves[k]);
      }
      if succeeds && conns != [] {
        if !setup.background {
          Settle();
        }
        ghost var before := View();
        loggedIn := true;
        RunOne(setup, log, before, Login, View());
        log := log + [Login];
        ok := true;
      }
    }

    /** dial: ftp.go:57-84. */
    method DialFtp(moves: seq<seq<Action>>, succeeds: bool, first: seq<Action>, second: seq<Action>) returns (ok: bool)
      requires setup.program == FTP_PROGRAM && View() == Initial(setup) && Valid()
      requires AllElsewhere(first) && AllElsewhere(second)
      requires forall k :: 0 <= k < |moves| ==> AllElsewhere(moves[k])
      modifies this
      ensures Valid() && (ok <==> succeeds && moves != [])
      ensures established <==> ok
      ensures ok ==> ctx == BackgroundContext && !wiped
      ensures !ok ==> ctx == ConnectContext
      ensures forall c, dir :: 0 <= c < |conns| && ok ==>
              DeadlineOf(conns[c], dir).None? || IsStall(DeadlineOf(conns[c], dir))
    {
      ok := DialAndLogin(moves, succeeds);
      if ok {
        Execute(Clear);
        LetIn(first);
        Execute(Detach);
        LetIn(second);
        Execute(Mark);
        assert Detach in done && Mark in done;
      }
      HandedOverClean(setup, log, View());
    }

    /** DialSFTP: sftp.go:43-70. */
    method DialSftp(moves: seq<seq<Action>>, succeeds: bool, first: seq<Action>) returns (ok: bool)
      requires setup.program == SFTP_PROGRAM && View() == Initial(setup) && Valid()
      requires AllElsewhere(first)
      requires forall k :: 0 <= k < |moves| ==> AllElsewhere(moves[k])
      modifies this
      ensures Valid() && (ok <==> succeeds && moves != [])
      ensures established <==> ok
      ensures ok ==> !wiped
      ensures forall c, dir :: 0 <= c < |conns| && ok ==>
              DeadlineOf(conns[c], dir).None? || IsStall(DeadlineOf(conns[c], dir))
    {
      ok := DialAndLogin(moves, succeeds);
      if ok {
        Execute(Clear);
        LetIn(first);
        Execute(Mark);
        assert Mark in done;
      }
      HandedOverClean(setup, log, View());
    }
  }

  /** Before establishment nothing arms. */
  lemma PhasesBefore(setup: Setup, log: seq<Action>, s: State, i: nat)
    requires Run(setup, log) == Some(s) && !s.established && i < |s.ops|
    ensures s.ops[i].phase == Begun || s.ops[i].phase == Running || s.ops[i].phase == Over
  {
    CallsHold(setup, log, s);
    assert OpInv(setup, s, s.ops[i]);
  }

  lemma {:induction false} CallsHold(setup: Setup, log: seq<Action>, s: State)
    requires Run(setup, log) == Some(s)
    ensures ProgramInv(setup, s) && CallsInv(setup, s)
  {
    if log != [] {
      var m := |log| - 1;
      var before := Run(setup, log[..m]).value;
      CallsHold(setup, log[..m], before);
      hide Run;
      ProgramStep(setup, before, log[m], s);
      CallsStep(setup, before, log[m], s);
    }
  }

  /** The steps of others leave the dialling code where it is. */
  predicate SameCode(s: State, t: State) {
    && t.loggedIn == s.loggedIn && t.done == s.done && t.established == s.established && t.ctx == s.ctx
    && |t.conns| == |s.conns|
  }

  lemma ElsewhereKeepsTheCode(setup: Setup, s: State, a: Action, t: State)
    requires Elsewhere(a) && Step(setup, s, a) == Some(t)
    ensures SameCode(s, t) && t.todo == s.todo
  {
  }

  /** A client that is handed over has no connect deadline left anywhere. */
  lemma HandedOverClean(setup: Setup, log: seq<Action>, s: State)
    requires setup.program == FTP_PROGRAM || setup.program == SFTP_PROGRAM
    requires Run(setup, log) == Some(s)
    ensures !s.wiped && (s.established <==> Mark in s.done) && (s.ctx == BackgroundContext <==> Detach in s.done)
    ensures forall c, dir :: 0 <= c < |s.conns| && s.established ==>
              DeadlineOf(s.conns[c], dir).None? || IsStall(DeadlineOf(s.conns[c], dir))
  {
    BothProgramsClearFirst();
    InvHolds(setup, log, s);
    forall c, dir | 0 <= c < |s.conns| && s.established
      ensures DeadlineOf(s.conns[c], dir).None? || IsStall(DeadlineOf(s.conns[c], dir))
    {
      ConnectDeadlineCoversTheLogin(setup, log, s, c, dir);
    }
  }
}
