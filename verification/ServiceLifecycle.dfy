/**
  The status machine of the daemon's StartedService.

  A reload drops the service lock twice: while the old instance is closed, and
  while the new one starts.  Each lock-held section is one atomic action here; the
  unlocked stretches are phases of the calling reload, so any number of calls interleave.
 */
module ServiceLifecycle {
  import opened Wrappers

  type Caller = nat
  type InstanceId = nat

  datatype Status = Idle | Starting | Started | Stopping | Fatal

  /** Where a reload stands while it does not hold the lock. */
  datatype Phase =
    | ClosingOld(inst: InstanceId)
    | OldClosed(inst: InstanceId)
    | StartingNew(inst: InstanceId)
    | StartReturned(inst: InstanceId, ok: bool)
  {
    predicate InWindow() { ClosingOld? || OldClosed? }
  }

  /** Instances are numbered in order of creation; closeLog lists the Close calls made. */
  datatype State = State(
    status: Status,
    instance: Option<InstanceId>,
    calls: map<Caller, Phase>,
    created: nat,
    closeLog: seq<InstanceId>,
    running: set<InstanceId>)

  const INIT := State(Idle, None, map[], 0, [], {})

  /** What the environment decides (construction, Start, Close outcomes) is part of the action. */
  datatype Action =
    | Enter(c: Caller, built: bool)
    | CloseReturns(c: Caller)
    | Reenter(c: Caller, built: bool)
    | StartReturns(c: Caller, ok: bool)
    | Finish(c: Caller)
    | CloseService(closed: bool)
    | SetError

  predicate Enabled(s: State, a: Action) {
    match a
    case Enter(c, _) => c !in s.calls
    case CloseReturns(c) => c in s.calls && s.calls[c].ClosingOld?
    case Reenter(c, _) => c in s.calls && s.calls[c].OldClosed?
    case StartReturns(c, _) => c in s.calls && s.calls[c].StartingNew?
    case Finish(c) => c in s.calls && s.calls[c].StartReturned?
    case CloseService(_) => true
    case SetError => true
  }

  /** From status STARTING to the second unlock: build the instance and store it. */
  function Install(s: State, c: Caller, built: bool): State {
    if built then
      s.(status := Starting, instance := Some(s.created), created := s.created + 1,
         calls := s.calls[c := StartingNew(s.created)])
    else
      s.(status := Fatal, calls := s.calls - {c})
  }

  function Next(s: State, a: Action): State
    requires Enabled(s, a)
  {
    match a
    case Enter(c, built) =>
      if s.status == Stopping || s.status == Fatal then s
      else if s.instance.Some? then
        s.(status := Stopping, calls := s.calls[c := ClosingOld(s.instance.value)])
      else Install(s, c, built)
    case CloseReturns(c) =>
      s.(closeLog := s.closeLog + [s.calls[c].inst], calls := s.calls[c := OldClosed(s.calls[c].inst)])
    case Reenter(c, built) => Install(s, c, built)
    case StartReturns(c, ok) =>
      s.(running := if ok then s.running + {s.calls[c].inst} else s.running,
         calls := s.calls[c := StartReturned(s.calls[c].inst, ok)])
    case Finish(c) =>
      var rest := s.(calls := s.calls - {c});
      if s.status != Starting then rest
      else if s.calls[c].ok then rest.(status := Started)
      else rest.(status := Fatal)
    case CloseService(closed) =>
      if s.status != Starting && s.status != Started then s
      else
        var log := if s.instance.Some? then s.closeLog + [s.instance.value] else s.closeLog;
        if s.instance.Some? && !closed then s.(status := Fatal, closeLog := log)
        else s.(status := Idle, instance := None, closeLog := log)
    case SetError => s.(status := Fatal)
  }

  // ----- the program's own form -----

  datatype SectionResult = ErrInvalid | BuildFailed | CloseThen(prev: InstanceId) | StartThen(inst: InstanceId) | CloseFailed | Done

  /** The service object.  Each method is one lock-held section; history fields are ghost. */
  class StartedService {
    var serviceStatus: Status
    var instance: Option<InstanceId>
    var created: nat
    ghost var calls: map<Caller, Phase>
    ghost var closeLog: seq<InstanceId>
    ghost var running: set<InstanceId>

    ghost function Abs(): State
      reads this
    {
      State(serviceStatus, instance, calls, created, closeLog, running)
    }

    constructor ()
      ensures Abs() == INIT
    {
      serviceStatus, instance, created := Idle, None, 0;
      calls, closeLog, running := map[], [], {};
    }

    method InstallSection(c: Caller, built: bool) returns (r: SectionResult)
      modifies this
      ensures Abs() == Install(old(Abs()), c, built)
      ensures r == if built then StartThen(old(created)) else BuildFailed
      ensures built ==> serviceStatus == Starting && instance == Some(old(created))
      ensures !built ==> serviceStatus == Fatal && instance == old(instance)
    {
      serviceStatus := Starting;
      if !built {
        serviceStatus := Fatal;
        calls := calls - {c};
        return BuildFailed;
      }
      instance := Some(created);
      r := StartThen(created);
      calls := calls[c := StartingNew(created)];
      created := created + 1;
    }

    method StartOrReloadEnter(c: Caller, built: bool) returns (r: SectionResult)
      requires Enabled(Abs(), Enter(c, built))
      modifies this
      ensures Abs() == Next(old(Abs()), Enter(c, built))
      ensures r == ErrInvalid <==> old(serviceStatus) in {Stopping, Fatal}
      ensures r.CloseThen? ==> old(instance) == Some(r.prev) && instance == Some(r.prev) && calls[c] == ClosingOld(r.prev)
      ensures r.StartThen? ==> old(instance) == None && instance == Some(r.inst)
    {
      match serviceStatus {
        case Idle | Started | Starting =>
        case _ => return ErrInvalid;
      }
      var oldInstance := instance;
      if oldInstance.Some? {
        serviceStatus := Stopping;
        calls := calls[c := ClosingOld(oldInstance.value)];
        return CloseThen(oldInstance.value);
      }
      r := InstallSection(c, built);
    }

    /** The unlocked Close of the old instance returns (its error is discarded). */
    ghost method OldInstanceClosed(c: Caller)
      requires Enabled(Abs(), CloseReturns(c))
      modifies this
      ensures Abs() == Next(old(Abs()), CloseReturns(c))
    {
      var inst := calls[c].inst;
      closeLog := closeLog + [inst];
      calls := calls[c := OldClosed(inst)];
    }

    method StartOrReloadReenter(c: Caller, built: bool) returns (r: SectionResult)
      requires Enabled(Abs(), Reenter(c, built))
      modifies this
      ensures Abs() == Next(old(Abs()), Reenter(c, built))
    {
      r := InstallSection(c, built);
    }

    /** The unlocked Start of the new instance returns. */
    ghost method NewInstanceStarted(c: Caller, ok: bool)
      requires Enabled(Abs(), StartReturns(c, ok))
      modifies this
      ensures Abs() == Next(old(Abs()), StartReturns(c, ok))
    {
      var inst := calls[c].inst;
      if ok {
        running := running + {inst};
      }
      calls := calls[c := StartReturned(inst, ok)];
    }

    method StartOrReloadFinish(c: Caller, startOk: bool)
      requires Enabled(Abs(), Finish(c)) && calls[c].ok == startOk
      modifies this
      ensures Abs() == Next(old(Abs()), Finish(c))
    {
      calls := calls - {c};
      if serviceStatus != Starting {
        return;
      }
      if !startOk {
        serviceStatus := Fatal;
        return;
      }
      serviceStatus := Started;
    }

    method CloseServiceSection(closed: bool) returns (r: SectionResult)
      modifies this
      ensures Abs() == Next(old(Abs()), CloseService(closed))
      ensures r == ErrInvalid <==> old(serviceStatus) !in {Starting, Started}
      ensures r == CloseFailed <==> old(serviceStatus) in {Starting, Started} && old(instance).Some? && !closed
      ensures r == Done ==> serviceStatus == Idle && instance == None
      ensures r == CloseFailed ==> serviceStatus == Fatal && instance == old(instance)
    {
      match serviceStatus {
        case Starting | Started =>
        case _ => return ErrInvalid;
      }
      serviceStatus := Stopping;
      if instance.Some? {
        closeLog := closeLog + [instance.value];
        if !closed {
          serviceStatus := Fatal;
          return CloseFailed;
        }
      }
      instance := None;
      serviceStatus := Idle;
      r := Done;
    }

    method SetErrorSection()
      modifies this
      ensures Abs() == Next(old(Abs()), SetError)
    {
      serviceStatus := Fatal;
    }
  }

  // ----- runs -----

  predicate Executable(s: State, run: seq<Action>)
    decreases |run|
  {
    run == [] || (Enabled(s, run[0]) && Executable(Next(s, run[0]), run[1..]))
  }

  function After(s: State, run: seq<Action>): State
    requires Executable(s, run)
    decreases |run|
  {
    if run == [] then s else After(Next(s, run[0]), run[1..])
  }

  predicate InWindow(s: State, c: Caller) { c in s.calls && s.calls[c].InWindow() }

  ghost predicate WindowOpen(s: State) { exists c :: InWindow(s, c) }

  ghost predicate NoLeak(s: State) {
    forall i: nat :: i < s.created && s.instance != Some(i) ==> i in s.closeLog
  }

  ghost predicate ClosedOnce(s: State) {
    && (forall i, j :: 0 <= i < j < |s.closeLog| ==> s.closeLog[i] != s.closeLog[j])
    && (forall i :: i in s.closeLog ==> i < s.created)
  }

  ghost predicate Exclusive(s: State) {
    && (forall c, d :: InWindow(s, c) && InWindow(s, d) ==> c == d)
    && (forall c :: InWindow(s, c) ==>
          s.status in {Stopping, Fatal} && s.instance == Some(s.calls[c].inst))
  }

  ghost predicate StatusMeaning(s: State) {
    && (s.status == Idle ==> s.instance == None)
    && (s.status in {Starting, Started} ==> s.instance.Some? && s.instance.value !in s.closeLog)
    && (s.status == Stopping ==> WindowOpen(s))
  }

  ghost predicate Inv(s: State) {
    && NoLeak(s) && ClosedOnce(s) && Exclusive(s) && StatusMeaning(s)
    && (s.instance.Some? ==> s.instance.value < s.created)
    && (forall c :: c in s.calls ==> s.calls[c].inst < s.created)
    && (forall c :: c in s.calls && s.calls[c].ClosingOld? ==> s.calls[c].inst !in s.closeLog)
    && (forall c :: c in s.calls && s.calls[c].OldClosed? ==> s.calls[c].inst in s.closeLog)
  }

  lemma EnterStep(s: State, c: Caller, built: bool)
    requires Inv(s) && c !in s.calls
    ensures Inv(Next(s, Enter(c, built)))
  {
    if s.status !in {Stopping, Fatal} {
      assert forall d :: !InWindow(s, d);
      if s.instance.Some? { assert InWindow(Next(s, Enter(c, built)), c); }
    }
  }

  lemma CloseReturnsStep(s: State, c: Caller)
    requires Inv(s) && Enabled(s, CloseReturns(c))
    ensures Inv(Next(s, CloseReturns(c)))
  {
    var t := Next(s, CloseReturns(c));
    assert InWindow(s, c);
    assert forall d :: InWindow(t, d) <==> InWindow(s, d);
    assert forall d :: d in s.calls && s.calls[d].ClosingOld? ==> InWindow(s, d);
  }

  lemma ReenterStep(s: State, c: Caller, built: bool)
    requires Inv(s) && Enabled(s, Reenter(c, built))
    ensures Inv(Next(s, Reenter(c, built)))
  {
    assert InWindow(s, c);
    assert forall d :: InWindow(Next(s, Reenter(c, built)), d) ==> InWindow(s, d) && d != c;
  }

  lemma InvStep(s: State, a: Action)
    requires Inv(s) && Enabled(s, a)
    ensures Inv(Next(s, a))
  {
    match a {
      case Enter(c, built) => EnterStep(s, c, built);
      case CloseReturns(c) => CloseReturnsStep(s, c);
      case Reenter(c, built) => ReenterStep(s, c, built);
      case _ => assert forall d :: InWindow(Next(s, a), d) <==> InWindow(s, d);
    }
  }

  lemma {:induction false} InvRun(s: State, run: seq<Action>)
    requires Inv(s) && Executable(s, run)
    ensures Inv(After(s, run))
    decreases |run|
  {
    if run != [] {
      InvStep(s, run[0]);
      InvRun(Next(s, run[0]), run[1..]);
    }
  }

  /** No instance is ever leaked, and none is closed twice, in any interleaving. */
  lemma NoInstanceLeaks(run: seq<Action>)
    requires Executable(INIT, run)
    ensures
      var s := After(INIT, run);
      && (forall i: nat :: i < s.created && s.instance != Some(i) ==> i in s.closeLog)
      && (forall i, j :: 0 <= i < j < |s.closeLog| ==> s.closeLog[i] != s.closeLog[j])
      && (s.status in {Starting, Started} ==> s.instance.Some? && s.instance.value !in s.closeLog)
      && (s.status == Idle ==> s.instance == None && forall i: nat :: i < s.created ==> i in s.closeLog)
  {
    InvRun(INIT, run);
  }

  /** At most one caller is ever in the closing window; while it is there the status is
      STOPPING or FATAL and the stored instance is the one it is closing.  STOPPING is seen
      outside the lock exactly when such a caller exists and no error was reported. */
  lemma ClosingWindowIsExclusive(run: seq<Action>, c: Caller)
    requires Executable(INIT, run)
    ensures
      var s := After(INIT, run);
      && (InWindow(s, c) ==>
            && s.status in {Stopping, Fatal} && s.instance == Some(s.calls[c].inst)
            && forall d :: InWindow(s, d) ==> d == c)
      && (s.status == Stopping <==> WindowOpen(s) && s.status != Fatal)
  {
    InvRun(INIT, run);
  }

  /** While a caller is in the closing window nobody else can replace, drop or close the instance. */
  lemma WindowFreezesInstance(run: seq<Action>, c: Caller, a: Action)
    requires Executable(INIT, run) && InWindow(After(INIT, run), c)
    requires Enabled(After(INIT, run), a)
    requires InWindow(Next(After(INIT, run), a), c)
    ensures
      var s, t := After(INIT, run), Next(After(INIT, run), a);
      t.instance == s.instance && t.created == s.created &&
      (t.closeLog == s.closeLog || (a == CloseReturns(c) && t.closeLog == s.closeLog + [s.calls[c].inst]))
  {
    InvRun(INIT, run);
    if a.CloseReturns? { assert InWindow(After(INIT, run), a.c); }
    if a.Reenter? { assert InWindow(After(INIT, run), a.c); }
  }

  /** FATAL with nobody in the closing window is absorbing: nothing is built, stored or closed again. */
  lemma {:induction false} FatalStays(s: State, run: seq<Action>)
    requires s.status == Fatal && !WindowOpen(s) && Executable(s, run)
    ensures
      var t := After(s, run);
      t.status == Fatal && !WindowOpen(t) && t.instance == s.instance && t.created == s.created &&
      t.closeLog == s.closeLog
    decreases |run|
  {
    if run != [] {
      var t := Next(s, run[0]);
      forall c ensures !InWindow(t, c) {
        assert !InWindow(s, c);
      }
      if run[0].CloseReturns? || run[0].Reenter? { assert InWindow(s, run[0].c); }
      FatalStays(t, run[1..]);
    }
  }

  lemma OneAction(s: State, a: Action)
    requires Enabled(s, a)
    ensures Executable(s, [a]) && After(s, [a]) == Next(s, a)
  {
    assert [a][1..] == [];
    assert Executable(Next(s, a), []) && After(Next(s, a), []) == Next(s, a);
  }

  /** A reload in its closing window can still bring the service back to STARTING. */
  lemma WindowLeavesFatal(s: State, c: Caller) returns (run: seq<Action>)
    requires InWindow(s, c)
    ensures Executable(s, run) && After(s, run).status == Starting
  {
    var t := if s.calls[c].ClosingOld? then Next(s, CloseReturns(c)) else s;
    var tail := [Reenter(c, true)];
    OneAction(t, Reenter(c, true));
    run := if s.calls[c].ClosingOld? then [CloseReturns(c)] + tail else tail;
    assert s.calls[c].ClosingOld? ==> run[1..] == tail;
  }

  /** FATAL with the window open is reachable: an error is reported while a reload closes the old instance. */
  lemma FatalWithOpenWindow() returns (run: seq<Action>)
    ensures Executable(INIT, run) && After(INIT, run).status == Fatal && WindowOpen(After(INIT, run))
  {
    run := [Enter(0, true), Enter(1, true), SetError];
    var s1 := Next(INIT, run[0]);
    var s2 := Next(s1, run[1]);
    OneAction(s2, SetError);
    assert run[2..] == run[1..][1..] == [SetError];
    assert Executable(s1, run[1..]) && After(s1, run[1..]) == Next(s2, SetError);
    assert InWindow(Next(s2, SetError), 1);
  }

  /** The service can recover from FATAL exactly when a reload is still inside its closing window. */
  lemma FatalIsFinalIffNoWindow(s: State)
    requires s.status == Fatal
    ensures (forall run :: Executable(s, run) ==> After(s, run).status == Fatal) <==> !WindowOpen(s)
  {
    if WindowOpen(s) {
      var c :| InWindow(s, c);
      var run := WindowLeavesFatal(s, c);
    } else {
      forall run | Executable(s, run) ensures After(s, run).status == Fatal {
        FatalStays(s, run);
      }
    }
  }

  // ----- where a status comes from -----

  /** Something went wrong: an error was reported, or an instance could not be built, started or closed. */
  predicate GoesWrong(s: State, a: Action)
    requires Enabled(s, a)
  {
    match a
    case SetError => true
    case Enter(_, built) => !built && s.instance.None? && s.status in {Idle, Starting, Started}
    case Reenter(_, built) => !built
    case Finish(c) => s.status == Starting && !s.calls[c].ok
    case CloseService(closed) => !closed && s.instance.Some? && s.status in {Starting, Started}
    case _ => false
  }

  predicate ClosesWell(s: State, a: Action) {
    a.CloseService? && s.status in {Starting, Started} && (a.closed || s.instance.None?)
  }

  predicate StartsWell(s: State, a: Action)
    requires Enabled(s, a)
  {
    a.Finish? && s.status == Starting && s.calls[a.c].ok
  }

  predicate Causes(st: Status, s: State, a: Action)
    requires Enabled(s, a)
  {
    (st == Fatal && GoesWrong(s, a)) || (st == Idle && ClosesWell(s, a)) || (st == Started && StartsWell(s, a))
  }

  /** What ends a status: only a reload coming back from its closing window ends FATAL. */
  predicate Ends(st: Status, a: Action) {
    match st
    case Fatal => a.Reenter? && a.built
    case Idle => a.Enter? || a.SetError?
    case Started => a.Enter? || a.SetError? || a.CloseService?
    case _ => false
  }

  lemma StatusStep(st: Status, s: State, a: Action)
    requires Inv(s) && Enabled(s, a) && st in {Idle, Started, Fatal}
    ensures Next(s, a).status == st <==> Causes(st, s, a) || (s.status == st && !Ends(st, a))
  {
    if a.CloseReturns? || a.Reenter? { assert InWindow(s, a.c); }
  }

  predicate CausedAt(st: Status, s: State, run: seq<Action>, k: nat)
    requires Executable(s, run)
    decreases k
  {
    k < |run| && if k == 0 then Causes(st, s, run[0]) else CausedAt(st, Next(s, run[0]), run[1..], k - 1)
  }

  predicate Lasts(st: Status, run: seq<Action>, from: nat) { forall j :: from <= j < |run| ==> !Ends(st, run[j]) }

  lemma LastsCons(st: Status, run: seq<Action>, from: nat)
    requires run != []
    ensures Lasts(st, run, from + 1) <==> Lasts(st, run[1..], from)
    ensures Lasts(st, run, 0) <==> !Ends(st, run[0]) && Lasts(st, run[1..], 0)
  {
    assert forall j :: 1 <= j < |run| ==> run[j] == run[1..][j - 1];
    assert forall j :: 0 <= j < |run| - 1 ==> run[1..][j] == run[j + 1];
  }

  /** Some action of the run caused the status, and nothing ended it since. */
  ghost predicate CausedWithin(st: Status, s: State, run: seq<Action>)
    requires Executable(s, run)
  {
    exists k: nat :: CausedAt(st, s, run, k) && Lasts(st, run, k + 1)
  }

  ghost predicate HasCause(st: Status, s: State, run: seq<Action>)
    requires Executable(s, run)
  {
    (s.status == st && Lasts(st, run, 0)) || CausedWithin(st, s, run)
  }

  lemma HasCauseCons(st: Status, s: State, run: seq<Action>)
    requires run != [] && Executable(s, run) && Inv(s) && st in {Idle, Started, Fatal}
    ensures HasCause(st, s, run) <==> HasCause(st, Next(s, run[0]), run[1..])
  {
    var t, rest := Next(s, run[0]), run[1..];
    StatusStep(st, s, run[0]);
    LastsCons(st, run, 0);
    if HasCause(st, s, run) && !(s.status == st && Lasts(st, run, 0)) {
      var k: nat :| CausedAt(st, s, run, k) && Lasts(st, run, k + 1);
      if k > 0 {
        LastsCons(st, run, k);
        assert CausedAt(st, t, rest, k - 1);
      }
    }
    if HasCause(st, t, rest) {
      if t.status == st && Lasts(st, rest, 0) {
        assert Causes(st, s, run[0]) ==> CausedAt(st, s, run, 0);
      } else {
        var k: nat :| CausedAt(st, t, rest, k) && Lasts(st, rest, k + 1);
        LastsCons(st, run, k + 1);
        assert CausedAt(st, s, run, k + 1);
      }
    }
  }

  lemma {:induction false} StatusOfRun(st: Status, s: State, run: seq<Action>)
    requires Inv(s) && Executable(s, run) && st in {Idle, Started, Fatal}
    ensures After(s, run).status == st <==> HasCause(st, s, run)
    decreases |run|
  {
    if run != [] {
      InvStep(s, run[0]);
      StatusOfRun(st, Next(s, run[0]), run[1..]);
      HasCauseCons(st, s, run);
    }
  }

  /** Over every interleaving: the service is FATAL exactly if something went wrong since a reload last came back from
      its closing window; STARTED exactly if a Start succeeded while STARTING and nobody reloaded, closed or reported
      an error since; IDLE exactly if it was closed well, or never used, and nobody reloaded or reported since. */
  lemma StatusHasCause(run: seq<Action>)
    requires Executable(INIT, run)
    ensures
      var st := After(INIT, run).status;
      && (st == Fatal <==> CausedWithin(Fatal, INIT, run))
      && (st == Started <==> CausedWithin(Started, INIT, run))
      && (st == Idle <==> Lasts(Idle, run, 0) || CausedWithin(Idle, INIT, run))
  {
    StatusOfRun(Fatal, INIT, run);
    StatusOfRun(Started, INIT, run);
    StatusOfRun(Idle, INIT, run);
  }

  // ----- what STARTED says about the stored instance -----

  ghost predicate Honest(s: State) {
    s.status == Started ==> s.instance.Some? && s.instance.value in s.running
  }

  /** Every accepted reload of the run begins when no other reload is in flight. */
  predicate OneAtATime(s: State, run: seq<Action>)
    requires Executable(s, run)
    decreases |run|
  {
    run == [] ||
    ((run[0].Enter? ==> s.calls == map[]) && OneAtATime(Next(s, run[0]), run[1..]))
  }

  ghost predicate OkMeansRunning(s: State) {
    forall c :: c in s.calls && s.calls[c].StartReturned? && s.calls[c].ok ==> s.calls[c].inst in s.running
  }

  ghost predicate Solo(s: State) {
    && Honest(s)
    && (forall c, d :: c in s.calls && d in s.calls ==> c == d)
    && OkMeansRunning(s)
    && (forall c :: c in s.calls && s.status == Starting && !s.calls[c].InWindow() ==>
          s.instance == Some(s.calls[c].inst))
    && (forall c :: c in s.calls && !s.calls[c].InWindow() ==> s.status != Started)
  }

  lemma {:induction false} SoloRun(s: State, run: seq<Action>)
    requires Inv(s) && Solo(s) && Executable(s, run) && OneAtATime(s, run)
    ensures Honest(After(s, run))
    decreases |run|
  {
    if run != [] {
      InvStep(s, run[0]);
      if run[0].CloseReturns? || run[0].Reenter? { assert InWindow(s, run[0].c); }
      assert Solo(Next(s, run[0]));
      SoloRun(Next(s, run[0]), run[1..]);
    }
  }

  /** With one reload in flight at a time, STARTED means the stored instance's Start succeeded. */
  lemma StartedMeansRunning(run: seq<Action>)
    requires Executable(INIT, run) && OneAtATime(INIT, run)
    ensures
      var s := After(INIT, run);
      s.status == Started ==> s.instance.Some? && s.instance.value in s.running && s.instance.value !in s.closeLog
  {
    SoloRun(INIT, run);
    InvRun(INIT, run);
  }

  predicate Starts(s: State, c: Caller) { c in s.calls && !s.calls[c].InWindow() }

  /** Every reload past its window owns its instance; "running" lists those whose Start came back well; in
      STARTING the reload of the stored instance is still in flight. */
  ghost predicate Owners(s: State) {
    && (forall c, d :: Starts(s, c) && Starts(s, d) && s.calls[c].inst == s.calls[d].inst ==> c == d)
    && (forall c :: Starts(s, c) ==> (s.calls[c].inst in s.running <==> s.calls[c] == StartReturned(s.calls[c].inst, true)))
    && (s.status == Starting ==> s.instance.Some? && exists c :: Starts(s, c) && s.calls[c].inst == s.instance.value)
    && (forall i :: i in s.running ==> i < s.created)
  }

  lemma InstallOwners(s: State, c: Caller, built: bool)
    requires Inv(s) && Owners(s) && !Starts(s, c)
    ensures Owners(Install(s, c, built))
  {
    var t := Install(s, c, built);
    assert forall d :: Starts(t, d) <==> Starts(s, d) || (built && d == c);
    if built { assert Starts(t, c) && t.calls[c].inst == t.instance.value; }
  }

  lemma FinishOwners(s: State, c: Caller)
    requires Owners(s) && Enabled(s, Finish(c))
    ensures Owners(Next(s, Finish(c)))
  {
    assert forall d :: Starts(Next(s, Finish(c)), d) <==> Starts(s, d) && d != c;
  }

  lemma StartReturnsOwners(s: State, c: Caller, ok: bool)
    requires Owners(s) && Enabled(s, StartReturns(c, ok)) && s.calls[c].inst < s.created
    ensures Owners(Next(s, StartReturns(c, ok)))
  {
    var t := Next(s, StartReturns(c, ok));
    assert forall d :: Starts(t, d) <==> Starts(s, d);
    assert forall d :: Starts(s, d) ==> t.calls[d].inst == s.calls[d].inst;
    assert Starts(s, c);
    assert forall d :: Starts(s, d) && d != c ==> s.calls[d].inst != s.calls[c].inst && t.calls[d] == s.calls[d];
  }

  lemma OwnersStep(s: State, a: Action)
    requires Inv(s) && Owners(s) && Enabled(s, a)
    ensures Owners(Next(s, a))
  {
    var t := Next(s, a);
    match a {
      case Enter(c, built) =>
        if s.status !in {Stopping, Fatal} && s.instance.None? {
          InstallOwners(s, c, built);
        } else {
          assert forall d :: Starts(t, d) <==> Starts(s, d);
        }
      case Reenter(c, built) => InstallOwners(s, c, built);
      case StartReturns(c, ok) => StartReturnsOwners(s, c, ok);
      case Finish(c) => FinishOwners(s, c);
      case _ => assert forall d :: Starts(t, d) <==> Starts(s, d);
    }
  }

  lemma {:induction false} OwnersRun(s: State, run: seq<Action>)
    requires Inv(s) && Owners(s) && Executable(s, run)
    ensures Owners(After(s, run))
    decreases |run|
  {
    if run != [] {
      InvStep(s, run[0]);
      OwnersStep(s, run[0]);
      OwnersRun(Next(s, run[0]), run[1..]);
    }
  }

  /** The call that carries this instance has come back from Start without error and waits for the lock. */
  predicate StartSucceeded(s: State, c: Caller, inst: InstanceId) {
    c in s.calls && s.calls[c] == StartReturned(inst, true)
  }

  /** Reloads overlapping in their Start phase share STARTING: a finishing one publishes STARTED, truthfully
      exactly when a call in flight has seen the Start of the stored instance succeed. */
  lemma FinishIsHonestIff(run: seq<Action>, c: Caller)
    requires Executable(INIT, run) && Enabled(After(INIT, run), Finish(c))
    requires After(INIT, run).status == Starting && After(INIT, run).calls[c].ok
    ensures
      var s := After(INIT, run);
      && Next(s, Finish(c)).status == Started && s.instance.Some?
      && (Honest(Next(s, Finish(c))) <==> exists d :: StartSucceeded(s, d, s.instance.value))
      && (s.instance == Some(s.calls[c].inst) ==> Honest(Next(s, Finish(c))))
  {
    InvRun(INIT, run);
    OwnersRun(INIT, run);
    var s := After(INIT, run);
    var d :| Starts(s, d) && s.calls[d].inst == s.instance.value;
    assert s.instance.value in s.running <==> StartSucceeded(s, d, s.instance.value);
    assert forall e :: StartSucceeded(s, e, s.instance.value) ==> Starts(s, e);
    assert Starts(s, c);
  }

  /** The overlap is reachable: two reloads, the first returning after the second stored its instance. */
  lemma OverlappingReloadsMislabel() returns (run: seq<Action>)
    ensures Executable(INIT, run) && !OneAtATime(INIT, run) && !Honest(After(INIT, run))
  {
    run := [Enter(0, true), Enter(1, true), CloseReturns(1), Reenter(1, true), StartReturns(0, true), Finish(0)];
    var s1 := Next(INIT, run[0]);
    var s2 := Next(s1, run[1]);
    var s3 := Next(s2, run[2]);
    var s4 := Next(s3, run[3]);
    var s5 := Next(s4, run[4]);
    var s6 := Next(s5, run[5]);
    assert run[5..][1..] == [] && Executable(s6, []);
    assert run[5..] == run[4..][1..] && Executable(s5, run[5..]) && After(s5, run[5..]) == s6;
    assert run[4..] == run[3..][1..] && Executable(s4, run[4..]) && After(s4, run[4..]) == s6;
    assert run[3..] == run[2..][1..] && Executable(s3, run[3..]) && After(s3, run[3..]) == s6;
    assert run[2..] == run[1..][1..] && Executable(s2, run[2..]) && After(s2, run[2..]) == s6;
    assert Executable(s1, run[1..]) && After(s1, run[1..]) == s6;
    assert s1.calls != map[] by { assert 0 in s1.calls; }
  }
}
