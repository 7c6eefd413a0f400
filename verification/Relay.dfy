/**
  Launching and tearing down a relayed connection.  The remote end is dialed and the handshake
  reported, two handshake kicks run (TCP only), then one copier per direction; the copiers share
  one atomic flag and race to finish.

  Each action is one atomic step of one of the two copiers, so every interleaving is covered.
  What the network does (failing dials, reports and kicks, payload and half-close errors) is part of the action.
 */
module Relay {
  import opened Wrappers

  datatype Protocol = TCP | UDP
  datatype Side = Local | Remote
  datatype Direction = Upload | Download

  /** Where a copier stands: copying, about to shut its ends, about to swap the flag, about to call
      onClose, about to close both ends, done.  "failed" is the error it will report. */
  datatype Phase =
    | Waiting
    | Copying
    | Shutting(failed: bool)
    | Swapping(failed: bool)
    | Notifying(failed: bool)
    | Closing
    | Done

  datatype Stage = Dialing | Reporting | Running | DialFailed | ReportFailed

  /** "kicks" counts the handshake kicks still to come; "notified" lists the onClose calls made.  A remote end
      that was never opened counts as closed. */
  datatype State = State(
    protocol: Protocol,
    stage: Stage,
    kicks: nat,
    flag: bool,
    up: Phase,
    down: Phase,
    closed: set<Side>,
    notified: seq<bool>)

  function Init(p: Protocol): State {
    State(p, Dialing, if p == TCP then 2 else 0, false, Waiting, Waiting, {}, [])
  }

  /** How a TCP copier shuts its destination after a clean copy. */
  datatype Shut = HalfClosed | HalfCloseFailed | ClosedWhole

  datatype Action =
    | Dial(failed: bool)
    | Report(failed: bool)
    | Kick(failed: bool)
    | Copied(d: Direction, failed: bool)
    | ShutEnds(d: Direction, how: Shut)
    | Swap(d: Direction)
    | Notify(d: Direction)
    | CloseBoth(d: Direction)

  const BOTH: set<Side> := {Local, Remote}

  function PhaseOf(s: State, d: Direction): Phase { if d == Upload then s.up else s.down }

  function SetPhase(s: State, d: Direction, p: Phase): State { if d == Upload then s.(up := p) else s.(down := p) }

  function Destination(d: Direction): Side { if d == Upload then Remote else Local }

  predicate Enabled(s: State, a: Action) {
    match a
    case Dial(_) => s.stage == Dialing
    case Report(_) => s.stage == Reporting
    case Kick(_) => s.stage == Running && s.kicks > 0
    case Copied(d, _) => PhaseOf(s, d).Copying?
    case ShutEnds(d, _) => PhaseOf(s, d).Shutting?
    case Swap(d) => PhaseOf(s, d).Swapping?
    case Notify(d) => PhaseOf(s, d).Notifying?
    case CloseBoth(d) => PhaseOf(s, d).Closing?
  }

  /** No copier is launched.  A packet connection whose handshake cannot be reported is closed without a word to
      the owner. */
  function Abandon(s: State, stage: Stage): State {
    s.(stage := stage, kicks := 0, up := Done, down := Done, closed := BOTH,
       notified := if s.protocol == UDP && stage == ReportFailed then [] else [true])
  }

  function Launch(s: State): State { s.(kicks := 0, up := Copying, down := Copying) }

  function Next(s: State, a: Action): State
    requires Enabled(s, a)
  {
    match a
    case Dial(failed) => if failed then Abandon(s, DialFailed) else s.(stage := Reporting)
    case Report(failed) =>
      if failed then Abandon(s, ReportFailed)
      else if s.protocol == TCP then s.(stage := Running)
      else Launch(s.(stage := Running))
    case Kick(failed) =>
      if failed then
        s.(kicks := 0, flag := true, up := Done, down := Done, closed := BOTH,
           notified := if s.flag then s.notified else s.notified + [true])
      else if s.kicks == 1 then Launch(s)
      else s.(kicks := s.kicks - 1)
    case Copied(d, failed) =>
      SetPhase(s, d, if s.protocol == TCP then Shutting(failed) else Swapping(failed))
    case ShutEnds(d, how) =>
      var failed := PhaseOf(s, d).failed;
      if failed then SetPhase(s.(closed := BOTH), d, Swapping(true))
      else if how == HalfClosed then SetPhase(s, d, Swapping(false))
      else if how == HalfCloseFailed then SetPhase(s.(closed := BOTH), d, Swapping(true))
      else SetPhase(s.(closed := s.closed + {Destination(d)}), d, Swapping(false))
    case Swap(d) =>
      var failed := PhaseOf(s, d).failed;
      var mine := if s.protocol == TCP then s.flag else !s.flag;
      SetPhase(s.(flag := true), d, if mine then Notifying(failed) else if s.protocol == TCP then Done else Closing)
    case Notify(d) =>
      SetPhase(s.(notified := s.notified + [PhaseOf(s, d).failed]), d, Closing)
    case CloseBoth(d) => SetPhase(s.(closed := BOTH), d, Done)
  }

  // ----- the program's own form -----

  /** What the two copiers share: the atomic flag and the two ends; where each stands is ghost. */
  class Session {
    const protocol: Protocol
    ghost var stage: Stage
    var kicks: nat
    var flag: bool
    var closed: set<Side>
    var notified: seq<bool>
    ghost var up: Phase
    ghost var down: Phase

    ghost function Abs(): State
      reads this
    {
      State(protocol, stage, kicks, flag, up, down, closed, notified)
    }

    constructor (p: Protocol)
      ensures Abs() == Init(p)
    {
      protocol, kicks, flag, closed, notified := p, if p == TCP then 2 else 0, false, {}, [];
      stage, up, down := Dialing, Waiting, Waiting;
    }

    ghost method GiveUp(s: Stage)
      modifies this`stage, this`up, this`down
      ensures stage == s && up == Done && down == Done
    {
      stage, up, down := s, Done, Done;
    }

    /** The remote end could not be opened: the owner is told and the local end closed. */
    method RemoteDialed(failed: bool) returns (stop: bool)
      requires Enabled(Abs(), Dial(failed)) && Inv(Abs())
      modifies this
      ensures stop == failed && Abs() == Next(old(Abs()), Dial(failed))
    {
      stage := Reporting;
      if failed {
        notified := notified + [true];
        closed := BOTH;
        kicks := 0;
        GiveUp(DialFailed);
      }
      return failed;
    }

    /** The handshake could not be reported: both ends close, and the owner is told for TCP only. */
    method HandshakeReported(failed: bool) returns (stop: bool)
      requires Enabled(Abs(), Report(failed)) && Inv(Abs())
      modifies this
      ensures stop == failed && Abs() == Next(old(Abs()), Report(failed))
    {
      if failed {
        closed := BOTH;
        if protocol == TCP {
          notified := notified + [true];
        }
        kicks := 0;
        GiveUp(ReportFailed);
        return true;
      }
      stage := Running;
      if protocol == UDP {
        up, down := Copying, Copying;
      }
      return false;
    }

    ghost method Move(d: Direction, p: Phase)
      modifies this`up, this`down
      ensures Abs() == SetPhase(old(Abs()), d, p)
    {
      if d == Upload { up := p; } else { down := p; }
    }

    /** atomic.Bool.Swap(true) */
    method SwapDone() returns (was: bool)
      modifies this`flag
      ensures flag && was == old(flag)
    {
      was := flag;
      flag := true;
    }

    /** A failing kick notifies, closes both ends and keeps the copiers from being launched. */
    method KickWriteHandshake(failed: bool) returns (stop: bool)
      requires Enabled(Abs(), Kick(failed))
      modifies this
      ensures stop == failed && Abs() == Next(old(Abs()), Kick(failed))
    {
      if !failed {
        kicks := kicks - 1;
        if kicks == 0 {
          up, down := Copying, Copying;
        }
        return false;
      }
      var was := SwapDone();
      if !was {
        notified := notified + [true];
      }
      closed := BOTH;
      kicks, up, down := 0, Done, Done;
      return true;
    }

    method CopyReturned(d: Direction, failed: bool)
      requires Enabled(Abs(), Copied(d, failed))
      modifies this
      ensures Abs() == Next(old(Abs()), Copied(d, failed))
    {
      if protocol == TCP {
        Move(d, Shutting(failed));
      } else {
        Move(d, Swapping(failed));
      }
    }

    /** TCP: after a failed copy close both ends, else half-close the destination, or close it whole. */
    method Shutdown(d: Direction, failed: bool, how: Shut) returns (error: bool)
      requires Enabled(Abs(), ShutEnds(d, how)) && PhaseOf(Abs(), d).failed == failed
      modifies this
      ensures Abs() == Next(old(Abs()), ShutEnds(d, how)) && PhaseOf(Abs(), d) == Swapping(error)
    {
      error := failed;
      if failed {
        closed := BOTH;
      } else if how == HalfCloseFailed {
        error := true;
        closed := BOTH;
      } else if how == ClosedWhole {
        closed := closed + {Destination(d)};
      }
      Move(d, Swapping(error));
    }

    /** TCP goes on to notify if the flag was set before, UDP if it was not. */
    method SwapFlag(d: Direction) returns (notify: bool)
      requires Enabled(Abs(), Swap(d))
      modifies this
      ensures Abs() == Next(old(Abs()), Swap(d)) && notify == PhaseOf(Abs(), d).Notifying?
    {
      ghost var failed := PhaseOf(Abs(), d).failed;
      var was := SwapDone();
      notify := if protocol == TCP then was else !was;
      if notify {
        Move(d, Notifying(failed));
      } else if protocol == TCP {
        Move(d, Done);
      } else {
        Move(d, Closing);
      }
    }

    method CallOnClose(d: Direction, failed: bool)
      requires Enabled(Abs(), Notify(d)) && PhaseOf(Abs(), d).failed == failed
      modifies this
      ensures Abs() == Next(old(Abs()), Notify(d))
    {
      notified := notified + [failed];
      Move(d, Closing);
    }

    method CloseEnds(d: Direction)
      requires Enabled(Abs(), CloseBoth(d))
      modifies this
      ensures Abs() == Next(old(Abs()), CloseBoth(d))
    {
      closed := BOTH;
      Move(d, Done);
    }
  }

  // ----- runs -----

  predicate Run(p: Protocol, run: seq<Action>)
    decreases |run|, 0
  {
    run == [] || (Run(p, run[..|run| - 1]) && Enabled(After(p, run[..|run| - 1]), run[|run| - 1]))
  }

  function After(p: Protocol, run: seq<Action>): State
    requires Run(p, run)
    decreases |run|, 1
  {
    if run == [] then Init(p) else Next(After(p, run[..|run| - 1]), run[|run| - 1])
  }

  predicate Finished(s: State) { s.kicks == 0 && s.up.Done? && s.down.Done? }

  predicate PastSwap(p: Phase) { p.Notifying? || p.Closing? || p.Done? }

  predicate Owes(p: Phase) { p.Notifying? }

  /** The books of a run: who has swapped the flag, who still owes the onClose call, and who has made it. */
  predicate Inv(s: State) {
    && (s.stage in {Dialing, Reporting} ==>
          s.up.Waiting? && s.down.Waiting? && !s.flag && s.notified == [] && s.kicks == if s.protocol == TCP then 2 else 0)
    && (s.stage in {DialFailed, ReportFailed} ==>
          && s.up.Done? && s.down.Done? && s.kicks == 0 && s.closed == BOTH
          && s.notified == if s.protocol == UDP && s.stage == ReportFailed then [] else [true])
    && (s.stage == Running ==> RunningInv(s))
  }

  predicate RunningInv(s: State) {
    && (s.protocol == UDP ==> s.kicks == 0)
    && (s.kicks > 0 ==> s.up.Waiting? && s.down.Waiting? && !s.flag && s.notified == [])
    && (s.kicks == 0 ==> !s.up.Waiting? && !s.down.Waiting?)
    && (s.flag <==> PastSwap(s.up) || PastSwap(s.down))
    && !(Owes(s.up) && Owes(s.down))
    && (s.protocol == TCP ==>
          && (PastSwap(s.up) && PastSwap(s.down) <==> |s.notified| + (if Owes(s.up) || Owes(s.down) then 1 else 0) == 1)
          && (!(PastSwap(s.up) && PastSwap(s.down)) ==> s.notified == [] && !Owes(s.up) && !Owes(s.down) && !s.up.Closing? && !s.down.Closing?))
    && (s.protocol == UDP ==>
          && |s.notified| + (if Owes(s.up) || Owes(s.down) then 1 else 0) == (if s.flag then 1 else 0)
          && (s.up.Done? || s.down.Done? ==> s.closed == BOTH)
          && !s.up.Shutting? && !s.down.Shutting?)
    && (s.protocol == TCP && s.up.Done? && s.down.Done? ==> s.closed == BOTH)
  }

  lemma InvStep(s: State, a: Action)
    requires Inv(s) && Enabled(s, a)
    ensures Inv(Next(s, a))
  {
  }

  lemma {:induction false} InvRun(p: Protocol, run: seq<Action>)
    requires Run(p, run)
    ensures Inv(After(p, run)) && After(p, run).protocol == p
  {
    if run != [] {
      InvRun(p, run[..|run| - 1]);
      InvStep(After(p, run[..|run| - 1]), run[|run| - 1]);
    }
  }

  lemma {:induction false} StageRun(p: Protocol, run: seq<Action>)
    requires Run(p, run)
    ensures Report(true) in run <==> After(p, run).stage == ReportFailed
  {
    if run != [] {
      var n := |run| - 1;
      StageRun(p, run[..n]);
      assert run == run[..n] + [run[n]];
    }
  }

  /** onClose is never called twice; when everything has finished both ends are closed, and it has been called
      exactly once unless this was a packet connection whose handshake could not be reported, for which it is
      never called. */
  lemma ClosedExactlyOnce(p: Protocol, run: seq<Action>)
    requires Run(p, run)
    ensures
      var s := After(p, run);
      && |s.notified| <= 1
      && (Finished(s) ==> s.closed == BOTH && (|s.notified| == 1 <==> !(p == UDP && Report(true) in run)))
  {
    InvRun(p, run);
    StageRun(p, run);
  }

  /** Once both ends are up, TCP tells the owner only after both directions have stopped copying, or a kick
      failed; UDP as soon as the first has. */
  lemma WhenTheOwnerIsTold(p: Protocol, run: seq<Action>)
    requires Run(p, run) && After(p, run).stage == Running
    ensures
      var s := After(p, run);
      && (p == TCP && s.notified != [] ==> PastSwap(s.up) && PastSwap(s.down))
      && (p == UDP ==> (s.notified != [] || Owes(s.up) || Owes(s.down) <==> PastSwap(s.up) || PastSwap(s.down)))
      && (s.notified != [] ==> s.flag)
  {
    InvRun(p, run);
  }

  predicate CanMove(s: State, d: Direction) {
    Enabled(s, Copied(d, false)) || Enabled(s, ShutEnds(d, HalfClosed)) || Enabled(s, Swap(d)) ||
    Enabled(s, Notify(d)) || Enabled(s, CloseBoth(d))
  }

  /** Until it has finished, a relay is being launched, is waiting for a kick or has copiers that can move: no
      copier waits for the other. */
  lemma NeverStuck(p: Protocol, run: seq<Action>)
    requires Run(p, run)
    ensures
      var s := After(p, run);
      && (s.stage == Running && s.kicks > 0 ==> Enabled(s, Kick(false)))
      && (s.stage !in {Dialing, Reporting} && s.kicks == 0 ==> forall d :: PhaseOf(s, d).Done? || CanMove(s, d))
  {
    InvRun(p, run);
  }

  function PhaseRank(p: Phase): nat {
    match p
    case Waiting => 6
    case Copying => 5
    case Shutting(_) => 4
    case Swapping(_) => 3
    case Notifying(_) => 2
    case Closing => 1
    case Done => 0
  }

  function StageRank(g: Stage): nat { if g == Dialing then 2 else if g == Reporting then 1 else 0 }

  function Rank(s: State): nat { StageRank(s.stage) + PhaseRank(s.up) + PhaseRank(s.down) + s.kicks }

  lemma StepsDescend(s: State, a: Action)
    requires Inv(s) && Enabled(s, a)
    ensures Rank(Next(s, a)) < Rank(s)
  {
  }

  /** A relay is over after at most sixteen steps. */
  lemma {:induction false} RelaysAreShort(p: Protocol, run: seq<Action>)
    requires Run(p, run)
    ensures |run| + Rank(After(p, run)) <= 16
  {
    if run != [] {
      InvRun(p, run[..|run| - 1]);
      RelaysAreShort(p, run[..|run| - 1]);
      StepsDescend(After(p, run[..|run| - 1]), run[|run| - 1]);
    }
  }

  // ----- which ends are closed when -----

  /** Does this step close this side?  A failure anywhere, and a copier's last step, close both; a copier whose payload
      ended well closes at most the side it wrote to, and that only if it cannot be half-closed. */
  predicate ClosesSide(s: State, a: Action, side: Side)
    requires Enabled(s, a)
  {
    match a
    case Dial(failed) => failed
    case Report(failed) => failed
    case Kick(failed) => failed
    case ShutEnds(d, how) =>
      PhaseOf(s, d).failed || how == HalfCloseFailed ||
      (how == ClosedWhole && ((d == Upload && side == Remote) || (d == Download && side == Local)))
    case CloseBoth(_) => true
    case _ => false
  }

  predicate HasClosed(p: Protocol, run: seq<Action>, side: Side)
    requires Run(p, run)
  {
    run != [] && (HasClosed(p, run[..|run| - 1], side) || ClosesSide(After(p, run[..|run| - 1]), run[|run| - 1], side))
  }

  lemma CloseStep(s: State, a: Action, side: Side)
    requires Enabled(s, a)
    ensures side in Next(s, a).closed <==> side in s.closed || ClosesSide(s, a, side)
  {
  }

  /** At every point of every run a side is closed exactly if some step has closed it: a half-close leaves it open. */
  lemma {:induction false} SideIsClosedIff(p: Protocol, run: seq<Action>, side: Side)
    requires Run(p, run)
    ensures side in After(p, run).closed <==> HasClosed(p, run, side)
  {
    if run != [] {
      SideIsClosedIff(p, run[..|run| - 1], side);
      CloseStep(After(p, run[..|run| - 1]), run[|run| - 1], side);
    }
  }

  // ----- which error the owner is told -----

  /** The copier of this direction ends with an error. */
  predicate CarriesError(run: seq<Action>, d: Direction) { Copied(d, true) in run || ShutEnds(d, HalfCloseFailed) in run }

  predicate GivesUp(a: Action) { a == Dial(true) || a == Report(true) || a == Kick(true) }

  /** The launch failed, or a kick did. */
  predicate Aborted(run: seq<Action>) { Dial(true) in run || Report(true) in run || Kick(true) in run }

  /** The order in which the copiers swapped the flag. */
  function Swappers(run: seq<Action>): seq<Direction> {
    if run == [] then []
    else Swappers(run[..|run| - 1]) + if run[|run| - 1].Swap? then [run[|run| - 1].d] else []
  }

  /** The swapper that tells: the second for TCP, the first for UDP. */
  function Teller(p: Protocol, swappers: seq<Direction>): Option<Direction> {
    if p == TCP then (if |swappers| == 2 then Some(swappers[1]) else None)
    else if swappers != [] then Some(swappers[0]) else None
  }

  /** A copier's phase agrees with what the run says about its error and its swap. */
  predicate Agrees(phase: Phase, error: bool, swapped: bool) {
    && (phase.Waiting? || phase.Copying? ==> !error)
    && (phase.Shutting? || phase.Swapping? || phase.Notifying? ==> phase.failed == error)
    && (swapped <==> PastSwap(phase))
  }

  predicate Swapped(swappers: seq<Direction>, d: Direction) {
    (|swappers| >= 1 && swappers[0] == d) || (|swappers| >= 2 && swappers[1] == d)
  }

  /** The books kept about who swapped and who ended with an error. */
  predicate Books(swappers: seq<Direction>, upError: bool, downError: bool, s: State) {
    var teller := Teller(s.protocol, swappers);
    && s.stage !in {DialFailed, ReportFailed}
    && |swappers| <= 2 && (|swappers| == 2 ==> swappers[0] != swappers[1])
    && Agrees(s.up, upError, Swapped(swappers, Upload)) && Agrees(s.down, downError, Swapped(swappers, Download))
    && (Owes(s.up) ==> teller == Some(Upload) && s.notified == [])
    && (Owes(s.down) ==> teller == Some(Download) && s.notified == [])
    && (s.notified != [] ==> teller.Some? && s.notified == [if teller == Some(Upload) then upError else downError])
  }

  /** What a run without a failure before the copiers has left behind. */
  predicate Story(run: seq<Action>, s: State) {
    Books(Swappers(run), CarriesError(run, Upload), CarriesError(run, Download), s)
  }

  /** Does this step leave the copier of this direction with an error? */
  predicate Breaks(a: Action, d: Direction) { a == Copied(d, true) || a == ShutEnds(d, HalfCloseFailed) }

  function SwapperOf(a: Action): seq<Direction> { if a.Swap? then [a.d] else [] }

  lemma Snoc(run: seq<Action>, a: Action)
    ensures Swappers(run + [a]) == Swappers(run) + SwapperOf(a)
    ensures CarriesError(run + [a], Upload) == (CarriesError(run, Upload) || Breaks(a, Upload))
    ensures CarriesError(run + [a], Download) == (CarriesError(run, Download) || Breaks(a, Download))
    ensures Aborted(run + [a]) <==> Aborted(run) || GivesUp(a)
  {
    assert (run + [a])[..|run|] == run;
  }

  lemma SwapBooks(swappers: seq<Direction>, upError: bool, downError: bool, s: State, d: Direction)
    requires Books(swappers, upError, downError, s) && Enabled(s, Swap(d))
    requires s.flag <==> PastSwap(s.up) || PastSwap(s.down)
    ensures Books(swappers + [d], upError, downError, Next(s, Swap(d)))
  {
    assert !Swapped(swappers, d);
    assert |swappers| <= 1;
  }

  lemma CopyBooks(swappers: seq<Direction>, upError: bool, downError: bool, s: State, a: Action)
    requires Books(swappers, upError, downError, s) && Enabled(s, a) && a.Copied?
    ensures Books(swappers, upError || Breaks(a, Upload), downError || Breaks(a, Download), Next(s, a))
  {
  }

  lemma ShutBooks(swappers: seq<Direction>, upError: bool, downError: bool, s: State, a: Action)
    requires Books(swappers, upError, downError, s) && Enabled(s, a) && a.ShutEnds?
    ensures Books(swappers, upError || Breaks(a, Upload), downError || Breaks(a, Download), Next(s, a))
  {
  }

  lemma EndBooks(swappers: seq<Direction>, upError: bool, downError: bool, s: State, a: Action)
    requires Books(swappers, upError, downError, s) && Enabled(s, a) && (a.Notify? || a.CloseBoth?)
    ensures Books(swappers, upError, downError, Next(s, a))
  {
  }

  lemma LaunchBooks(swappers: seq<Direction>, upError: bool, downError: bool, s: State, a: Action)
    requires Books(swappers, upError, downError, s) && Inv(s) && Enabled(s, a) && !GivesUp(a)
    requires a.Dial? || a.Report? || a.Kick?
    ensures Books(swappers, upError, downError, Next(s, a))
  {
  }

  lemma FlagTells(s: State, d: Direction)
    requires Inv(s) && Enabled(s, Swap(d))
    ensures s.flag <==> PastSwap(s.up) || PastSwap(s.down)
  {
  }

  lemma StepBooks(swappers: seq<Direction>, upError: bool, downError: bool, s: State, a: Action)
    requires Books(swappers, upError, downError, s) && Inv(s) && Enabled(s, a) && !GivesUp(a) && !a.Swap?
    ensures Books(swappers, upError || Breaks(a, Upload), downError || Breaks(a, Download), Next(s, a))
  {
    match a {
      case Copied(_, _) => CopyBooks(swappers, upError, downError, s, a);
      case ShutEnds(_, _) => ShutBooks(swappers, upError, downError, s, a);
      case Notify(_) => EndBooks(swappers, upError, downError, s, a);
      case CloseBoth(_) => EndBooks(swappers, upError, downError, s, a);
      case _ => LaunchBooks(swappers, upError, downError, s, a);
    }
  }

  lemma StoryStep(run: seq<Action>, s: State, a: Action)
    requires Story(run, s) && Inv(s) && Enabled(s, a) && !GivesUp(a)
    ensures Story(run + [a], Next(s, a))
  {
    Snoc(run, a);
    if a.Swap? {
      FlagTells(s, a.d);
      SwapBooks(Swappers(run), CarriesError(run, Upload), CarriesError(run, Download), s, a.d);
    } else {
      assert Swappers(run) + SwapperOf(a) == Swappers(run);
      StepBooks(Swappers(run), CarriesError(run, Upload), CarriesError(run, Download), s, a);
    }
  }

  predicate GivenUp(s: State, silent: bool) {
    && s.stage !in {Dialing, Reporting} && s.kicks == 0 && s.up.Done? && s.down.Done?
    && s.notified == if silent then [] else [true]
  }

  lemma AbortStep(s: State, a: Action)
    requires Inv(s) && Enabled(s, a) && GivesUp(a)
    ensures GivenUp(Next(s, a), s.protocol == UDP && a == Report(true))
  {
  }

  /** Nothing happens after a failed launch or kick. */
  lemma {:induction false} AbortedRun(p: Protocol, run: seq<Action>)
    requires Run(p, run) && Aborted(run)
    ensures GivenUp(After(p, run), p == UDP && Report(true) in run)
  {
    var n := |run| - 1;
    var s, a := After(p, run[..n]), run[n];
    assert run == run[..n] + [a];
    Snoc(run[..n], a);
    if Aborted(run[..n]) {
      AbortedRun(p, run[..n]);
      assert false;
    } else {
      InvRun(p, run[..n]);
      AbortStep(s, a);
    }
  }

  lemma {:induction false} StoryRun(p: Protocol, run: seq<Action>)
    requires Run(p, run) && !Aborted(run)
    ensures Story(run, After(p, run))
  {
    if run != [] {
      var n := |run| - 1;
      assert run == run[..n] + [run[n]];
      Snoc(run[..n], run[n]);
      StoryRun(p, run[..n]);
      InvRun(p, run[..n]);
      StoryStep(run[..n], After(p, run[..n]), run[n]);
    }
  }

  /** What the owner has been told when all is over: of a failed launch or kick, that it failed (or nothing, for a
      packet connection that could not be reported); otherwise whether the copier that swapped the flag second, for
      TCP, or first, for UDP, ended with an error.  Errors of the other copier are never told. */
  lemma ToldErrorIs(p: Protocol, run: seq<Action>)
    requires Run(p, run) && Finished(After(p, run))
    ensures
      var told := After(p, run).notified;
      if Aborted(run) then told == if p == UDP && Report(true) in run then [] else [true]
      else
        && |Swappers(run)| == 2 && Swappers(run)[0] != Swappers(run)[1]
        && told == [CarriesError(run, Swappers(run)[if p == TCP then 1 else 0])]
  {
    if Aborted(run) {
      AbortedRun(p, run);
    } else {
      StoryRun(p, run);
      InvRun(p, run);
      ClosedExactlyOnce(p, run);
    }
  }

  /** So a TCP relay whose upload failed is reported as clean when its download, cleanly over by then, swaps last. */
  lemma TcpReportsTheLastError() returns (run: seq<Action>)
    ensures Run(TCP, run) && CarriesError(run, Upload)
    ensures Finished(After(TCP, run)) && After(TCP, run).notified == [false]
  {
    run := [];
    run := Extend(run, Dial(false));
    run := Extend(run, Report(false));
    run := Extend(run, Kick(false));
    run := Extend(run, Kick(false));
    run := Extend(run, Copied(Upload, true));
    run := Extend(run, Copied(Download, false));
    run := Extend(run, ShutEnds(Download, HalfClosed));
    run := Extend(run, ShutEnds(Upload, HalfClosed));
    run := Extend(run, Swap(Upload));
    run := Extend(run, Swap(Download));
    run := Extend(run, Notify(Download));
    run := Extend(run, CloseBoth(Download));
    assert run[4] == Copied(Upload, true);
  }

  lemma Extend(run: seq<Action>, a: Action) returns (r: seq<Action>)
    requires Run(TCP, run) && Enabled(After(TCP, run), a)
    ensures r == run + [a] && Run(TCP, r) && After(TCP, r) == Next(After(TCP, run), a)
  {
    r := run + [a];
    assert r[..|run|] == run;
  }
}
