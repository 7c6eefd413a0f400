/**
  The daemon's log: a bounded list of the latest lines, and the subscription loop that drains
  queued entries into batches, where a nil entry stands for a reset.

  Writing a line or a reset is two atomic steps: the list is changed under the lock, and only
  afterwards is the entry emitted to the subscribers.  Any number of writers interleave.
 */
module LogStream {
  import opened Wrappers

  /** The entry object of one written line, numbered in the order of the pushes. */
  type Line = nat
  type Writer = nat

  /** None is the nil entry that a reset emits. */
  type Entry = Option<Line>

  /** One message to the client: forget everything first if "reset", then append the lines. */
  datatype Batch = Batch(reset: bool, lines: seq<Line>)

  /** The lines since the last reset: what the log means. */
  function Since(entries: seq<Entry>): seq<Line> {
    if entries == [] then []
    else
      var e := entries[|entries| - 1];
      if e.None? then [] else Since(entries[..|entries| - 1]) + [e.value]
  }

  function LastOf(lines: seq<Line>, max: int): seq<Line> {
    var keep := if max < 0 then 0 else max;
    if |lines| <= keep then lines else lines[|lines| - keep..]
  }

  // ----- writers -----

  /** "history" lists what was pushed, "emitted" which pushes were emitted so far, and "pending" holds the push
      that a writer has made and not emitted yet. */
  datatype State = State(history: seq<Entry>, pending: map<Writer, nat>, emitted: seq<nat>)

  const INIT := State([], map[], [])

  datatype Action = Push(w: Writer, reset: bool) | Emit(w: Writer)

  predicate Enabled(s: State, a: Action) { if a.Push? then a.w !in s.pending else a.w in s.pending }

  function Next(s: State, a: Action): State
    requires Enabled(s, a)
  {
    match a
    case Push(w, reset) =>
      s.(history := s.history + [if reset then None else Some(|s.history|)], pending := s.pending[w := |s.history|])
    case Emit(w) => s.(emitted := s.emitted + [s.pending[w]], pending := s.pending - {w})
  }

  // ----- the program's own form -----

  class LogBuffer {
    const maxLines: int
    var lines: seq<Line>
    var pushes: nat
    ghost var history: seq<Entry>
    ghost var pending: map<Writer, nat>
    ghost var emitted: seq<nat>

    ghost function Abs(): State
      reads this
    {
      State(history, pending, emitted)
    }

    ghost predicate Valid()
      reads this
    {
      lines == LastOf(Since(history), maxLines) && pushes == |history|
    }

    constructor (maxLines: int)
      ensures Valid() && this.maxLines == maxLines && Abs() == INIT && lines == []
    {
      this.maxLines, lines, pushes, history, pending, emitted := maxLines, [], 0, [], map[], [];
    }

    /** Outside the lock, a writer's entry goes to the subscribers. */
    ghost method Emit(w: Writer)
      requires Valid() && Enabled(Abs(), Action.Emit(w))
      modifies this`pending, this`emitted
      ensures Valid() && Abs() == Next(old(Abs()), Action.Emit(w))
    {
      emitted, pending := emitted + [pending[w]], pending - {w};
    }

    /** The locked part of a reset. */
    method ResetLogs(w: Writer)
      requires Valid() && Enabled(Abs(), Push(w, true))
      modifies this
      ensures Valid() && Abs() == Next(old(Abs()), Push(w, true)) && lines == []
    {
      lines := [];
      pending := pending[w := |history|];
      history := history + [None];
      pushes := pushes + 1;
    }

    /** The locked part of writing a line: dropping one line from the front whenever the list is too long keeps
        exactly the latest ones. */
    method WriteMessage(w: Writer) returns (line: Line)
      requires Valid() && Enabled(Abs(), Push(w, false))
      modifies this
      ensures Valid() && Abs() == Next(old(Abs()), Push(w, false)) && history == old(history) + [Some(line)]
    {
      line := pushes;
      lines := lines + [line];
      if |lines| > maxLines {
        lines := lines[1..];
      }
      pushes := pushes + 1;
      pending := pending[w := |history|];
      history := history + [Some(line)];
      assert history[..|history| - 1] == old(history);
    }
  }

  // ----- the client -----

  function Show(view: seq<Line>, b: Batch): seq<Line> { (if b.reset then [] else view) + b.lines }

  function ShowAll(view: seq<Line>, bs: seq<Batch>): seq<Line> {
    if bs == [] then view else Show(ShowAll(view, bs[..|bs| - 1]), bs[|bs| - 1])
  }

  /** What a client would show if it were sent every entry on its own. */
  function Apply(view: seq<Line>, entries: seq<Entry>): seq<Line> {
    if entries == [] then view
    else
      var e := entries[|entries| - 1];
      if e.None? then [] else Apply(view, entries[..|entries| - 1]) + [e.value]
  }

  /** One round of the loop: the entry received, and whatever else is queued by then. */
  method DrainRound(first: Entry, queued: seq<Entry>) returns (b: Batch)
    ensures forall view :: Show(view, b) == Apply(view, [first] + queued)
    ensures b.reset <==> None in [first] + queued
  {
    var lines: seq<Line> := [];
    var reset := false;
    if first.None? {
      reset := true;
    } else {
      lines := lines + [first.value];
    }
    var i := 0;
    assert [first][..0] == [];
    assert forall view :: Apply(view, [first]) == if first.None? then [] else Apply(view, [first][..0]) + [first.value];
    assert [first] + queued[..0] == [first];
    while i < |queued|
      invariant 0 <= i <= |queued|
      invariant forall view :: Show(view, Batch(reset, lines)) == Apply(view, [first] + queued[..i])
      invariant reset <==> None in [first] + queued[..i]
    {
      var e := queued[i];
      ghost var sofar := [first] + queued[..i];
      assert [first] + queued[..i + 1] == sofar + [e];
      assert (sofar + [e])[..|sofar|] == sofar;
      if e.None? {
        lines := [];
        reset := true;
      } else {
        lines := lines + [e.value];
      }
      i := i + 1;
    }
    assert queued[..i] == queued;
    b := Batch(reset, lines);
  }

  /** The entries as they were cut into rounds. */
  function Flatten(rounds: seq<seq<Entry>>): seq<Entry> {
    if rounds == [] then [] else Flatten(rounds[..|rounds| - 1]) + rounds[|rounds| - 1]
  }

  lemma {:induction false} ApplyConcat(view: seq<Line>, a: seq<Entry>, b: seq<Entry>)
    ensures Apply(view, a + b) == Apply(Apply(view, a), b)
  {
    if b == [] {
      assert a + b == a;
    } else {
      assert (a + b)[..|a + b| - 1] == a + b[..|b| - 1];
      ApplyConcat(view, a, b[..|b| - 1]);
    }
  }

  lemma {:induction false} ApplySince(view: seq<Line>, entries: seq<Entry>)
    ensures Apply(view, entries) == if None in entries then Since(entries) else view + Since(entries)
  {
    if entries != [] {
      ApplySince(view, entries[..|entries| - 1]);
      assert entries == entries[..|entries| - 1] + [entries[|entries| - 1]];
    }
  }

  /** However the entries are cut into rounds, a client that starts from the saved lines shows the lines since
      the last reset, after the saved ones if there was none. */
  lemma {:induction false} BatchingIsInvisible(saved: seq<Line>, rounds: seq<seq<Entry>>, batches: seq<Batch>)
    requires |rounds| == |batches|
    requires forall i :: 0 <= i < |rounds| ==> forall view :: Show(view, batches[i]) == Apply(view, rounds[i])
    ensures ShowAll(saved, batches) ==
      if None in Flatten(rounds) then Since(Flatten(rounds)) else saved + Since(Flatten(rounds))
  {
    ShowAllIsApply(saved, rounds, batches);
    ApplySince(saved, Flatten(rounds));
  }

  lemma {:induction false} ShowAllIsApply(saved: seq<Line>, rounds: seq<seq<Entry>>, batches: seq<Batch>)
    requires |rounds| == |batches|
    requires forall i :: 0 <= i < |rounds| ==> forall view :: Show(view, batches[i]) == Apply(view, rounds[i])
    ensures ShowAll(saved, batches) == Apply(saved, Flatten(rounds))
  {
    if rounds != [] {
      var n := |rounds| - 1;
      ShowAllIsApply(saved, rounds[..n], batches[..n]);
      ApplyConcat(saved, Flatten(rounds[..n]), rounds[n]);
    }
  }

  lemma {:induction false} SinceIsApply(entries: seq<Entry>)
    ensures Apply([], entries) == Since(entries)
  {
    if entries != [] {
      SinceIsApply(entries[..|entries| - 1]);
    }
  }

  lemma LastOfTail(a: seq<Line>, b: seq<Line>, max: int)
    ensures LastOf(LastOf(a, max) + b, max) == LastOf(a + b, max)
  {
    var keep := if max < 0 then 0 else max;
    if |a| > keep {
      assert a == a[..|a| - keep] + LastOf(a, max);
    }
  }

  /** A client that got the saved lines and then, in their order, every entry pushed since shows, in its last
      lines, exactly the server's buffer. */
  lemma ClientTailIsBuffer(history: seq<Entry>, later: seq<Entry>, max: int)
    ensures LastOf(Apply(LastOf(Since(history), max), later), max) == LastOf(Since(history + later), max)
  {
    var saved := LastOf(Since(history), max);
    SinceIsApply(history);
    SinceIsApply(history + later);
    ApplyConcat([], history, later);
    ApplySince(saved, later);
    ApplySince(Since(history), later);
    LastOfTail(Since(history), Since(later), max);
  }

  // ----- subscribing while others write -----

  predicate Run(run: seq<Action>)
    decreases |run|, 0
  {
    run == [] || (Run(run[..|run| - 1]) && Enabled(After(run[..|run| - 1]), run[|run| - 1]))
  }

  function After(run: seq<Action>): State
    requires Run(run)
    decreases |run|, 1
  {
    if run == [] then INIT else Next(After(run[..|run| - 1]), run[|run| - 1])
  }

  predicate Waits(s: State, k: nat) { exists w :: w in s.pending && s.pending[w] == k }

  /** Every push is pending or emitted, none twice. */
  ghost predicate Inv(s: State) {
    && (forall k :: 0 <= k < |s.history| ==> s.history[k] == None || s.history[k] == Some(k))
    && (forall i :: 0 <= i < |s.emitted| ==> s.emitted[i] < |s.history|)
    && (forall w :: w in s.pending ==> s.pending[w] < |s.history|)
    && (forall k: nat :: k < |s.history| ==> k in s.emitted || Waits(s, k))
    && |s.emitted| + |s.pending| == |s.history|
  }

  lemma PushCovers(s: State, w: Writer, reset: bool)
    requires Inv(s) && Enabled(s, Push(w, reset))
    ensures Inv(Next(s, Push(w, reset)))
  {
    var t := Next(s, Push(w, reset));
    assert t.pending.Keys == s.pending.Keys + {w};
    assert |t.pending| == |s.pending| + 1;
    assert t.pending[w] == |s.history| && Waits(t, |s.history|);
    forall k: nat | Waits(s, k) ensures Waits(t, k) {
      var v :| v in s.pending && s.pending[v] == k;
      assert t.pending[v] == k;
    }
  }

  lemma EmitCovers(s: State, w: Writer)
    requires Inv(s) && Enabled(s, Emit(w))
    ensures Inv(Next(s, Emit(w)))
  {
    var t := Next(s, Emit(w));
    assert t.pending.Keys == s.pending.Keys - {w};
    assert t.emitted[|s.emitted|] == s.pending[w];
    forall k: nat | Waits(s, k) && k != s.pending[w] ensures Waits(t, k) {
      var v :| v in s.pending && s.pending[v] == k;
      assert t.pending[v] == k;
    }
  }

  lemma InvStep(s: State, a: Action)
    requires Inv(s) && Enabled(s, a)
    ensures Inv(Next(s, a))
  {
    match a {
      case Push(w, reset) => PushCovers(s, w, reset);
      case Emit(w) => EmitCovers(s, w);
    }
  }

  lemma {:induction false} InvRun(run: seq<Action>)
    requires Run(run)
    ensures Inv(After(run))
  {
    if run != [] {
      InvRun(run[..|run| - 1]);
      InvStep(After(run[..|run| - 1]), run[|run| - 1]);
    }
  }

  /** A later state only adds to what was pushed and emitted. */
  lemma {:induction false} RunGrows(run: seq<Action>, ext: seq<Action>)
    requires Run(run) && Run(run + ext)
    ensures After(run).history <= After(run + ext).history && After(run).emitted <= After(run + ext).emitted
  {
    if ext == [] {
      assert run + ext == run;
    } else {
      assert (run + ext)[..|run + ext| - 1] == run + ext[..|ext| - 1];
      RunGrows(run, ext[..|ext| - 1]);
    }
  }

  /** What a client that subscribed after "run" is sent during "ext", in the order of the emissions. */
  function SentSince(run: seq<Action>, ext: seq<Action>): seq<nat>
    requires Run(run) && Run(run + ext)
  {
    RunGrows(run, ext);
    After(run + ext).emitted[|After(run).emitted|..]
  }

  function EntriesOf(history: seq<Entry>, pushes: seq<nat>): seq<Entry> {
    seq(|pushes|, i requires 0 <= i < |pushes| => if pushes[i] < |history| then history[pushes[i]] else None)
  }

  function Numbers(from: nat, to: nat): seq<nat>
    requires from <= to
  {
    seq(to - from, i requires 0 <= i < to - from => from + i)
  }

  ghost predicate Increasing(s: seq<nat>) { forall i, j :: 0 <= i < j < |s| ==> s[i] < s[j] }

  lemma TailOf(front: seq<nat>, back: seq<nat>, max: int)
    requires |back| < max
    ensures
      var tail := LastOf(front + back, max);
      && |tail| >= |back| && tail[|tail| - |back|..] == back
      && (front == [] ==> |tail| == |back|)
      && (front != [] ==> |tail| > |back| && tail[|tail| - |back| - 1] == front[|front| - 1])
  {
    var all := front + back;
    assert all[|all| - |back|..] == back;
  }

  /** Everything hangs on this: a client that starts from the end of "seen" and adds "sent" has the same last
      lines as "seen" and "pushed", exactly when "sent" is "pushed", if there is room for all that is sent. */
  lemma SameTailIff(seen: seq<nat>, pushed: seq<nat>, sent: seq<nat>, max: int)
    requires Increasing(seen + pushed) && |pushed| <= |sent| < max
    ensures LastOf(LastOf(seen, max) + sent, max) == LastOf(seen + pushed, max) <==> sent == pushed
  {
    LastOfTail(seen, sent, max);
    TailOf(seen, sent, max);
    var n, all := |sent|, seen + pushed;
    if |sent| == |pushed| {
      TailOf(seen, pushed, max);
    } else if |all| > n {
      var front, back := all[..|all| - n], all[|all| - n..];
      assert all == front + back;
      TailOf(front, back, max);
      assert front[|front| - 1] == all[|all| - n - 1] < all[|seen| - 1] == seen[|seen| - 1];
    }
  }

  predicate Numbered(history: seq<Entry>) {
    forall k :: 0 <= k < |history| ==> history[k] == None || history[k] == Some(k)
  }

  lemma {:induction false} SinceIncreases(history: seq<Entry>)
    requires Numbered(history)
    ensures Increasing(Since(history))
    ensures forall i :: 0 <= i < |Since(history)| ==> Since(history)[i] < |history|
  {
    if history != [] {
      SinceIncreases(history[..|history| - 1]);
    }
  }

  lemma SinceConcat(a: seq<Entry>, b: seq<Entry>)
    ensures Since(a + b) == if None in b then Since(b) else Since(a) + Since(b)
  {
    SinceIsApply(a);
    SinceIsApply(a + b);
    ApplyConcat([], a, b);
    ApplySince(Since(a), b);
  }

  /** The pushes behind the last reset among them. */
  function Behind(history: seq<Entry>, pushes: seq<nat>): seq<nat> {
    if pushes == [] then []
    else
      var k := pushes[|pushes| - 1];
      if k >= |history| || history[k] == None then [] else Behind(history, pushes[..|pushes| - 1]) + [k]
  }

  lemma EntriesSnoc(history: seq<Entry>, pushes: seq<nat>)
    requires pushes != []
    ensures EntriesOf(history, pushes)[..|pushes| - 1] == EntriesOf(history, pushes[..|pushes| - 1])
  {
  }

  lemma {:induction false} SinceIsBehind(history: seq<Entry>, pushes: seq<nat>)
    requires Numbered(history)
    ensures Since(EntriesOf(history, pushes)) == Behind(history, pushes)
    ensures |Behind(history, pushes)| <= |pushes|
    ensures None !in EntriesOf(history, pushes) ==> Behind(history, pushes) == pushes
  {
    if pushes != [] {
      var n := |pushes| - 1;
      var all, before := EntriesOf(history, pushes), EntriesOf(history, pushes[..n]);
      EntriesSnoc(history, pushes);
      assert all == before + [all[n]];
      SinceIsBehind(history, pushes[..n]);
    }
  }

  lemma EntriesFrom(history: seq<Entry>, from: nat)
    requires from <= |history|
    ensures EntriesOf(history, Numbers(from, |history|)) == history[from..]
  {
  }

  lemma SinceSplit(history: seq<Entry>, from: nat)
    requires from <= |history|
    ensures Since(history) ==
      if None in history[from..] then Since(history[from..]) else Since(history[..from]) + Since(history[from..])
  {
    var front, back := history[..from], history[from..];
    assert front + back == history;
    SinceConcat(front, back);
  }

  lemma SinceFrom(history: seq<Entry>, from: nat)
    requires Numbered(history) && from <= |history| && None !in history[from..]
    ensures Since(history[from..]) == Numbers(from, |history|)
  {
    EntriesFrom(history, from);
    SinceIsBehind(history, Numbers(from, |history|));
  }

  /** "seen" was pushed before the client came, "all" in the end; "sent" was emitted to it, among that all that
      was pushed since. */
  predicate Delivered(seen: seq<Entry>, all: seq<Entry>, sent: seq<nat>) {
    && Numbered(all) && seen <= all
    && (forall i :: 0 <= i < |sent| ==> sent[i] < |all|)
    && (forall k: nat :: |seen| <= k < |all| ==> k in sent)
    && |sent| >= |all| - |seen|
  }

  function ShownAfter(seen: seq<Entry>, all: seq<Entry>, sent: seq<nat>, max: int): seq<Line> {
    LastOf(Apply(LastOf(Since(seen), max), EntriesOf(all, sent)), max)
  }

  lemma NoResetPushed(seen: seq<Entry>, all: seq<Entry>, sent: seq<nat>)
    requires Delivered(seen, all, sent) && None !in EntriesOf(all, sent)
    ensures None !in all[|seen|..]
  {
    forall k: nat | |seen| <= k < |all| ensures all[k] != None {
      assert k in sent;
      var i :| 0 <= i < |sent| && sent[i] == k;
      assert EntriesOf(all, sent)[i] == all[k];
    }
    assert forall k :: 0 <= k < |all[|seen|..]| ==> all[|seen|..][k] == all[|seen| + k];
  }

  lemma LinesShownIff(seen: seq<Entry>, all: seq<Entry>, sent: seq<nat>, max: int)
    requires Delivered(seen, all, sent) && None !in EntriesOf(all, sent) && max > |sent|
    ensures ShownAfter(seen, all, sent, max) == LastOf(Since(all), max) <==> sent == Numbers(|seen|, |all|)
  {
    NoResetPushed(seen, all, sent);
    ApplySince(LastOf(Since(seen), max), EntriesOf(all, sent));
    SinceIsBehind(all, sent);
    SinceFrom(all, |seen|);
    SinceSplit(all, |seen|);
    assert all[..|seen|] == seen;
    SinceIncreases(all);
    SameTailIff(Since(seen), Numbers(|seen|, |all|), sent, max);
  }

  lemma TailOfBack(front: seq<Line>, back: seq<Line>, max: int)
    requires max <= |back|
    ensures LastOf(front + back, max) == LastOf(back, max)
  {
  }

  /** What a client was sent decides alone, if there was a reset among it or it is as much as the limit. */
  lemma SentDecides(seen: seq<Entry>, all: seq<Entry>, sent: seq<nat>, max: int)
    requires Numbered(all) && (None in EntriesOf(all, sent) || max <= |sent|)
    ensures ShownAfter(seen, all, sent, max) == LastOf(Behind(all, sent), max)
  {
    ApplySince(LastOf(Since(seen), max), EntriesOf(all, sent));
    SinceIsBehind(all, sent);
    if None !in EntriesOf(all, sent) {
      TailOfBack(LastOf(Since(seen), max), sent, max);
    }
  }

  lemma BufferIsBehind(all: seq<Entry>, max: int)
    requires Numbered(all)
    ensures LastOf(Since(all), max) == LastOf(Behind(all, Numbers(0, |all|)), max)
  {
    EntriesFrom(all, 0);
    SinceIsBehind(all, Numbers(0, |all|));
  }

  /** What the client shows at the end, and what the server keeps. */
  function Shown(run: seq<Action>, ext: seq<Action>, max: int): seq<Line>
    requires Run(run) && Run(run + ext)
  {
    ShownAfter(After(run).history, After(run + ext).history, SentSince(run, ext), max)
  }

  function Buffer(run: seq<Action>, max: int): seq<Line>
    requires Run(run)
  {
    LastOf(Since(After(run).history), max)
  }

  lemma PushedIsSent(run: seq<Action>, ext: seq<Action>)
    requires Run(run) && Run(run + ext) && After(run + ext).pending == map[]
    ensures Delivered(After(run).history, After(run + ext).history, SentSince(run, ext))
    ensures |SentSince(run, ext)| == |After(run).pending| + |After(run + ext).history| - |After(run).history|
    ensures |After(run).pending| == |After(run).history| - |After(run).emitted|
    ensures |After(run + ext).emitted| == |After(run + ext).history|
  {
    InvRun(run);
    InvRun(run + ext);
    RunGrows(run, ext);
    var s, t := After(run), After(run + ext);
    forall k: nat | |s.history| <= k < |t.history| ensures k in SentSince(run, ext) {
      assert k in t.emitted;
      var i :| 0 <= i < |t.emitted| && t.emitted[i] == k;
      assert i < |s.emitted| ==> s.emitted[i] == k;
    }
  }

  /** A client that subscribes at any moment, and then gets every entry emitted until nobody is between push and
      emission, at any limit and in any order of emission.  If a reset was emitted since, or as many entries as the
      server keeps, it ends with the server's lines exactly when what was emitted behind the last emitted reset and
      what was pushed behind the last pushed one end alike; otherwise exactly when nobody was between push and
      emission as it subscribed and all pushes since were emitted in order. */
  lemma SubscriberIsRightIff(run: seq<Action>, ext: seq<Action>, max: int)
    requires Run(run) && Run(run + ext) && After(run + ext).pending == map[]
    ensures |After(run).history| <= |After(run + ext).history|
    ensures
      var h, sent := After(run + ext).history, SentSince(run, ext);
      Shown(run, ext, max) == Buffer(run + ext, max) <==>
      if None in EntriesOf(h, sent) || max <= |sent|
      then LastOf(Behind(h, sent), max) == LastOf(Behind(h, Numbers(0, |h|)), max)
      else After(run).pending == map[] && sent == Numbers(|After(run).history|, |h|)
  {
    PushedIsSent(run, ext);
    var s, h, sent := After(run), After(run + ext).history, SentSince(run, ext);
    if None in EntriesOf(h, sent) || max <= |sent| {
      SentDecides(s.history, h, sent, max);
      BufferIsBehind(h, max);
    } else {
      LinesShownIff(s.history, h, sent, max);
      assert |Numbers(|s.history|, |h|)| == |h| - |s.history|;
    }
  }

  lemma BehindFrom(all: seq<Entry>, from: nat, max: int)
    requires Numbered(all) && from <= |all| && (None in all[from..] || max <= |all| - from)
    ensures LastOf(Behind(all, Numbers(from, |all|)), max) == LastOf(Behind(all, Numbers(0, |all|)), max)
  {
    BufferIsBehind(all, max);
    EntriesFrom(all, from);
    SinceIsBehind(all, Numbers(from, |all|));
    SinceSplit(all, from);
    if None !in all[from..] {
      TailOfBack(Since(all[..from]), Numbers(from, |all|), max);
    }
  }

  lemma RestOfNumbers(from: nat, to: nat)
    requires from <= to
    ensures Numbers(0, to)[from..] == Numbers(from, to)
  {
  }

  lemma InOrderIsSent(run: seq<Action>, ext: seq<Action>)
    requires Run(run) && Run(run + ext) && After(run + ext).pending == map[]
    requires After(run + ext).emitted == Numbers(0, |After(run + ext).emitted|)
    ensures
      var p, e, h := |After(run).history|, |After(run).emitted|, After(run + ext).history;
      && Numbered(h) && e <= p <= |h| && SentSince(run, ext) == Numbers(e, |h|)
      && EntriesOf(h, SentSince(run, ext)) == h[e..]
      && (After(run).pending == map[] <==> e == p)
  {
    PushedIsSent(run, ext);
    RunGrows(run, ext);
    var e, h := |After(run).emitted|, After(run + ext).history;
    RestOfNumbers(e, |h|);
    EntriesFrom(h, e);
    assert |After(run).pending| == 0 <==> After(run).pending == map[];
  }

  /** If entries are emitted in the order they were pushed, the client ends with the server's lines, at any limit,
      exactly when nobody was between push and emission when it subscribed, or a reset was emitted since, or as
      many entries were emitted since as the server keeps. */
  lemma InOrderSubscriberIsRightIff(run: seq<Action>, ext: seq<Action>, max: int)
    requires Run(run) && Run(run + ext) && After(run + ext).pending == map[]
    requires After(run + ext).emitted == Numbers(0, |After(run + ext).emitted|)
    ensures Shown(run, ext, max) == Buffer(run + ext, max) <==>
      || After(run).pending == map[]
      || None in EntriesOf(After(run + ext).history, SentSince(run, ext))
      || max <= |SentSince(run, ext)|
  {
    InOrderIsSent(run, ext);
    SubscriberIsRightIff(run, ext, max);
    var h, sent := After(run + ext).history, SentSince(run, ext);
    if None in EntriesOf(h, sent) || max <= |sent| {
      BehindFrom(h, |After(run).emitted|, max);
    }
  }

  lemma OneMore(run: seq<Action>, a: Action)
    requires Run(run) && Enabled(After(run), a)
    ensures Run(run + [a]) && After(run + [a]) == Next(After(run), a)
  {
    assert (run + [a])[..|run|] == run;
  }

  /** Subscribing between the two steps of a write shows its line twice. */
  lemma SubscribingDuringAWriteRepeatsIt() returns (run: seq<Action>, ext: seq<Action>)
    ensures Run(run) && Run(run + ext) && After(run + ext).pending == map[]
    ensures Shown(run, ext, 10) == [0, 0] && Buffer(run + ext, 10) == [0]
  {
    run, ext := [Push(0, false)], [Emit(0)];
    assert [] + [Push(0, false)] == run;
    OneMore([], Push(0, false));
    assert After(run) == State([Some(0)], map[0 := 0], []);
    OneMore(run, Emit(0));
    assert After(run + ext) == State([Some(0)], map[], [0]);
    var h := After(run).history;
    assert h == [Some(0)] && h[..0] == [] && Since(h) == [0];
    assert SentSince(run, ext) == [0];
    var later := EntriesOf(h, [0]);
    assert later == [Some(0)] && later[..0] == [];
    assert Apply([0], later) == Apply([0], later[..0]) + [0];
  }

  /** Two writes that overtake each other are shown in the wrong order. */
  lemma OvertakingWritesAreSwapped() returns (run: seq<Action>)
    ensures Run(run) && Run([] + run) && After([] + run).pending == map[]
    ensures Shown([], run, 10) != Buffer([] + run, 10)
  {
    var r1 := [Push(0, false)];
    var r2 := r1 + [Push(1, false)];
    var r3 := r2 + [Emit(1)];
    run := r3 + [Emit(0)];
    assert [] + r1 == r1 && [] + run == run;
    OneMore([], Push(0, false));
    assert After(r1) == State([Some(0)], map[0 := 0], []);
    OneMore(r1, Push(1, false));
    assert After(r2) == State([Some(0), Some(1)], map[0 := 0, 1 := 1], []);
    OneMore(r2, Emit(1));
    OneMore(r3, Emit(0));
    assert After(run) == State([Some(0), Some(1)], map[], [1, 0]);
    var sent := SentSince([], run);
    assert sent == [1, 0] && sent[0] == 1 && Numbers(0, 2)[0] == 0;
    assert EntriesOf(After(run).history, sent) == [Some(1), Some(0)];
    SubscriberIsRightIff([], run, 10);
  }
}
