/**
  The lock of the DNS client's cache: the first query for a question leads, the others
  wait on its channel, and the leader deletes the entry and closes the channel on return.

  Any number of queries interleave; each action below is one atomic step of one query.
  Expiry and eviction may empty the cache at any time.
 */
module QueryLock {
  import opened Wrappers

  type Caller = nat
  type Question = nat
  type Tag = nat
  type Chan = nat
  type Answer = nat

  datatype Key = Key(question: Question, transport: Option<Tag>)

  /** A leader carries the channel it has to close. */
  datatype Phase =
    | Waiting(q: Question, tag: Tag, ch: Chan)
    | Loading(q: Question, tag: Tag, lead: Option<Chan>)
    | Missed(q: Question, tag: Tag, lead: Option<Chan>)
    | Querying(q: Question, tag: Tag, lead: Option<Chan>)
    | Returning(q: Question, lead: Option<Chan>, answer: Option<Answer>, asked: bool)
    | Unlocking(q: Question, ch: Chan, answer: Option<Answer>, asked: bool)
    | Finished(answer: Option<Answer>, asked: bool)
  {
    /** The channel of a query whose entry is in the lock map. */
    function Lead(): Option<Chan> {
      match this
      case Waiting(_, _, _) => None
      case Loading(_, _, lead) => lead
      case Missed(_, _, lead) => lead
      case Querying(_, _, lead) => lead
      case Returning(_, lead, _, _) => lead
      case Unlocking(_, _, _, _) => None
      case Finished(_, _) => None
    }

    /** The channel this query still has to close. */
    function Holds(): Option<Chan> { if Unlocking? then Some(ch) else Lead() }

    function Rank(): nat {
      match this
      case Waiting(_, _, _) => 6
      case Loading(_, _, _) => 5
      case Missed(_, _, _) => 4
      case Querying(_, _, _) => 3
      case Returning(_, _, _, _) => 2
      case Unlocking(_, _, _, _) => 1
      case Finished(_, _) => 0
    }
  }

  /** What a channel was made for, and by whom. */
  datatype Topic = Topic(q: Question, maker: Caller)

  /** "topics" has one entry for each channel ever put into the lock; the channel is its index. */
  datatype State = State(
    lock: map<Question, Chan>,
    topics: seq<Topic>,
    closeLog: seq<Chan>,
    cache: map<Key, Answer>,
    calls: map<Caller, Phase>,
    sent: seq<Question>)

  const INIT := State(map[], [], [], map[], map[], [])

  datatype Action =
    | Arrive(c: Caller, q: Question, tag: Tag)
    | Resume(c: Caller)
    | Cancel(c: Caller)
    | Load(c: Caller)
    | GiveUp(c: Caller)
    | Send(c: Caller)
    | Receive(c: Caller, answer: Option<Answer>, store: bool)
    | Delete(c: Caller)
    | Close(c: Caller)
    | Return(c: Caller)
    | Evict(key: Key)

  function KeyOf(independent: bool, q: Question, tag: Tag): Key { Key(q, if independent then Some(tag) else None) }

  predicate Enabled(s: State, a: Action) {
    match a
    case Arrive(c, _, _) => c !in s.calls
    case Resume(c) => c in s.calls && s.calls[c].Waiting? && s.calls[c].ch in s.closeLog
    case Cancel(c) => c in s.calls && s.calls[c].Waiting?
    case Load(c) => c in s.calls && s.calls[c].Loading?
    case GiveUp(c) => c in s.calls && s.calls[c].Missed?
    case Send(c) => c in s.calls && s.calls[c].Missed?
    case Receive(c, _, _) => c in s.calls && s.calls[c].Querying?
    case Delete(c) => c in s.calls && s.calls[c].Returning? && s.calls[c].lead.Some?
    case Close(c) => c in s.calls && s.calls[c].Unlocking?
    case Return(c) => c in s.calls && s.calls[c].Returning? && s.calls[c].lead.None?
    case Evict(_) => true
  }

  function Next(independent: bool, s: State, a: Action): State
    requires Enabled(s, a)
  {
    match a
    case Arrive(c, q, tag) =>
      if q in s.lock then s.(calls := s.calls[c := Waiting(q, tag, s.lock[q])])
      else
        var ch := |s.topics|;
        s.(lock := s.lock[q := ch], topics := s.topics + [Topic(q, c)], calls := s.calls[c := Loading(q, tag, Some(ch))])
    case Resume(c) =>
      s.(calls := s.calls[c := Loading(s.calls[c].q, s.calls[c].tag, None)])
    case Cancel(c) =>
      s.(calls := s.calls[c := Finished(None, false)])
    case Load(c) =>
      var p := s.calls[c];
      var key := KeyOf(independent, p.q, p.tag);
      s.(calls := s.calls[c := if key in s.cache then Returning(p.q, p.lead, Some(s.cache[key]), false)
                               else Missed(p.q, p.tag, p.lead)])
    case GiveUp(c) =>
      s.(calls := s.calls[c := Returning(s.calls[c].q, s.calls[c].lead, None, false)])
    case Send(c) =>
      s.(calls := s.calls[c := Querying(s.calls[c].q, s.calls[c].tag, s.calls[c].lead)], sent := s.sent + [s.calls[c].q])
    case Receive(c, answer, store) =>
      var p := s.calls[c];
      s.(calls := s.calls[c := Returning(p.q, p.lead, answer, true)],
         cache := if store && answer.Some? then s.cache[KeyOf(independent, p.q, p.tag) := answer.value] else s.cache)
    case Delete(c) =>
      var p := s.calls[c];
      s.(lock := s.lock - {p.q}, calls := s.calls[c := Unlocking(p.q, p.lead.value, p.answer, p.asked)])
    case Close(c) =>
      var p := s.calls[c];
      s.(closeLog := s.closeLog + [p.ch], calls := s.calls[c := Finished(p.answer, p.asked)])
    case Return(c) =>
      s.(calls := s.calls[c := Finished(s.calls[c].answer, s.calls[c].asked)])
    case Evict(key) => s.(cache := s.cache - {key})
  }

  // ----- the program's own form -----

  /** The lock map and the channels of one client; where each query stands is ghost. */
  class CacheLock {
    const independent: bool
    var lock: map<Question, Chan>
    var made: nat
    var closeLog: seq<Chan>
    var cache: map<Key, Answer>
    ghost var topics: seq<Topic>
    ghost var calls: map<Caller, Phase>
    ghost var sent: seq<Question>

    ghost function Abs(): State
      reads this
    {
      State(lock, topics, closeLog, cache, calls, sent)
    }

    ghost predicate Valid()
      reads this
    {
      made == |topics|
    }

    constructor (independent: bool)
      ensures Valid() && Abs() == INIT && this.independent == independent
    {
      this.independent, lock, made, closeLog, cache := independent, map[], 0, [], map[];
      topics, calls, sent := [], map[], [];
    }

    /** sync.Map's LoadOrStore of a fresh channel: "loaded" tells a waiter from a leader. */
    method LoadOrStore(c: Caller, q: Question, tag: Tag) returns (ch: Chan, loaded: bool)
      requires Valid() && Enabled(Abs(), Arrive(c, q, tag))
      modifies this
      ensures Valid() && Abs() == Next(independent, old(Abs()), Arrive(c, q, tag))
      ensures loaded == (q in old(lock)) && q in lock && lock[q] == ch
    {
      loaded := q in lock;
      if loaded {
        ch := lock[q];
        calls := calls[c := Waiting(q, tag, ch)];
      } else {
        ch := made;
        made := made + 1;
        lock := lock[q := ch];
        topics := topics + [Topic(q, c)];
        calls := calls[c := Loading(q, tag, Some(ch))];
      }
    }

    method LoadResponse(c: Caller, q: Question, tag: Tag) returns (hit: Option<Answer>)
      requires Valid() && Enabled(Abs(), Load(c)) && calls[c].q == q && calls[c].tag == tag
      modifies this
      ensures Valid() && Abs() == Next(independent, old(Abs()), Load(c))
      ensures hit == if KeyOf(independent, q, tag) in cache then Some(cache[KeyOf(independent, q, tag)]) else None
    {
      var key := Key(q, if independent then Some(tag) else None);
      hit := if key in cache then Some(cache[key]) else None;
      calls := calls[c := if hit.Some? then Returning(q, calls[c].lead, hit, false) else Missed(q, tag, calls[c].lead)];
    }

    method StoreResponse(c: Caller, q: Question, tag: Tag, answer: Option<Answer>, store: bool)
      requires Valid() && Enabled(Abs(), Receive(c, answer, store)) && calls[c].q == q && calls[c].tag == tag
      modifies this
      ensures Valid() && Abs() == Next(independent, old(Abs()), Receive(c, answer, store))
    {
      if store && answer.Some? {
        cache := cache[Key(q, if independent then Some(tag) else None) := answer.value];
      }
      calls := calls[c := Returning(q, calls[c].lead, answer, true)];
    }

    /** The first deferred step of a leader: its entry leaves the map. */
    method DeleteEntry(c: Caller, q: Question)
      requires Valid() && Enabled(Abs(), Delete(c)) && calls[c].q == q
      modifies this
      ensures Valid() && Abs() == Next(independent, old(Abs()), Delete(c))
    {
      lock := lock - {q};
      calls := calls[c := Unlocking(q, calls[c].lead.value, calls[c].answer, calls[c].asked)];
    }

    /** The second: its channel is closed, which wakes every waiter. */
    method CloseChannel(c: Caller, ch: Chan)
      requires Valid() && Enabled(Abs(), Close(c)) && calls[c].ch == ch
      modifies this
      ensures Valid() && Abs() == Next(independent, old(Abs()), Close(c))
    {
      closeLog := closeLog + [ch];
      calls := calls[c := Finished(calls[c].answer, calls[c].asked)];
    }
  }

  // ----- runs -----

  function After(independent: bool, run: seq<Action>): State
    requires Run(independent, run)
    decreases |run|, 1
  {
    if run == [] then INIT else Next(independent, After(independent, run[..|run| - 1]), run[|run| - 1])
  }

  predicate Run(independent: bool, run: seq<Action>)
    decreases |run|, 0
  {
    run == [] || (Run(independent, run[..|run| - 1]) && Enabled(After(independent, run[..|run| - 1]), run[|run| - 1]))
  }

  // ----- the invariant -----

  predicate Leads(s: State, c: Caller, ch: Chan) { c in s.calls && s.calls[c].Lead() == Some(ch) }

  predicate Holds(s: State, c: Caller, ch: Chan) { c in s.calls && s.calls[c].Holds() == Some(ch) }

  /** A held channel was made by its holder, for the holder's question, and is open. */
  ghost predicate HolderMadeIt(s: State) {
    forall c, ch: Chan :: Holds(s, c, ch) ==>
      ch < |s.topics| && s.topics[ch] == Topic(s.calls[c].q, c) && ch !in s.closeLog
  }

  /** The lock map holds exactly the leaders' channels. */
  ghost predicate LockIsLeaders(s: State) {
    && (forall c, ch: Chan :: Leads(s, c, ch) ==> s.calls[c].q in s.lock && s.lock[s.calls[c].q] == ch)
    && (forall q :: q in s.lock ==>
          s.lock[q] < |s.topics| && s.topics[s.lock[q]].q == q && Leads(s, s.topics[s.lock[q]].maker, s.lock[q]))
  }

  /** Channels are closed at most once, and the open ones are held by their makers. */
  ghost predicate Channels(s: State) {
    && (forall ch :: ch in s.closeLog ==> ch < |s.topics|)
    && (forall i, j :: 0 <= i < j < |s.closeLog| ==> s.closeLog[i] != s.closeLog[j])
    && (forall ch: Chan :: ch < |s.topics| ==> ch in s.closeLog || Holds(s, s.topics[ch].maker, ch))
  }

  ghost predicate Waiters(s: State) {
    forall c :: c in s.calls && s.calls[c].Waiting? ==>
      s.calls[c].ch < |s.topics| && s.topics[s.calls[c].ch].q == s.calls[c].q
  }

  ghost predicate Inv(s: State) { HolderMadeIt(s) && LockIsLeaders(s) && Channels(s) && Waiters(s) }

  /** Steps that only move a query along, or change the cache, without touching lock or channels. */
  lemma QuietStep(s: State, c: Caller, p: Phase, cache: map<Key, Answer>, sent: seq<Question>)
    requires Inv(s) && c in s.calls && !s.calls[c].Finished?
    requires p.Lead() == s.calls[c].Lead() && p.Holds() == s.calls[c].Holds()
    requires !p.Waiting? && (!p.Finished? ==> p.q == s.calls[c].q)
    ensures Inv(s.(calls := s.calls[c := p], cache := cache, sent := sent))
  {
    var t := s.(calls := s.calls[c := p], cache := cache, sent := sent);
    assert forall d, ch: Chan :: Leads(t, d, ch) <==> Leads(s, d, ch);
    assert forall d, ch: Chan :: Holds(t, d, ch) <==> Holds(s, d, ch);
  }

  lemma JoinStep(s: State, c: Caller, q: Question, tag: Tag)
    requires Inv(s) && c !in s.calls && q in s.lock
    ensures Inv(s.(calls := s.calls[c := Waiting(q, tag, s.lock[q])]))
  {
    var t := s.(calls := s.calls[c := Waiting(q, tag, s.lock[q])]);
    assert forall d, ch: Chan :: Leads(t, d, ch) <==> Leads(s, d, ch);
    assert forall d, ch: Chan :: Holds(t, d, ch) <==> Holds(s, d, ch);
  }

  lemma LeadStep(s: State, c: Caller, q: Question, tag: Tag)
    requires Inv(s) && c !in s.calls && q !in s.lock
    ensures Inv(Next(false, s, Arrive(c, q, tag)))
  {
    var t, mine := Next(false, s, Arrive(c, q, tag)), |s.topics|;
    assert t.topics[..mine] == s.topics;
    assert forall d, ch: Chan :: Leads(t, d, ch) <==> Leads(s, d, ch) || (d == c && ch == mine);
    assert forall d, ch: Chan :: Holds(t, d, ch) <==> Holds(s, d, ch) || (d == c && ch == mine);
  }

  lemma DeleteStep(s: State, c: Caller)
    requires Inv(s) && Enabled(s, Delete(c))
    ensures Inv(Next(false, s, Delete(c)))
  {
    var t := Next(false, s, Delete(c));
    var mine := s.calls[c].lead.value;
    assert Leads(s, c, mine) && Holds(s, c, mine);
    assert forall d, ch: Chan :: Holds(t, d, ch) <==> Holds(s, d, ch);
    assert forall d, ch: Chan :: Leads(t, d, ch) <==> Leads(s, d, ch) && d != c;
    forall d, ch: Chan | Leads(t, d, ch) ensures t.calls[d].q != s.calls[c].q {
      assert Holds(s, d, ch);
    }
  }

  lemma CloseStep(s: State, c: Caller)
    requires Inv(s) && Enabled(s, Close(c))
    ensures Inv(Next(false, s, Close(c)))
    ensures s.calls[c].ch !in s.closeLog
  {
    var t := Next(false, s, Close(c));
    assert Holds(s, c, s.calls[c].ch);
    assert forall d, ch: Chan :: Leads(t, d, ch) <==> Leads(s, d, ch);
    assert forall d, ch: Chan :: Holds(t, d, ch) <==> Holds(s, d, ch) && d != c;
  }

  lemma InvStep(independent: bool, s: State, a: Action)
    requires Inv(s) && Enabled(s, a)
    ensures Inv(Next(independent, s, a))
  {
    var t := Next(independent, s, a);
    match a {
      case Arrive(c, q, tag) =>
        if q in s.lock { JoinStep(s, c, q, tag); } else { LeadStep(s, c, q, tag); }
      case Delete(c) => DeleteStep(s, c);
      case Close(c) => CloseStep(s, c);
      case Evict(_) =>
        assert forall d, ch: Chan :: Leads(t, d, ch) <==> Leads(s, d, ch);
        assert forall d, ch: Chan :: Holds(t, d, ch) <==> Holds(s, d, ch);
      case _ => QuietStep(s, a.c, t.calls[a.c], t.cache, t.sent);
    }
  }

  lemma {:induction false} InvRun(independent: bool, run: seq<Action>)
    requires Run(independent, run)
    ensures Inv(After(independent, run))
  {
    if run != [] {
      InvRun(independent, run[..|run| - 1]);
      InvStep(independent, After(independent, run[..|run| - 1]), run[|run| - 1]);
    }
  }

  // ----- what holds in every run -----

  /** Every entry of the lock belongs to exactly one live leader; no channel is closed twice, and the Close a
      leader is about to make is on an open channel, the one it made itself for its question; a waiter's channel is closed or still held by its maker. */
  lemma LockSafety(independent: bool, run: seq<Action>)
    requires Run(independent, run)
    ensures
      var s := After(independent, run);
      && (forall q :: q in s.lock ==> exists c :: Leads(s, c, s.lock[q]) && s.calls[c].q == q)
      && (forall c, d, x: Chan, y: Chan :: Leads(s, c, x) && Leads(s, d, y) && s.calls[c].q == s.calls[d].q ==> c == d)
      && (forall i, j :: 0 <= i < j < |s.closeLog| ==> s.closeLog[i] != s.closeLog[j])
      && (forall c :: Enabled(s, Close(c)) ==>
            s.calls[c].ch !in s.closeLog && s.calls[c].ch < |s.topics| && s.topics[s.calls[c].ch] == Topic(s.calls[c].q, c))
      && (forall c :: c in s.calls && s.calls[c].Waiting? ==>
            s.calls[c].ch in s.closeLog || exists d :: Holds(s, d, s.calls[c].ch))
  {
    InvRun(independent, run);
    var s := After(independent, run);
    forall c, ch: Chan | Leads(s, c, ch) ensures Holds(s, c, ch) {
    }
    forall q | q in s.lock ensures exists c :: Leads(s, c, s.lock[q]) && s.calls[c].q == q {
      var c := s.topics[s.lock[q]].maker;
      assert Leads(s, c, s.lock[q]) && Holds(s, c, s.lock[q]);
    }
    forall c | Enabled(s, Close(c))
      ensures s.calls[c].ch !in s.closeLog && s.calls[c].ch < |s.topics| && s.topics[s.calls[c].ch] == Topic(s.calls[c].q, c)
    {
      assert Holds(s, c, s.calls[c].ch);
    }
  }

  predicate CanMove(s: State, c: Caller) {
    Enabled(s, Resume(c)) || Enabled(s, Load(c)) || Enabled(s, Send(c)) || Enabled(s, Receive(c, None, false)) ||
    Enabled(s, Delete(c)) || Enabled(s, Close(c)) || Enabled(s, Return(c))
  }

  lemma LiveCanMove(s: State, c: Caller)
    requires c in s.calls && !s.calls[c].Finished? && (s.calls[c].Waiting? ==> s.calls[c].ch in s.closeLog)
    ensures CanMove(s, c)
  {
    match s.calls[c] {
      case Waiting(_, _, _) => assert Enabled(s, Resume(c));
      case Loading(_, _, _) => assert Enabled(s, Load(c));
      case Missed(_, _, _) => assert Enabled(s, Send(c));
      case Querying(_, _, _) => assert Enabled(s, Receive(c, None, false));
      case Returning(_, _, _, _) => assert Enabled(s, Delete(c)) || Enabled(s, Return(c));
      case Unlocking(_, _, _, _) => assert Enabled(s, Close(c));
    }
  }

  /** No deadlock: a query that is not finished can move, or the holder of its channel can. */
  lemma NobodyIsStranded(independent: bool, run: seq<Action>, c: Caller)
    requires Run(independent, run) && c in After(independent, run).calls && !After(independent, run).calls[c].Finished?
    ensures
      var s := After(independent, run);
      CanMove(s, c) || (s.calls[c].Waiting? && exists d :: Holds(s, d, s.calls[c].ch) && CanMove(s, d))
  {
    InvRun(independent, run);
    var s := After(independent, run);
    if s.calls[c].Waiting? && s.calls[c].ch !in s.closeLog {
      var d := s.topics[s.calls[c].ch].maker;
      assert Holds(s, d, s.calls[c].ch);
      LiveCanMove(s, d);
    } else {
      LiveCanMove(s, c);
    }
  }

  function ActorOf(a: Action): Option<Caller> { if a.Evict? then None else Some(a.c) }

  function StepsOf(run: seq<Action>, c: Caller): nat {
    if run == [] then 0
    else StepsOf(run[..|run| - 1], c) + if ActorOf(run[|run| - 1]) == Some(c) then 1 else 0
  }

  /** Every query is over after at most seven steps of its own. */
  lemma {:induction false} QueriesAreShort(independent: bool, run: seq<Action>, c: Caller)
    requires Run(independent, run)
    ensures
      var s := After(independent, run);
      StepsOf(run, c) + (if c in s.calls then s.calls[c].Rank() else 7) <= 7
  {
    if run != [] {
      QueriesAreShort(independent, run[..|run| - 1], c);
    }
  }

  /** When every query is over the lock is empty and every channel it ever held has been closed, once. */
  lemma QuiescentMeansUnlocked(independent: bool, run: seq<Action>)
    requires Run(independent, run)
    requires forall c :: c in After(independent, run).calls ==> After(independent, run).calls[c].Finished?
    ensures
      var s := After(independent, run);
      s.lock == map[] && |s.closeLog| == |s.topics| && forall ch: Chan :: ch < |s.topics| ==> ch in s.closeLog
  {
    InvRun(independent, run);
    var s := After(independent, run);
    assert forall c, ch: Chan :: !Holds(s, c, ch) && !Leads(s, c, ch);
    assert forall q :: q !in s.lock;
    assert forall i :: 0 <= i < |s.closeLog| ==> s.closeLog[i] in s.closeLog;
    AllBelow(s.closeLog, |s.topics|);
  }

  lemma {:induction false} AllBelow(log: seq<Chan>, n: nat)
    requires forall i, j :: 0 <= i < j < |log| ==> log[i] != log[j]
    requires forall i :: 0 <= i < |log| ==> log[i] < n
    requires forall ch: Chan :: ch < n ==> ch in log
    ensures |log| == n
  {
    if n > 0 {
      assert (n - 1) as Chan in log;
      var k :| 0 <= k < |log| && log[k] == n - 1;
      var rest := log[..k] + log[k + 1..];
      assert forall i :: 0 <= i < |rest| ==> rest[i] == log[if i < k then i else i + 1];
      forall ch: Chan | ch < n - 1 ensures ch in rest {
        assert ch in log;
        var i :| 0 <= i < |log| && log[i] == ch;
        assert rest[if i < k then i else i - 1] == ch;
      }
      AllBelow(rest, n - 1);
    }
  }

  lemma RunSnoc(independent: bool, run: seq<Action>, ext: seq<Action>)
    requires ext != [] && Run(independent, run + ext)
    ensures
      var n := |ext| - 1;
      && Run(independent, run + ext[..n]) && Enabled(After(independent, run + ext[..n]), ext[n])
      && After(independent, run + ext) == Next(independent, After(independent, run + ext[..n]), ext[n])
  {
    assert (run + ext)[..|run + ext| - 1] == run + ext[..|ext| - 1];
  }

  lemma CachedStep(independent: bool, s: State, a: Action, key: Key)
    requires Enabled(s, a) && key in s.cache && a != Evict(key)
    ensures key in Next(independent, s, a).cache
  {
  }

  /** Without an eviction of the key a cached answer stays, though a newer one may take its place. */
  lemma {:induction false} CachedStays(independent: bool, run: seq<Action>, ext: seq<Action>, key: Key)
    requires Run(independent, run) && Run(independent, run + ext)
    requires key in After(independent, run).cache && Evict(key) !in ext
    ensures key in After(independent, run + ext).cache
  {
    if ext == [] {
      assert run + ext == run;
    } else {
      var rest, a := ext[..|ext| - 1], ext[|ext| - 1];
      RunSnoc(independent, run, ext);
      assert a in ext && (Evict(key) in rest ==> Evict(key) in ext);
      CachedStays(independent, run, rest, key);
      CachedStep(independent, After(independent, run + rest), a, key);
    }
  }

  predicate Holding(s: State, c: Caller, answer: Answer) {
    c in s.calls && (s.calls[c].Returning? || s.calls[c].Unlocking? || s.calls[c].Finished?) &&
    s.calls[c].answer == Some(answer) && !s.calls[c].asked
  }

  lemma HoldingStep(independent: bool, s: State, a: Action, c: Caller, answer: Answer)
    requires Enabled(s, a) && Holding(s, c, answer)
    ensures Holding(Next(independent, s, a), c, answer) && a != Send(c)
  {
  }

  lemma NotInSnoc(ext: seq<Action>, a: Action)
    requires ext != [] && a !in ext[..|ext| - 1] && ext[|ext| - 1] != a
    ensures a !in ext
  {
    assert ext == ext[..|ext| - 1] + [ext[|ext| - 1]];
  }

  /** A query that holds a cached answer keeps it to its end and never goes upstream. */
  lemma {:induction false} HoldingStays(independent: bool, run: seq<Action>, ext: seq<Action>, c: Caller, answer: Answer)
    requires Run(independent, run) && Run(independent, run + ext)
    requires Holding(After(independent, run), c, answer)
    ensures Holding(After(independent, run + ext), c, answer) && Send(c) !in ext
  {
    if ext == [] {
      assert run + ext == run;
    } else {
      var rest, a := ext[..|ext| - 1], ext[|ext| - 1];
      RunSnoc(independent, run, ext);
      HoldingStays(independent, run, rest, c, answer);
      HoldingStep(independent, After(independent, run + rest), a, c, answer);
      NotInSnoc(ext, Send(c));
    }
  }

  lemma LoadHolds(independent: bool, run: seq<Action>, c: Caller)
    requires Run(independent, run + [Load(c)])
    requires KeyOf(independent, After(independent, run).calls[c].q, After(independent, run).calls[c].tag) in After(independent, run).cache
    ensures
      var s := After(independent, run);
      Holding(After(independent, run + [Load(c)]), c, s.cache[KeyOf(independent, s.calls[c].q, s.calls[c].tag)])
  {
    assert (run + [Load(c)])[..|run|] == run;
  }

  /** A reply that is stored is cached under the key of the query it answers. */
  lemma StoredIsCached(independent: bool, run: seq<Action>, c: Caller, answer: Answer)
    requires Run(independent, run) && Run(independent, run + [Receive(c, Some(answer), true)])
    ensures
      var s, t := After(independent, run), After(independent, run + [Receive(c, Some(answer), true)]);
      c in s.calls && s.calls[c].Querying? &&
      var key := KeyOf(independent, s.calls[c].q, s.calls[c].tag);
      key in t.cache && t.cache[key] == answer
  {
    assert (run + [Receive(c, Some(answer), true)])[..|run|] == run;
  }

  lemma RunPrefix(independent: bool, run: seq<Action>, ext: seq<Action>)
    requires Run(independent, run + ext)
    ensures Run(independent, run)
    decreases |ext|
  {
    if ext == [] {
      assert run + ext == run;
    } else {
      RunSnoc(independent, run, ext);
      RunPrefix(independent, run, ext[..|ext| - 1]);
    }
  }

  /** In every interleaving: once an answer has been cached under a query's key, and as long as the key is not
      evicted before the query looks, the query, leading or resumed, ends with the answer cached when it looks and
      never goes upstream, whatever happens in between and afterwards. */
  lemma ResumedWaiterHits(independent: bool, run: seq<Action>, between: seq<Action>, c: Caller, later: seq<Action>)
    requires Run(independent, run) && Run(independent, run + between) && Run(independent, run + between + [Load(c)] + later)
    requires Enabled(After(independent, run + between), Load(c))
    requires
      var p := After(independent, run + between).calls[c];
      var key := KeyOf(independent, p.q, p.tag);
      key in After(independent, run).cache && Evict(key) !in between
    ensures
      var s := After(independent, run + between);
      var key := KeyOf(independent, s.calls[c].q, s.calls[c].tag);
      && key in s.cache
      && Holding(After(independent, run + between + [Load(c)] + later), c, s.cache[key]) && Send(c) !in later
  {
    RunPrefix(independent, run + between + [Load(c)], later);
    var s := After(independent, run + between);
    CachedStays(independent, run, between, KeyOf(independent, s.calls[c].q, s.calls[c].tag));
    LoadHolds(independent, run + between, c);
    HoldingStays(independent, run + between + [Load(c)], later, c, s.cache[KeyOf(independent, s.calls[c].q, s.calls[c].tag)]);
  }

  // ----- where answers come from -----

  /** Does this step store an answer for the key: one received by a query of its question, with one cache per server for
      its server, and meant to be stored? */
  predicate Stores(independent: bool, s: State, a: Action, key: Key)
    requires Enabled(s, a)
  {
    a.Receive? && a.answer.Some? && a.store && s.calls[a.c].q == key.question &&
    key.transport == if independent then Some(s.calls[a.c].tag) else None
  }

  /** The last answer stored for the key, unless it was evicted since. */
  function LastStored(independent: bool, run: seq<Action>, key: Key): Option<Answer>
    requires Run(independent, run)
  {
    if run == [] then None
    else
      var a := run[|run| - 1];
      if Stores(independent, After(independent, run[..|run| - 1]), a, key) then a.answer
      else if a == Evict(key) then None
      else LastStored(independent, run[..|run| - 1], key)
  }

  /** Over every run the cache holds exactly that. */
  lemma {:induction false} CacheIsLastStored(independent: bool, run: seq<Action>, key: Key)
    requires Run(independent, run)
    ensures
      var cache := After(independent, run).cache;
      LastStored(independent, run, key) == if key in cache then Some(cache[key]) else None
  {
    if run != [] {
      CacheIsLastStored(independent, run[..|run| - 1], key);
    }
  }

  predicate Ending(p: Phase) { p.Returning? || p.Unlocking? || p.Finished? }

  /** The step that gave a query its answer, or its end without one. */
  predicate Gives(a: Action, c: Caller, p: Phase)
    requires Ending(p)
  {
    if p.asked then a == Receive(c, p.answer, true) || a == Receive(c, p.answer, false)
    else if p.answer.None? then a == Cancel(c) || a == GiveUp(c)
    else a == Load(c)
  }

  lemma EndingStep(independent: bool, s: State, a: Action, c: Caller)
    requires Enabled(s, a) && c in Next(independent, s, a).calls && Ending(Next(independent, s, a).calls[c])
    ensures
      var p := Next(independent, s, a).calls[c];
      || Gives(a, c, p)
      || (c in s.calls && Ending(s.calls[c]) && s.calls[c].answer == p.answer && s.calls[c].asked == p.asked)
  {
  }

  /** What a query ends with: the answer it received if it asked; a cached one, or nothing after giving up, if not. */
  lemma {:induction false} AnswersHaveASource(independent: bool, run: seq<Action>, c: Caller) returns (i: nat)
    requires Run(independent, run) && c in After(independent, run).calls && Ending(After(independent, run).calls[c])
    ensures i < |run| && Gives(run[i], c, After(independent, run).calls[c])
  {
    var n := |run| - 1;
    EndingStep(independent, After(independent, run[..n]), run[n], c);
    if Gives(run[n], c, After(independent, run).calls[c]) {
      i := n;
    } else {
      i := AnswersHaveASource(independent, run[..n], c);
    }
  }

  // ----- single flight -----

  /** Every answer is stored and nothing is evicted; only waiting queries may be cancelled. */
  predicate Productive(run: seq<Action>) { forall i :: 0 <= i < |run| ==> Fruitful(run[i]) }

  predicate Fruitful(a: Action) { !a.Evict? && !a.GiveUp? && (a.Receive? ==> a.answer.Some? && a.store) }

  function Sent(sent: seq<Question>, q: Question): nat {
    if sent == [] then 0 else Sent(sent[..|sent| - 1], q) + if sent[|sent| - 1] == q then 1 else 0
  }

  predicate InFlight(s: State, c: Caller, q: Question) { c in s.calls && s.calls[c].Querying? && s.calls[c].q == q }

  /** A query that has yet to look at the cache, or has missed there. */
  predicate Looks(p: Phase) { p.Waiting? || p.Loading? || p.Missed? || p.Querying? }

  /** All queries for this question look under the same key: always so with the shared cache. */
  predicate OneKey(independent: bool, s: State, key: Key) {
    forall c :: c in s.calls && Looks(s.calls[c]) && s.calls[c].q == key.question ==>
      KeyOf(independent, s.calls[c].q, s.calls[c].tag) == key
  }

  predicate ArrivesAs(independent: bool, a: Action, key: Key) {
    a.Arrive? && a.q == key.question ==> KeyOf(independent, a.q, a.tag) == key
  }

  /** Whoever is past the leader's reply finds the answer cached; only leaders miss. */
  ghost predicate Phases(s: State, key: Key) {
    && (forall ch :: ch in s.closeLog && ch < |s.topics| && s.topics[ch].q == key.question ==> key in s.cache)
    && (forall c :: c in s.calls && (s.calls[c].Returning? || s.calls[c].Unlocking?) && s.calls[c].q == key.question ==> key in s.cache)
    && (forall c :: c in s.calls && s.calls[c].Loading? && s.calls[c].lead.None? && s.calls[c].q == key.question ==> key in s.cache)
    && (forall c :: c in s.calls && (s.calls[c].Missed? || s.calls[c].Querying?) && s.calls[c].q == key.question ==>
          s.calls[c].lead.Some? && key !in s.cache)
  }

  ghost predicate Counts(s: State, key: Key) {
    && Sent(s.sent, key.question) <= 1
    && (Sent(s.sent, key.question) == 1 ==> key in s.cache || exists c :: InFlight(s, c, key.question))
  }

  ghost predicate Flight(independent: bool, s: State, key: Key) {
    OneKey(independent, s, key) && Phases(s, key) && Counts(s, key)
  }

  predicate Quiet(a: Action) { !a.Evict? && !a.GiveUp? && !a.Send? && !a.Receive? }

  lemma KeysStay(independent: bool, s: State, a: Action, key: Key)
    requires OneKey(independent, s, key) && Enabled(s, a) && ArrivesAs(independent, a, key)
    ensures OneKey(independent, Next(independent, s, a), key)
  {
  }

  lemma QuietPhases(independent: bool, s: State, a: Action, key: Key)
    requires Inv(s) && OneKey(independent, s, key) && Phases(s, key) && Enabled(s, a) && Quiet(a)
    ensures Phases(Next(independent, s, a), key)
  {
  }

  lemma QuietCounts(independent: bool, s: State, a: Action, key: Key)
    requires Counts(s, key) && Enabled(s, a) && Quiet(a)
    ensures Counts(Next(independent, s, a), key)
  {
    if Sent(s.sent, key.question) == 1 && key !in s.cache {
      var c :| InFlight(s, c, key.question);
      assert InFlight(Next(independent, s, a), c, key.question);
    }
  }

  /** A question has one leader. */
  lemma OneLeader(s: State, c: Caller, d: Caller)
    requires Inv(s) && c in s.calls && d in s.calls && s.calls[c].Lead().Some? && s.calls[d].Lead().Some?
    requires s.calls[c].q == s.calls[d].q
    ensures c == d
  {
    assert Leads(s, c, s.calls[c].Lead().value) && Leads(s, d, s.calls[d].Lead().value);
    assert Holds(s, c, s.calls[c].Lead().value) && Holds(s, d, s.calls[d].Lead().value);
  }

  lemma SendPhases(independent: bool, s: State, c: Caller, key: Key)
    requires Phases(s, key) && Enabled(s, Send(c))
    ensures Phases(Next(independent, s, Send(c)), key)
  {
  }

  /** A leader that has missed is the first to ask. */
  lemma MissedMeansUnsent(s: State, c: Caller, key: Key)
    requires Inv(s) && Phases(s, key) && Counts(s, key)
    requires c in s.calls && s.calls[c].Missed? && s.calls[c].q == key.question
    ensures Sent(s.sent, key.question) == 0
  {
    if Sent(s.sent, key.question) == 1 {
      var d :| InFlight(s, d, key.question);
      OneLeader(s, c, d);
    }
  }

  lemma SendCounts(independent: bool, s: State, c: Caller, key: Key)
    requires Inv(s) && Phases(s, key) && Counts(s, key) && Enabled(s, Send(c))
    ensures Counts(Next(independent, s, Send(c)), key)
  {
    var t, q := Next(independent, s, Send(c)), key.question;
    assert t.sent[..|s.sent|] == s.sent;
    if s.calls[c].q == q {
      MissedMeansUnsent(s, c, key);
      assert InFlight(t, c, q);
    } else if Sent(s.sent, q) == 1 && key !in s.cache {
      var d :| InFlight(s, d, q);
      assert InFlight(t, d, q);
    }
  }

  lemma SendFlight(independent: bool, s: State, c: Caller, key: Key)
    requires Inv(s) && Flight(independent, s, key) && Enabled(s, Send(c))
    ensures Flight(independent, Next(independent, s, Send(c)), key)
  {
    KeysStay(independent, s, Send(c), key);
    SendPhases(independent, s, c, key);
    SendCounts(independent, s, c, key);
  }

  lemma ReceiveFlight(independent: bool, s: State, c: Caller, answer: Answer, key: Key)
    requires Inv(s) && Flight(independent, s, key) && Enabled(s, Receive(c, Some(answer), true))
    ensures Flight(independent, Next(independent, s, Receive(c, Some(answer), true)), key)
  {
    var t, q := Next(independent, s, Receive(c, Some(answer), true)), key.question;
    KeysStay(independent, s, Receive(c, Some(answer), true), key);
    forall d | d in t.calls && (t.calls[d].Missed? || t.calls[d].Querying?) && t.calls[d].q == q
      ensures t.calls[d].lead.Some? && key !in t.cache
    {
      if s.calls[c].q == q {
        OneLeader(s, c, d);
        assert false;
      }
    }
    if s.calls[c].q != q && Sent(s.sent, q) == 1 && key !in s.cache {
      var d :| InFlight(s, d, q);
      assert InFlight(t, d, q);
    }
  }

  lemma FlightStep(independent: bool, s: State, a: Action, key: Key)
    requires Inv(s) && Flight(independent, s, key) && Enabled(s, a) && Fruitful(a) && ArrivesAs(independent, a, key)
    ensures Flight(independent, Next(independent, s, a), key)
  {
    if a.Send? {
      SendFlight(independent, s, a.c, key);
    } else if a.Receive? {
      ReceiveFlight(independent, s, a.c, a.answer.value, key);
    } else {
      KeysStay(independent, s, a, key);
      QuietPhases(independent, s, a, key);
      QuietCounts(independent, s, a, key);
    }
  }

  lemma {:induction false} FlightRun(independent: bool, run: seq<Action>, key: Key)
    requires Run(independent, run) && Productive(run) && forall i :: 0 <= i < |run| ==> ArrivesAs(independent, run[i], key)
    ensures Flight(independent, After(independent, run), key)
  {
    if run != [] {
      var n := |run| - 1;
      FlightRun(independent, run[..n], key);
      InvRun(independent, run[..n]);
      FlightStep(independent, After(independent, run[..n]), run[n], key);
    }
  }

  /** Single flight: as long as answers are storable and stay cached, a question is sent upstream at most once however
      many queries for it interleave, with the shared cache, or if all of them are for the same server. */
  lemma SingleFlight(independent: bool, run: seq<Action>, q: Question, tag: Tag)
    requires Run(independent, run) && Productive(run)
    requires independent ==> forall i :: 0 <= i < |run| && run[i].Arrive? && run[i].q == q ==> run[i].tag == tag
    ensures Sent(After(independent, run).sent, q) <= 1
  {
    FlightRun(independent, run, KeyOf(independent, q, tag));
  }

  // ----- one cache per server -----

  /** A leader about to ask, or asking, for this key. */
  predicate LedAs(independent: bool, p: Phase, key: Key) {
    (p.Missed? || p.Querying?) && p.lead.Some? && KeyOf(independent, p.q, p.tag) == key
  }

  predicate LedInFlight(independent: bool, s: State, c: Caller, key: Key) {
    c in s.calls && s.calls[c].Querying? && LedAs(independent, s.calls[c], key)
  }

  /** How often a leader has sent a query of this key upstream. */
  function LedSends(independent: bool, run: seq<Action>, key: Key): nat
    requires Run(independent, run)
  {
    if run == [] then 0
    else
      var s, a := After(independent, run[..|run| - 1]), run[|run| - 1];
      LedSends(independent, run[..|run| - 1], key) +
      if a.Send? && LedAs(independent, s.calls[a.c], key) then 1 else 0
  }

  ghost predicate Led(independent: bool, s: State, key: Key, n: nat) {
    && n <= 1
    && (n == 1 ==> key in s.cache || exists c :: LedInFlight(independent, s, c, key))
    && (forall c :: c in s.calls && s.calls[c].Missed? && LedAs(independent, s.calls[c], key) ==> n == 0)
  }

  lemma LedFlightStays(independent: bool, s: State, a: Action, key: Key)
    requires Enabled(s, a) && Fruitful(a) && (key in s.cache || exists c :: LedInFlight(independent, s, c, key))
    ensures
      var t := Next(independent, s, a);
      key in t.cache || exists c :: LedInFlight(independent, t, c, key)
  {
    var t := Next(independent, s, a);
    if key !in s.cache {
      var c :| LedInFlight(independent, s, c, key);
      assert key in t.cache || LedInFlight(independent, t, c, key);
    }
  }

  lemma LedLoad(independent: bool, s: State, c: Caller, key: Key, n: nat)
    requires Inv(s) && Led(independent, s, key, n) && Enabled(s, Load(c))
    ensures Led(independent, Next(independent, s, Load(c)), key, n)
  {
    var p := s.calls[c];
    if n == 1 {
      LedFlightStays(independent, s, Load(c), key);
      if key !in s.cache && p.lead.Some? && KeyOf(independent, p.q, p.tag) == key {
        var d :| LedInFlight(independent, s, d, key);
        OneLeader(s, c, d);
        assert false;
      }
    }
  }

  lemma LedSend(independent: bool, s: State, c: Caller, key: Key, n: nat)
    requires Inv(s) && Led(independent, s, key, n) && Enabled(s, Send(c))
    ensures
      Led(independent, Next(independent, s, Send(c)), key, n + if LedAs(independent, s.calls[c], key) then 1 else 0)
  {
    var t := Next(independent, s, Send(c));
    if LedAs(independent, s.calls[c], key) {
      assert LedInFlight(independent, t, c, key);
      forall d | d in t.calls && t.calls[d].Missed? ensures !LedAs(independent, t.calls[d], key) {
        if LedAs(independent, t.calls[d], key) {
          OneLeader(s, c, d);
          assert false;
        }
      }
    } else if n == 1 {
      LedFlightStays(independent, s, Send(c), key);
    }
  }

  lemma LedOther(independent: bool, s: State, a: Action, key: Key, n: nat)
    requires Led(independent, s, key, n) && Enabled(s, a) && Fruitful(a) && !a.Load? && !a.Send?
    ensures Led(independent, Next(independent, s, a), key, n)
  {
    if n == 1 {
      LedFlightStays(independent, s, a, key);
    }
  }

  lemma {:induction false} LedRun(independent: bool, run: seq<Action>, key: Key)
    requires Run(independent, run) && Productive(run)
    ensures Led(independent, After(independent, run), key, LedSends(independent, run, key))
  {
    if run != [] {
      var before, a := run[..|run| - 1], run[|run| - 1];
      LedRun(independent, before, key);
      InvRun(independent, before);
      var s, n := After(independent, before), LedSends(independent, before, key);
      match a {
        case Load(c) => LedLoad(independent, s, c, key, n);
        case Send(c) => LedSend(independent, s, c, key, n);
        case _ => LedOther(independent, s, a, key, n);
      }
    }
  }

  /** With one cache per server the lock still makes the leaders of a question ask each server at most once; all
      further sends are by queries that waited for a leader of another server. */
  lemma LeadersAskOnce(independent: bool, run: seq<Action>, q: Question, tag: Tag)
    requires Run(independent, run) && Productive(run)
    ensures LedSends(independent, run, KeyOf(independent, q, tag)) <= 1
  {
    LedRun(independent, run, KeyOf(independent, q, tag));
  }

  lemma Extend(run: seq<Action>, a: Action) returns (r: seq<Action>)
    requires Run(true, run) && Productive(run) && Enabled(After(true, run), a) && Fruitful(a)
    ensures r == run + [a] && Run(true, r) && Productive(r) && After(true, r) == Next(true, After(true, run), a)
  {
    r := run + [a];
    assert r[..|run|] == run;
  }

  /** And these do ask again: two queries for server 2 wait for one for server 1, and then both go upstream. */
  lemma WaitersForOtherServersAllAsk() returns (run: seq<Action>)
    ensures Run(true, run) && Productive(run)
    ensures After(true, run).sent == [5, 5, 5]
    ensures forall c :: c in {1, 2} ==> InFlight(After(true, run), c, 5) && After(true, run).calls[c].tag == 2
  {
    run := [];
    run := Extend(run, Arrive(0, 5, 1));
    run := Extend(run, Arrive(1, 5, 2));
    run := Extend(run, Arrive(2, 5, 2));
    run := Extend(run, Load(0));
    run := Extend(run, Send(0));
    run := Extend(run, Receive(0, Some(7), true));
    run := Extend(run, Delete(0));
    run := Extend(run, Close(0));
    run := Extend(run, Resume(1));
    run := Extend(run, Resume(2));
    run := Extend(run, Load(1));
    run := Extend(run, Load(2));
    run := Extend(run, Send(1));
    run := Extend(run, Send(2));
  }
}
