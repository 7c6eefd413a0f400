/**
  The DNS client's cache: how long an answer may be kept, what is stored, and what a
  later hit is given.  Times are nanoseconds; TTLs are 32-bit seconds with wrap-around.
 */
module DnsCache {
  import opened Wrappers

  const TWO_32 := 0x1_0000_0000
  const SECOND := 1_000_000_000
  type U32 = x: int | 0 <= x < TWO_32

  type Addr = nat
  type Tag = nat
  datatype Question = Question(name: nat, qtype: nat)

  const TYPE_A := 1
  const TYPE_AAAA := 28
  const TYPE_HTTPS := 65
  const RCODE_SUCCESS := 0
  const RCODE_NAME_ERROR := 3

  datatype Param = Hint4(addrs: seq<Addr>) | Hint6(addrs: seq<Addr>) | OtherParam(n: nat)
  datatype Data = Address(addr: Addr) | Https(params: seq<Param>) | Soa(minimum: U32) | OtherData(n: nat)
  datatype RR = RR(data: Data, ttl: U32)

  /** A message's contents, without its transaction id. */
  datatype Message = Message(rcode: nat, answer: seq<RR>, ns: seq<RR>, extra: seq<RR>) {
    function All(): seq<RR> { answer + ns + extra }
  }

  datatype Strategy = AsIs | PreferIPv4 | PreferIPv6 | IPv4Only | IPv6Only
  datatype Options = Options(strategy: Strategy, disableCache: bool, rewriteTTL: Option<U32>, clientSubnet: bool)

  // ----- the rule for the time to live -----

  predicate IsMinPositive(rs: seq<RR>, ttl: int) {
    if ttl == 0 then forall i :: 0 <= i < |rs| ==> rs[i].ttl == 0
    else
      && ttl > 0 && (exists i :: 0 <= i < |rs| && rs[i].ttl == ttl)
      && forall i :: 0 <= i < |rs| && rs[i].ttl > 0 ==> ttl <= rs[i].ttl
  }

  /** The first SOA record of the authority section. */
  function FirstSoa(ns: seq<RR>): Option<RR>
    ensures FirstSoa(ns).Some? ==> FirstSoa(ns).value.data.Soa?
  {
    if ns == [] then None else if ns[0].data.Soa? then Some(ns[0]) else FirstSoa(ns[1..])
  }

  function Min(a: int, b: int): (r: int)
    ensures r <= a && r <= b && (r == a || r == b)
  {
    if a < b then a else b
  }

  /** It is an SOA record of the section, and no record before it is one. */
  lemma {:induction false} FirstSoaIsFirst(ns: seq<RR>)
    ensures FirstSoa(ns) == None <==> forall i :: 0 <= i < |ns| ==> !ns[i].data.Soa?
    ensures FirstSoa(ns).Some? ==>
      exists k :: 0 <= k < |ns| && ns[k] == FirstSoa(ns).value && forall i :: 0 <= i < k ==> !ns[i].data.Soa?
  {
    if ns != [] && !ns[0].data.Soa? {
      FirstSoaIsFirst(ns[1..]);
      assert forall i :: 0 < i < |ns| ==> ns[i] == ns[1..][i - 1];
      if FirstSoa(ns).Some? {
        var k :| 0 <= k < |ns[1..]| && ns[1..][k] == FirstSoa(ns[1..]).value && forall i :: 0 <= i < k ==> !ns[1..][i].data.Soa?;
        assert ns[k + 1] == FirstSoa(ns).value;
        forall i | 0 <= i < k + 1 ensures !ns[i].data.Soa? {
          assert i > 0 ==> ns[i] == ns[1..][i - 1];
        }
      }
    }
  }

  /** Section 5 of RFC 2308: the smaller of the SOA record's own TTL and its MINIMUM field. */
  function NegativeTTL(m: Message): int {
    if m.answer == [] && FirstSoa(m.ns).Some?
    then Min(FirstSoa(m.ns).value.ttl, FirstSoa(m.ns).value.data.minimum)
    else 0
  }

  predicate TTLRule(m: Message, rewrite: Option<U32>, ttl: U32) {
    if rewrite.Some? then ttl == rewrite.value
    else if NegativeTTL(m) > 0 then ttl == NegativeTTL(m)
    else IsMinPositive(m.All(), ttl)
  }

  /** The running minimum the program keeps: a positive TTL replaces 0 and anything larger. */
  function MinTTLOf(rs: seq<RR>): U32 {
    if rs == [] then 0
    else
      var t, r := MinTTLOf(rs[..|rs| - 1]), rs[|rs| - 1];
      if t == 0 || (r.ttl > 0 && r.ttl < t) then r.ttl else t
  }

  function TTLOf(m: Message, rewrite: Option<U32>): U32 {
    if rewrite.Some? then rewrite.value
    else if NegativeTTL(m) > 0 then NegativeTTL(m)
    else MinTTLOf(m.All())
  }

  lemma {:induction false} MinTTLOfIsMin(rs: seq<RR>)
    ensures IsMinPositive(rs, MinTTLOf(rs))
  {
    if rs != [] {
      var n := |rs| - 1;
      MinTTLOfIsMin(rs[..n]);
      MinPositiveSnoc(rs[..n], MinTTLOf(rs[..n]), rs[n]);
      assert rs[..n] + [rs[n]] == rs;
    }
  }

  /** The time to live is the rewrite value, else the positive negative-caching TTL of an answerless reply,
      else the least positive record TTL; that determines it. */
  lemma TTLOfFollowsTheRule(m: Message, rewrite: Option<U32>, ttl: U32)
    ensures TTLRule(m, rewrite, ttl) <==> ttl == TTLOf(m, rewrite)
  {
    MinTTLOfIsMin(m.All());
    if IsMinPositive(m.All(), ttl) {
      MinPositiveUnique(m.All(), ttl, MinTTLOf(m.All()));
    }
  }

  lemma MinPositiveUnique(rs: seq<RR>, a: int, b: int)
    requires IsMinPositive(rs, a) && IsMinPositive(rs, b)
    ensures a == b
  {
  }

  /** RFC 2308 asks an answerless reply to live for min(SOA TTL, MINIMUM) seconds.  The program agrees exactly
      when that is positive or no record has a positive TTL: a zero falls through to the record TTLs. */
  lemma NegativeCachingFollowsRfcIff(m: Message)
    requires m.answer == [] && FirstSoa(m.ns).Some?
    ensures TTLOf(m, None) == NegativeTTL(m) <==>
      NegativeTTL(m) > 0 || forall i :: 0 <= i < |m.All()| ==> m.All()[i].ttl == 0
  {
    MinTTLOfIsMin(m.All());
  }

  /** Authority records alone never set the lifetime of a reply that has answers; without answers the first SOA record's TTL
      and MINIMUM both bound it, and one of them is it, if they are positive. */
  lemma NegativeTTLIsForAnswerless(m: Message)
    ensures m.answer != [] ==> IsMinPositive(m.All(), TTLOf(m, None))
    ensures m.answer == [] && FirstSoa(m.ns).Some? && FirstSoa(m.ns).value.ttl > 0 && FirstSoa(m.ns).value.data.minimum > 0 ==>
      var soa := FirstSoa(m.ns).value;
      TTLOf(m, None) <= soa.ttl && TTLOf(m, None) <= soa.data.minimum && TTLOf(m, None) in {soa.ttl, soa.data.minimum}
  {
    MinTTLOfIsMin(m.All());
  }

  /** For instance a zone that forbids negative caching (MINIMUM 0) is cached for its SOA record's TTL. */
  lemma ZeroMinimumIsCached() returns (m: Message)
    ensures m.answer == [] && FirstSoa(m.ns).Some? && NegativeTTL(m) == 0 && TTLOf(m, None) == 3600
  {
    m := Message(RCODE_NAME_ERROR, [], [RR(Soa(0), 3600)], []);
    assert m.All() == [RR(Soa(0), 3600)];
    assert m.All()[..0] == [];
  }

  function SetTTLs(rs: seq<RR>, ttl: U32): seq<RR> { seq(|rs|, i requires 0 <= i < |rs| => rs[i].(ttl := ttl)) }

  function WithTTL(m: Message, ttl: U32): Message {
    Message(m.rcode, SetTTLs(m.answer, ttl), SetTTLs(m.ns, ttl), SetTTLs(m.extra, ttl))
  }

  // ----- messages as the program holds them -----

  class DnsMessage {
    var id: nat
    const rcode: nat
    const answer: array<RR>
    const ns: array<RR>
    const extra: array<RR>

    ghost function Value(): Message
      reads answer, ns, extra
    {
      Message(rcode, answer[..], ns[..], extra[..])
    }

    ghost predicate Separate() { answer != ns && answer != extra && ns != extra }

    constructor (id: nat, rcode: nat, answer: array<RR>, ns: array<RR>, extra: array<RR>)
      ensures this.id == id && this.rcode == rcode
      ensures this.answer == answer && this.ns == ns && this.extra == extra
    {
      this.id, this.rcode, this.answer, this.ns, this.extra := id, rcode, answer, ns, extra;
    }
  }

  method CopyRecords(rs: array<RR>) returns (c: array<RR>)
    ensures fresh(c) && c[..] == rs[..]
  {
    c := new RR[rs.Length](i requires 0 <= i < rs.Length reads rs => rs[i]);
  }

  method Copy(m: DnsMessage) returns (c: DnsMessage)
    ensures fresh(c) && fresh(c.answer) && fresh(c.ns) && fresh(c.extra) && c.Separate()
    ensures c.Value() == m.Value() && c.id == m.id
  {
    var answer := CopyRecords(m.answer);
    var ns := CopyRecords(m.ns);
    var extra := CopyRecords(m.extra);
    c := new DnsMessage(m.id, m.rcode, answer, ns, extra);
  }

  method ExtractNegativeTTL(m: DnsMessage) returns (ttl: U32, found: bool)
    ensures found <==> FirstSoa(m.Value().ns).Some?
    ensures found ==> ttl == Min(FirstSoa(m.Value().ns).value.ttl, FirstSoa(m.Value().ns).value.data.minimum)
  {
    var i := 0;
    while i < m.ns.Length
      invariant 0 <= i <= m.ns.Length
      invariant FirstSoa(m.ns[..]) == FirstSoa(m.ns[i..])
    {
      var record := m.ns[i];
      assert m.ns[i..][1..] == m.ns[i + 1..];
      if record.data.Soa? {
        if record.ttl < record.data.minimum {
          return record.ttl, true;
        }
        return record.data.minimum, true;
      }
      i := i + 1;
    }
    return 0, false;
  }

  /** One section of the loop over the three record lists. */
  method MinTTLOver(rs: array<RR>, ghost before: seq<RR>, sofar: U32) returns (ttl: U32)
    requires sofar == MinTTLOf(before)
    ensures ttl == MinTTLOf(before + rs[..])
  {
    ttl := sofar;
    assert before + rs[..0] == before;
    var i := 0;
    while i < rs.Length
      invariant 0 <= i <= rs.Length
      invariant ttl == MinTTLOf(before + rs[..i])
    {
      assert (before + rs[..i + 1])[..|before| + i] == before + rs[..i];
      if ttl == 0 || (rs[i].ttl > 0 && rs[i].ttl < ttl) {
        ttl := rs[i].ttl;
      }
      i := i + 1;
    }
    assert rs[..i] == rs[..];
  }

  lemma MinPositiveSnoc(rs: seq<RR>, ttl: int, r: RR)
    requires IsMinPositive(rs, ttl)
    ensures IsMinPositive(rs + [r], if ttl == 0 || (r.ttl > 0 && r.ttl < ttl) then r.ttl else ttl)
  {
    var longer := rs + [r];
    assert longer[|rs|] == r;
    if ttl > 0 {
      var i :| 0 <= i < |rs| && rs[i].ttl == ttl;
      assert longer[i].ttl == ttl;
    }
    assert forall i :: 0 <= i < |rs| ==> longer[i] == rs[i];
  }

  method MinTTL(m: DnsMessage) returns (ttl: U32)
    ensures ttl == MinTTLOf(m.Value().All())
  {
    var t := MinTTLOver(m.answer, [], 0);
    assert [] + m.answer[..] == m.answer[..];
    t := MinTTLOver(m.ns, m.answer[..], t);
    t := MinTTLOver(m.extra, m.answer[..] + m.ns[..], t);
    ttl := t;
  }

  method TimeToLive(m: DnsMessage, rewrite: Option<U32>) returns (ttl: U32)
    ensures ttl == TTLOf(m.Value(), rewrite)
  {
    ttl := 0;
    if m.answer.Length == 0 {
      var soaTTL, hasSOA := ExtractNegativeTTL(m);
      if hasSOA {
        ttl := soaTTL;
      }
    }
    if ttl == 0 {
      ttl := MinTTL(m);
    }
    if rewrite.Some? {
      ttl := rewrite.value;
    }
  }

  method SetSection(rs: array<RR>, ttl: U32)
    modifies rs
    ensures rs[..] == SetTTLs(old(rs[..]), ttl)
  {
    var i := 0;
    while i < rs.Length
      invariant 0 <= i <= rs.Length
      invariant forall k :: 0 <= k < i ==> rs[k] == old(rs[k]).(ttl := ttl)
      invariant forall k :: i <= k < rs.Length ==> rs[k] == old(rs[k])
    {
      rs[i] := rs[i].(ttl := ttl);
      i := i + 1;
    }
  }

  /** The in-place rewrite of every record's TTL. */
  method RewriteTTLs(m: DnsMessage, ttl: U32)
    requires m.Separate()
    modifies m.answer, m.ns, m.extra
    ensures m.Value() == WithTTL(old(m.Value()), ttl)
  {
    SetSection(m.answer, ttl);
    SetSection(m.ns, ttl);
    SetSection(m.extra, ttl);
  }

  // ----- ageing -----

  function Sub32(a: int, b: int): U32 { (a - b) % TWO_32 }

  function Shift(rs: seq<RR>, duration: U32): seq<RR> {
    seq(|rs|, i requires 0 <= i < |rs| => rs[i].(ttl := Sub32(rs[i].ttl, duration)))
  }

  /** A hit's message: every TTL less the time already spent, or the time left when nothing is known. */
  function Aged(m: Message, origin: U32, left: int): Message {
    if origin > 0 then
      var duration := Sub32(origin, left);
      Message(m.rcode, Shift(m.answer, duration), Shift(m.ns, duration), Shift(m.extra, duration))
    else WithTTL(m, Sub32(left, 0))
  }

  method ShiftSection(rs: array<RR>, duration: U32)
    modifies rs
    ensures rs[..] == Shift(old(rs[..]), duration)
  {
    var i := 0;
    while i < rs.Length
      invariant 0 <= i <= rs.Length
      invariant forall k :: 0 <= k < i ==> rs[k] == old(rs[k]).(ttl := Sub32(old(rs[k]).ttl, duration))
      invariant forall k :: i <= k < rs.Length ==> rs[k] == old(rs[k])
    {
      rs[i] := rs[i].(ttl := Sub32(rs[i].ttl, duration));
      i := i + 1;
    }
  }

  predicate Uniform(m: Message, ttl: U32) { forall i :: 0 <= i < |m.All()| ==> m.All()[i].ttl == ttl }

  lemma WithTTLUniform(m: Message, ttl: U32)
    ensures Uniform(WithTTL(m, ttl), ttl)
    ensures Uniform(m, ttl) ==> WithTTL(m, ttl) == m
  {
    var w := WithTTL(m, ttl);
    forall i | 0 <= i < |w.All()| ensures w.All()[i].ttl == ttl {
    }
    if Uniform(m, ttl) {
      UniformSections(m, ttl);
      assert w.answer == m.answer && w.ns == m.ns && w.extra == m.extra;
    }
  }

  lemma ShiftUniform(rs: seq<RR>, ttl: U32, left: int)
    requires left >= 0 && forall i :: 0 <= i < |rs| ==> rs[i].ttl == ttl
    ensures Shift(rs, Sub32(ttl, left)) == SetTTLs(rs, Sub32(left, 0))
  {
    WrapBack(ttl, left);
  }

  lemma UniformSections(m: Message, ttl: U32)
    requires Uniform(m, ttl)
    ensures forall i :: 0 <= i < |m.answer| ==> m.answer[i].ttl == ttl
    ensures forall i :: 0 <= i < |m.ns| ==> m.ns[i].ttl == ttl
    ensures forall i :: 0 <= i < |m.extra| ==> m.extra[i].ttl == ttl
  {
    forall i | 0 <= i < |m.answer| ensures m.answer[i].ttl == ttl {
      assert m.All()[i] == m.answer[i];
    }
    forall i | 0 <= i < |m.ns| ensures m.ns[i].ttl == ttl {
      assert m.All()[|m.answer| + i] == m.ns[i];
    }
    forall i | 0 <= i < |m.extra| ensures m.extra[i].ttl == ttl {
      assert m.All()[|m.answer| + |m.ns| + i] == m.extra[i];
    }
  }

  lemma NoWrapIff(ttl: U32, left: int)
    requires left >= 0
    ensures Sub32(ttl, left) == ttl - left <==> left <= ttl
    ensures left <= ttl ==> Sub32(left, 0) == left
  {
  }

  lemma UniformMinimum(m: Message, ttl: U32)
    requires Uniform(m, ttl) && ttl > 0
    ensures MinTTLOf(m.All()) == if m.All() == [] then 0 else ttl
  {
    MinTTLOfIsMin(m.All());
    if m.All() != [] {
      assert m.All()[0].ttl == ttl;
    }
  }

  /** Ageing a uniformly stored message: whatever the clock says, every TTL becomes the whole seconds
      left, modulo 2^32; no subtraction wraps exactly when no more time is left than was granted. */
  lemma AgedIsTimeLeft(m: Message, ttl: U32, left: int)
    requires Uniform(m, ttl) && ttl > 0 && left >= 0
    ensures
      var origin := MinTTLOf(m.All());
      && Aged(m, origin, left) == WithTTL(m, Sub32(left, 0))
      && (|m.All()| > 0 ==> origin == ttl && (Sub32(origin, left) == origin - left <==> left <= ttl))
      && (left <= ttl ==> Aged(m, origin, left) == WithTTL(m, left))
  {
    UniformMinimum(m, ttl);
    NoWrapIff(ttl, left);
    if |m.All()| > 0 {
      UniformSections(m, ttl);
      ShiftUniform(m.answer, ttl, left);
      ShiftUniform(m.ns, ttl, left);
      ShiftUniform(m.extra, ttl, left);
    }
  }

  lemma WrapBack(a: U32, b: int)
    requires b >= 0
    ensures Sub32(a, Sub32(a, b)) == Sub32(b, 0)
  {
    var q := (a - b) / TWO_32;
    assert a - Sub32(a, b) == b + q * TWO_32;
    ModShift(b, q);
  }

  lemma {:induction false} ModShift(b: int, q: int)
    ensures (b + q * TWO_32) % TWO_32 == b % TWO_32
    decreases if q < 0 then -q else q
  {
    if q > 0 {
      ModShift(b, q - 1);
      assert b + q * TWO_32 == (b + (q - 1) * TWO_32) + TWO_32;
    } else if q < 0 {
      ModShift(b, q + 1);
      assert b + q * TWO_32 == (b + (q + 1) * TWO_32) - TWO_32;
    }
  }

  // ----- the cache as values -----

  datatype Key = Key(question: Question, transport: Option<Tag>)
  datatype Stored = Stored(message: Message, expireAt: int)
  type Entries = map<Key, Stored>

  /** "clientSubnet": the client puts its own subnet into every query that names none. */
  datatype Config = Config(disableCache: bool, disableExpire: bool, independent: bool, clientSubnet: bool)

  function KeyOf(cfg: Config, q: Question, tag: Tag): Key { Key(q, if cfg.independent then Some(tag) else None) }

  function Expiry(cfg: Config, at: int, ttl: U32): int { if cfg.disableExpire then 0 else at + SECOND * ttl }

  function StoreStep(cfg: Config, entries: Entries, key: Key, m: Message, ttl: U32, at: int): Entries {
    if ttl == 0 then entries else entries[key := Stored(m, Expiry(cfg, at, ttl))]
  }

  /** A look-up: the remaining entries, and the aged copy with the whole seconds it still has. */
  function LoadStep(cfg: Config, entries: Entries, key: Key, now: int): (Entries, Option<(Message, int)>) {
    if key !in entries then (entries, None)
    else if cfg.disableExpire then (entries, Some((entries[key].message, 0)))
    else if now > entries[key].expireAt then (entries - {key}, None)
    else
      var left := (entries[key].expireAt - now) / SECOND;
      (entries, Some((Aged(entries[key].message, MinTTLOf(entries[key].message.All()), left), left)))
  }

  // ----- one exchange as values -----

  datatype Request = Request(id: nat, questions: seq<Question>, plain: bool)

  datatype Upstream = Reply(message: Message) | ReplyCode(rcode: nat) | NoReply

  type Check = Option<seq<Addr> -> bool>

  /** What the surroundings of one exchange decide. */
  datatype Env = Env(loopback: bool, rdrcRejects: bool, loadAt: int, storeAt: int)

  datatype Outcome =
    | FormatError | StrategyRejected | Loopback | RejectedCached | NoAnswer
    | Hit(message: Message, left: int)
    | Rejected(message: Message)
    | Fresh(message: Message, ttl: U32)

  function Received(u: Upstream): Message
    requires !u.NoReply?
  {
    if u.Reply? then u.message else Message(u.rcode, [], [], [])
  }

  function ParamAddrs(ps: seq<Param>): seq<Addr> {
    if ps == [] then []
    else ParamAddrs(ps[..|ps| - 1]) + (if ps[|ps| - 1].OtherParam? then [] else ps[|ps| - 1].addrs)
  }

  function RecordAddrs(d: Data): seq<Addr> {
    match d
    case Address(a) => [a]
    case Https(ps) => ParamAddrs(ps)
    case _ => []
  }

  function Addresses(rs: seq<RR>): seq<Addr> {
    if rs == [] then []
    else Addresses(rs[..|rs| - 1]) + RecordAddrs(rs[|rs| - 1].data)
  }

  predicate Accepted(check: Check, m: Message) {
    check.None? || (m.rcode == RCODE_SUCCESS && m.answer != [] && check.value(Addresses(m.answer)))
  }

  function KeepParams(ps: seq<Param>, strategy: Strategy): seq<Param> {
    if ps == [] then []
    else
      var p := ps[|ps| - 1];
      KeepParams(ps[..|ps| - 1], strategy) +
      if (strategy == IPv4Only && p.Hint6?) || (strategy == IPv6Only && p.Hint4?) then [] else [p]
  }

  function TrimRecord(r: RR, strategy: Strategy): RR {
    if r.data.Https? then r.(data := Https(KeepParams(r.data.params, strategy))) else r
  }

  /** HTTPS answers lose the address hints the strategy excludes. */
  function Trim(m: Message, qtype: nat, strategy: Strategy): Message {
    if qtype == TYPE_HTTPS && strategy in {IPv4Only, IPv6Only}
    then m.(answer := seq(|m.answer|, i requires 0 <= i < |m.answer| => TrimRecord(m.answer[i], strategy)))
    else m
  }

  /** Hints are dropped one by one, in place: exactly those of the family that a single-family strategy excludes. */
  lemma {:induction false} KeepParamsConcat(a: seq<Param>, b: seq<Param>, strategy: Strategy)
    ensures KeepParams(a + b, strategy) == KeepParams(a, strategy) + KeepParams(b, strategy)
  {
    if b == [] {
      assert a + b == a;
    } else {
      var n := |b| - 1;
      assert (a + b)[..|a| + n] == a + b[..n];
      KeepParamsConcat(a, b[..n], strategy);
    }
  }

  lemma KeepParamsOfOne(p: Param, strategy: Strategy)
    ensures KeepParams([p], strategy) ==
      match strategy
      case IPv4Only => if p.Hint6? then [] else [p]
      case IPv6Only => if p.Hint4? then [] else [p]
      case _ => [p]
  {
    assert [p][..0] == [];
  }

  /** Only the answers of an HTTPS query are trimmed, only under a single-family strategy, and only in their hints. */
  lemma TrimTouchesHintsOnly(m: Message, qtype: nat, strategy: Strategy)
    ensures
      var t := Trim(m, qtype, strategy);
      && t.rcode == m.rcode && t.ns == m.ns && t.extra == m.extra && |t.answer| == |m.answer|
      && (qtype != TYPE_HTTPS || strategy !in {IPv4Only, IPv6Only} ==> t == m)
      && (qtype == TYPE_HTTPS && strategy in {IPv4Only, IPv6Only} ==>
            forall i :: 0 <= i < |m.answer| ==>
              if m.answer[i].data.Https?
              then t.answer[i] == RR(Https(KeepParams(m.answer[i].data.params, strategy)), m.answer[i].ttl)
              else t.answer[i] == m.answer[i])
  {
  }

  lemma AddressesSnoc(rs: seq<RR>, r: RR)
    ensures Addresses(rs + [r]) == Addresses(rs) + RecordAddrs(r.data)
  {
    assert (rs + [r])[..|rs|] == rs;
  }

  lemma Associate(a: seq<Addr>, b: seq<Addr>, c: seq<Addr>)
    ensures (a + b) + c == a + (b + c)
  {
  }

  /** Addresses are listed in the order of the records, those of an HTTPS record in the order of its hints. */
  lemma {:induction false} AddressesConcat(a: seq<RR>, b: seq<RR>)
    ensures Addresses(a + b) == Addresses(a) + Addresses(b)
  {
    if b == [] {
      assert a + b == a;
    } else {
      var before, last := b[..|b| - 1], b[|b| - 1];
      assert b == before + [last] && a + b == (a + before) + [last];
      AddressesConcat(a, before);
      AddressesSnoc(a + before, last);
      AddressesSnoc(before, last);
      Associate(Addresses(a), Addresses(before), RecordAddrs(last.data));
    }
  }

  lemma AddressesOfOne(r: RR)
    ensures Addresses([r]) ==
      match r.data
      case Address(addr) => [addr]
      case Https(params) => ParamAddrs(params)
      case _ => []
  {
    assert [r][..0] == [];
  }

  lemma HintAddressesSnoc(ps: seq<Param>, p: Param)
    ensures ParamAddrs(ps + [p]) == ParamAddrs(ps) + if p.OtherParam? then [] else p.addrs
  {
    assert (ps + [p])[..|ps|] == ps;
  }

  lemma {:induction false} HintAddressesConcat(a: seq<Param>, b: seq<Param>)
    ensures ParamAddrs(a + b) == ParamAddrs(a) + ParamAddrs(b)
  {
    if b == [] {
      assert a + b == a;
    } else {
      var before, last := b[..|b| - 1], b[|b| - 1];
      assert b == before + [last] && a + b == (a + before) + [last];
      HintAddressesConcat(a, before);
      HintAddressesSnoc(a + before, last);
      HintAddressesSnoc(before, last);
      Associate(ParamAddrs(a), ParamAddrs(before), if last.OtherParam? then [] else last.addrs);
    }
  }

  lemma HintAddressesOfOne(p: Param)
    ensures ParamAddrs([p]) == if p.OtherParam? then [] else p.addrs
  {
    assert [p][..0] == [];
  }

  predicate StrategyRejects(q: Question, strategy: Strategy) {
    (q.qtype == TYPE_A && strategy == IPv6Only) || (q.qtype == TYPE_AAAA && strategy == IPv4Only)
  }

  /** A subnet, the query's or the client's, becomes an option record and the query is no longer simple. */
  predicate CacheOff(cfg: Config, req: Request, options: Options) {
    !(|req.questions| == 1 && req.plain && !options.clientSubnet && !cfg.clientSubnet) || cfg.disableCache || options.disableCache
  }

  predicate Storable(m: Message) { m.rcode == RCODE_SUCCESS || m.rcode == RCODE_NAME_ERROR }

  /** The part of an exchange that follows the upstream's reply. */
  function AfterReply(cfg: Config, entries: Entries, off: bool, q: Question, tag: Tag, options: Options,
                      check: Check, env: Env, m: Message): (Entries, Outcome) {
    if !Accepted(check, m) then (entries, Rejected(m))
    else
      var trimmed := Trim(m, q.qtype, options.strategy);
      var ttl := TTLOf(trimmed, options.rewriteTTL);
      var out := WithTTL(trimmed, ttl);
      (if off || !Storable(m) then entries else StoreStep(cfg, entries, KeyOf(cfg, q, tag), out, ttl, env.storeAt),
       Fresh(out, ttl))
  }

  function AfterMiss(cfg: Config, entries: Entries, off: bool, q: Question, tag: Tag, options: Options,
                     check: Check, env: Env, upstream: Upstream): (Entries, Outcome) {
    if env.loopback then (entries, Loopback)
    else if !off && check.Some? && env.rdrcRejects then (entries, RejectedCached)
    else if upstream.NoReply? then (entries, NoAnswer)
    else AfterReply(cfg, entries, off, q, tag, options, check, env, Received(upstream))
  }

  function ExchangeStep(cfg: Config, entries: Entries, req: Request, tag: Tag, options: Options,
                              check: Check, env: Env, upstream: Upstream): (Entries, Outcome) {
    if req.questions == [] then (entries, FormatError)
    else
      var q := req.questions[0];
      if StrategyRejects(q, options.strategy) then (entries, StrategyRejected)
      else if CacheOff(cfg, req, options) then
        AfterMiss(cfg, entries, true, q, tag, options, check, env, upstream)
      else
        var (left, hit) := LoadStep(cfg, entries, KeyOf(cfg, q, tag), env.loadAt);
        if hit.Some? then (left, Hit(hit.value.0, hit.value.1))
        else AfterMiss(cfg, left, false, q, tag, options, check, env, upstream)
  }

  datatype LookupResult = Addrs(addrs: seq<Addr>) | Code(rcode: nat) | LookupFailed(outcome: Outcome)

  function AddrsOf(m: Message): LookupResult {
    if m.rcode == RCODE_SUCCESS then Addrs(Addresses(m.answer)) else Code(m.rcode)
  }

  /** An address look-up: the cache first, then an exchange of a plain query. */
  function LookupStep(cfg: Config, entries: Entries, q: Question, tag: Tag, options: Options,
                      check: Check, at: int, env: Env, upstream: Upstream): (Entries, LookupResult) {
    var (left, hit) := if cfg.disableCache || options.disableCache then (entries, None)
                       else LoadStep(cfg, entries, KeyOf(cfg, q, tag), at);
    if hit.Some? then (left, AddrsOf(hit.value.0))
    else AskPlainly(cfg, left, q, tag, options, check, env, upstream)
  }

  function AskPlainly(cfg: Config, entries: Entries, q: Question, tag: Tag, options: Options,
                      check: Check, env: Env, upstream: Upstream): (Entries, LookupResult) {
    var (after, out) := ExchangeStep(cfg, entries, Request(0, [q], true), tag, options, check, env, upstream);
    (after, ResultOf(out))
  }

  function ResultOf(out: Outcome): LookupResult {
    match out
    case Hit(m, _) => AddrsOf(m)
    case Fresh(m, _) => AddrsOf(m)
    case StrategyRejected => Addrs([])
    case other => LookupFailed(other)
  }

  /** May this query use the cache at all? */
  predicate UsesCache(cfg: Config, req: Request, options: Options) {
    |req.questions| == 1 && req.plain && !options.clientSubnet && !cfg.clientSubnet && !cfg.disableCache && !options.disableCache
  }

  /** The check refuses anything but a success with answers whose addresses it takes. */
  predicate RefusedBy(check: Check, m: Message) {
    check.Some? && (m.rcode != RCODE_SUCCESS || m.answer == [] || !check.value(Addresses(m.answer)))
  }

  /** Every outcome and when it comes: refusals of the strategy, loops, answers rejected before, silence, answers the check
      refuses, and else the reply as this query's options prepare it. */
  lemma OutcomeByCause(cfg: Config, entries: Entries, req: Request, tag: Tag, options: Options, check: Check, env: Env, u: Upstream)
    ensures
      var out := ExchangeStep(cfg, entries, req, tag, options, check, env, u).1;
      && (out == FormatError <==> req.questions == [])
      && (req.questions != [] ==>
            var q := req.questions[0];
            var barred := (q.qtype == TYPE_A && options.strategy == IPv6Only) || (q.qtype == TYPE_AAAA && options.strategy == IPv4Only);
            var asks := !barred && !out.Hit?;
            && (out == StrategyRejected <==> barred)
            && (out.Hit? ==> !barred && UsesCache(cfg, req, options))
            && (out == Loopback <==> asks && env.loopback)
            && (out == RejectedCached <==> asks && !env.loopback && UsesCache(cfg, req, options) && check.Some? && env.rdrcRejects)
            && (asks && out != Loopback && out != RejectedCached ==>
                  && (out == NoAnswer <==> u == NoReply)
                  && (u.ReplyCode? ==> AnswersWith(Message(u.rcode, [], [], []), q, options, check, out))
                  && (u.Reply? ==> AnswersWith(u.message, q, options, check, out))))
  {
  }

  predicate AnswersWith(m: Message, q: Question, options: Options, check: Check, out: Outcome) {
    var trimmed := Trim(m, q.qtype, options.strategy);
    var ttl := TTLOf(trimmed, options.rewriteTTL);
    if RefusedBy(check, m) then out == Rejected(m) else out == Fresh(WithTTL(trimmed, ttl), ttl)
  }

  /** A look-up of addresses made at the moment its exchange would look is that exchange, told as addresses or a code:
      its own first look at the cache changes nothing.  Only a client-wide subnet, with which the exchange does not look
      at the cache, and a strategy that bars the question make a difference. */
  lemma LookupIsAnExchange(cfg: Config, entries: Entries, q: Question, tag: Tag, options: Options, check: Check, env: Env, u: Upstream)
    requires UsesCache(cfg, Request(0, [q], true), options)
    requires !(q.qtype == TYPE_A && options.strategy == IPv6Only) && !(q.qtype == TYPE_AAAA && options.strategy == IPv4Only)
    ensures
      var (left, result) := LookupStep(cfg, entries, q, tag, options, check, env.loadAt, env, u);
      var (after, out) := ExchangeStep(cfg, entries, Request(0, [q], true), tag, options, check, env, u);
      && left == after
      && (out.Hit? || out.Fresh? ==>
            result == if out.message.rcode == RCODE_SUCCESS then Addrs(Addresses(out.message.answer)) else Code(out.message.rcode))
      && (!out.Hit? && !out.Fresh? ==> result == LookupFailed(out))
  {
  }

  // ----- the program's own form -----

  datatype Entry = Entry(msg: DnsMessage, expireAt: int)

  class Client {
    const cfg: Config
    var cache: map<Key, Entry>

    /** The arrays the cache holds on to. */
    ghost var cells: set<object>

    ghost predicate Valid()
      reads this
    {
      forall k :: k in cache ==>
        cache[k].msg.answer in cells && cache[k].msg.ns in cells && cache[k].msg.extra in cells
    }

    ghost function Abs(): Entries
      requires Valid()
      reads this, cells
    {
      map k | k in cache :: Stored(cache[k].msg.Value(), cache[k].expireAt)
    }

    /** The message shares no array with the cache. */
    ghost predicate Apart(m: DnsMessage)
      reads this
    {
      m.Separate() && m.answer !in cells && m.ns !in cells && m.extra !in cells
    }

    constructor (cfg: Config)
      ensures this.cfg == cfg && Valid() && Abs() == map[]
    {
      this.cfg := cfg;
      cache, cells := map[], {};
    }

    method StoreCache(q: Question, tag: Tag, m: DnsMessage, ttl: U32, at: int)
      requires Valid()
      modifies this
      ensures Valid()
      ensures Abs() == StoreStep(cfg, old(Abs()), KeyOf(cfg, q, tag), m.Value(), ttl, at)
    {
      if ttl == 0 {
        return;
      }
      var expireAt := if cfg.disableExpire then 0 else at + SECOND * ttl;
      var key := Key(q, if cfg.independent then Some(tag) else None);
      cache := cache[key := Entry(m, expireAt)];
      cells := cells + {m.answer, m.ns, m.extra};
    }

    /** The hit is a fresh copy; nothing the cache holds is written. */
    method LoadResponse(q: Question, tag: Tag, now: int) returns (r: DnsMessage?, left: int)
      requires Valid()
      modifies this
      ensures Valid()
      ensures Abs() == LoadStep(cfg, old(Abs()), KeyOf(cfg, q, tag), now).0
      ensures cells == old(cells)
      ensures r == null <==> LoadStep(cfg, old(Abs()), KeyOf(cfg, q, tag), now).1 == None
      ensures r != null ==>
        && fresh(r) && fresh(r.answer) && fresh(r.ns) && fresh(r.extra)
        && LoadStep(cfg, old(Abs()), KeyOf(cfg, q, tag), now).1 == Some((r.Value(), left))
    {
      var key := Key(q, if cfg.independent then Some(tag) else None);
      if key !in cache {
        return null, 0;
      }
      var entry := cache[key];
      if cfg.disableExpire {
        r := Copy(entry.msg);
        return r, 0;
      }
      if now > entry.expireAt {
        cache := cache - {key};
        return null, 0;
      }
      left := (entry.expireAt - now) / SECOND;
      r := AgedCopy(entry.msg, left);
    }

    method PrepareReply(m: DnsMessage, qtype: nat, options: Options) returns (ttl: U32)
      requires Valid() && Apart(m)
      modifies m.answer, m.ns, m.extra
      ensures Valid()
      ensures ttl == TTLOf(Trim(old(m.Value()), qtype, options.strategy), options.rewriteTTL)
      ensures m.Value() == WithTTL(Trim(old(m.Value()), qtype, options.strategy), ttl)
      ensures Abs() == old(Abs())
    {
      ttl := Prepare(m, qtype, options);
    }

    method StoreUnless(off: bool, q: Question, tag: Tag, m: DnsMessage, ttl: U32, at: int)
      requires Valid()
      modifies this
      ensures Valid()
      ensures Abs() == if off || !Storable(m.Value()) then old(Abs())
                       else StoreStep(cfg, old(Abs()), KeyOf(cfg, q, tag), m.Value(), ttl, at)
    {
      if !off && (m.rcode == RCODE_SUCCESS || m.rcode == RCODE_NAME_ERROR) {
        StoreCache(q, tag, m, ttl, at);
      }
    }

    method Stamp(m: DnsMessage, id: nat)
      requires Valid()
      modifies m`id
      ensures Valid()
      ensures Abs() == old(Abs()) && m.id == id && m.Value() == old(m.Value())
    {
      m.id := id;
    }

    /** After the upstream's reply: check it, trim it, rewrite its TTLs in place and store it. */
    method Deliver(off: bool, q: Question, tag: Tag, options: Options, check: Check, env: Env, id: nat, m: DnsMessage)
      returns (a: Answer)
      requires Valid() && Apart(m)
      modifies this, m, m.answer, m.ns, m.extra
      ensures Valid()
      ensures (Abs(), a.View()) == AfterReply(cfg, old(Abs()), off, q, tag, options, check, env, old(m.Value()))
      ensures (a.Delivered? && a.m == m && m.id == id) || (a.Refused? && a.m == m)
    {
      var accepted := AcceptedBy(check, m);
      if !accepted {
        return Refused(m);
      }
      var ttl := PrepareReply(m, q.qtype, options);
      StoreUnless(off, q, tag, m, ttl, env.storeAt);
      Stamp(m, id);
      a := Delivered(m, ttl);
    }

    /** The uncached part of a query. */
    method Query(off: bool, req: Request, q: Question, tag: Tag, options: Options, check: Check, env: Env,
                 reply: DnsMessage?, code: Option<nat>)
      returns (a: Answer)
      requires Valid() && (reply != null ==> Apart(reply))
      modifies this, reply, (if reply == null then {} else {reply.answer, reply.ns, reply.extra})
      ensures Valid()
      ensures (Abs(), a.View()) ==
        AfterMiss(cfg, old(Abs()), off, q, tag, options, check, env, old(UpstreamOf(reply, code)))
      ensures !a.Served? && (a.Delivered? ==> a.m.id == req.id) && a.Proper()
    {
      if env.loopback {
        return Plain(Loopback);
      }
      if !off && check.Some? && env.rdrcRejects {
        return Plain(RejectedCached);
      }
      if reply == null {
        if code.None? {
          return Plain(NoAnswer);
        }
        var m := FixedStatus(req.id, code.value);
        a := Deliver(off, q, tag, options, check, env, req.id, m);
      } else {
        a := Deliver(off, q, tag, options, check, env, req.id, reply);
      }
    }

    /** One query.  "reply" and "code" are what the upstream transport returned, if anything. */
    method Exchange(req: Request, tag: Tag, options: Options, check: Check, env: Env, reply: DnsMessage?, code: Option<nat>)
      returns (a: Answer)
      requires Valid() && (reply != null ==> Apart(reply))
      modifies this, reply, (if reply == null then {} else {reply.answer, reply.ns, reply.extra})
      ensures Valid()
      ensures (Abs(), a.View()) == ExchangeStep(cfg, old(Abs()), req, tag, options, check, env, old(UpstreamOf(reply, code)))
      ensures ((a.Delivered? || a.Served?) ==> a.m.id == req.id) && a.Proper()
    {
      if |req.questions| == 0 {
        return Plain(FormatError);
      }
      var q := req.questions[0];
      if (q.qtype == TYPE_A && options.strategy == IPv6Only) || (q.qtype == TYPE_AAAA && options.strategy == IPv4Only) {
        return Plain(StrategyRejected);
      }
      var plain := req.plain;
      if options.clientSubnet || cfg.clientSubnet {
        plain := false;
      }
      var isSimpleRequest := |req.questions| == 1 && plain && !options.clientSubnet;
      var off := !isSimpleRequest || cfg.disableCache || options.disableCache;
      if !off {
        var hit, left := LoadResponse(q, tag, env.loadAt);
        if hit != null {
          Stamp(hit, req.id);
          return Served(hit, left);
        }
      }
      a := Query(off, req, q, tag, options, check, env, reply, code);
    }

    method QuestionCache(q: Question, tag: Tag, at: int) returns (r: Option<LookupResult>)
      requires Valid()
      modifies this
      ensures Valid() && cells == old(cells)
      ensures Abs() == LoadStep(cfg, old(Abs()), KeyOf(cfg, q, tag), at).0
      ensures
        var hit := LoadStep(cfg, old(Abs()), KeyOf(cfg, q, tag), at).1;
        r == if hit.Some? then Some(AddrsOf(hit.value.0)) else None
    {
      var hit, _ := LoadResponse(q, tag, at);
      if hit == null {
        return None;
      }
      var result := ToAddresses(hit);
      return Some(result);
    }

    /** lookupToExchange: the cache first, then an exchange of a plain query. */
    method LookupToExchange(q: Question, tag: Tag, options: Options, check: Check, at: int, env: Env,
                            reply: DnsMessage?, code: Option<nat>)
      returns (r: LookupResult)
      requires Valid() && (reply != null ==> Apart(reply))
      modifies this, reply, (if reply == null then {} else {reply.answer, reply.ns, reply.extra})
      ensures Valid()
      ensures (Abs(), r) == LookupStep(cfg, old(Abs()), q, tag, options, check, at, env, old(UpstreamOf(reply, code)))
    {
      if !(cfg.disableCache || options.disableCache) {
        var cached := QuestionCache(q, tag, at);
        if cached.Some? {
          return cached.value;
        }
      }
      assert UpstreamOf(reply, code) == old(UpstreamOf(reply, code));
      r := PlainLookup(q, tag, options, check, env, reply, code);
    }

    method PlainLookup(q: Question, tag: Tag, options: Options, check: Check, env: Env, reply: DnsMessage?, code: Option<nat>)
      returns (r: LookupResult)
      requires Valid() && (reply != null ==> Apart(reply))
      modifies this, reply, (if reply == null then {} else {reply.answer, reply.ns, reply.extra})
      ensures Valid()
      ensures (Abs(), r) == AskPlainly(cfg, old(Abs()), q, tag, options, check, env, old(UpstreamOf(reply, code)))
    {
      var a := Exchange(Request(0, [q], true), tag, options, check, env, reply, code);
      ghost var after, out := Abs(), a.View();
      r := Result(a, after, out);
    }

    method Result(a: Answer, ghost after: Entries, ghost out: Outcome) returns (r: LookupResult)
      requires Valid() && a.Proper() && Abs() == after && a.View() == out
      ensures Valid() && Abs() == after && r == ResultOf(out)
    {
      match a {
        case Plain(o) => r := if o == StrategyRejected then Addrs([]) else LookupFailed(o);
        case Refused(m) =>
          r := LookupFailed(Rejected(Message(m.rcode, m.answer[..], m.ns[..], m.extra[..])));
        case Served(m, _) => r := ToAddresses(m);
        case Delivered(m, _) => r := ToAddresses(m);
      }
    }
  }

  method ToAddresses(m: DnsMessage) returns (r: LookupResult)
    ensures r == AddrsOf(m.Value())
  {
    if m.rcode != RCODE_SUCCESS {
      return Code(m.rcode);
    }
    var addrs := MessageAddresses(m.answer);
    return Addrs(addrs);
  }

  /** Plain outcomes carry no message. */
  datatype Answer =
    | Plain(outcome: Outcome)
    | Served(m: DnsMessage, left: int)
    | Refused(m: DnsMessage)
    | Delivered(m: DnsMessage, ttl: U32)
  {
    predicate Proper() { Plain? ==> !outcome.Hit? && !outcome.Rejected? && !outcome.Fresh? }

    ghost function View(): Outcome
      reads if Plain? then {} else {m.answer, m.ns, m.extra}
    {
      match this
      case Plain(o) => o
      case Served(m, left) => Hit(m.Value(), left)
      case Refused(m) => Rejected(m.Value())
      case Delivered(m, ttl) => Fresh(m.Value(), ttl)
    }
  }

  ghost function UpstreamOf(reply: DnsMessage?, code: Option<nat>): Upstream
    reads if reply == null then {} else {reply.answer, reply.ns, reply.extra}
  {
    if reply != null then Reply(reply.Value()) else if code.Some? then ReplyCode(code.value) else NoReply
  }

  method FixedStatus(id: nat, rcode: nat) returns (m: DnsMessage)
    ensures fresh(m) && fresh(m.answer) && fresh(m.ns) && fresh(m.extra) && m.Separate()
    ensures m.Value() == Message(rcode, [], [], [])
  {
    var a, n, e := new RR[0], new RR[0], new RR[0];
    m := new DnsMessage(id, rcode, a, n, e);
  }

  /** Trim the hints, choose the TTL and write it into every record. */
  method Prepare(m: DnsMessage, qtype: nat, options: Options) returns (ttl: U32)
    requires m.Separate()
    modifies m.answer, m.ns, m.extra
    ensures ttl == TTLOf(Trim(old(m.Value()), qtype, options.strategy), options.rewriteTTL)
    ensures m.Value() == WithTTL(Trim(old(m.Value()), qtype, options.strategy), ttl)
  {
    if qtype == TYPE_HTTPS && options.strategy in {IPv4Only, IPv6Only} {
      TrimAnswers(m.answer, options.strategy);
    }
    assert m.Value() == Trim(old(m.Value()), qtype, options.strategy);
    ttl := TimeToLive(m, options.rewriteTTL);
    RewriteTTLs(m, ttl);
  }

  method KeepHints(ps: seq<Param>, strategy: Strategy) returns (kept: seq<Param>)
    ensures kept == KeepParams(ps, strategy)
  {
    kept := [];
    var i := 0;
    while i < |ps|
      invariant 0 <= i <= |ps|
      invariant kept == KeepParams(ps[..i], strategy)
    {
      assert ps[..i + 1][..i] == ps[..i];
      if !((strategy == IPv4Only && ps[i].Hint6?) || (strategy == IPv6Only && ps[i].Hint4?)) {
        kept := kept + [ps[i]];
      }
      i := i + 1;
    }
    assert ps[..i] == ps;
  }

  method TrimAnswers(rs: array<RR>, strategy: Strategy)
    modifies rs
    ensures rs[..] == old(seq(rs.Length, i requires 0 <= i < rs.Length reads rs => TrimRecord(rs[i], strategy)))
  {
    var i := 0;
    while i < rs.Length
      invariant 0 <= i <= rs.Length
      invariant forall k :: 0 <= k < i ==> rs[k] == TrimRecord(old(rs[k]), strategy)
      invariant forall k :: i <= k < rs.Length ==> rs[k] == old(rs[k])
    {
      match rs[i].data {
        case Https(ps) =>
          var kept := KeepHints(ps, strategy);
          rs[i] := rs[i].(data := Https(kept));
        case _ =>
      }
      i := i + 1;
    }
  }

  method MessageAddresses(rs: array<RR>) returns (addrs: seq<Addr>)
    ensures addrs == Addresses(rs[..])
  {
    addrs := [];
    var i := 0;
    while i < rs.Length
      invariant 0 <= i <= rs.Length
      invariant addrs == Addresses(rs[..i])
    {
      assert rs[..i + 1][..i] == rs[..i];
      addrs := addrs + RecordAddrs(rs[i].data);
      i := i + 1;
    }
    assert rs[..i] == rs[..];
  }

  method AcceptedBy(check: Check, m: DnsMessage) returns (b: bool)
    ensures b == Accepted(check, m.Value())
  {
    if check.None? {
      return true;
    }
    if m.rcode != RCODE_SUCCESS || m.answer.Length == 0 {
      return false;
    }
    var addrs := MessageAddresses(m.answer);
    b := check.value(addrs);
  }

  /** A copy of a cached message with aged TTLs; the cached one is only read. */
  method AgedCopy(m: DnsMessage, left: int) returns (r: DnsMessage)
    requires left >= 0
    ensures fresh(r) && fresh(r.answer) && fresh(r.ns) && fresh(r.extra)
    ensures r.Value() == Aged(m.Value(), MinTTLOf(m.Value().All()), left)
  {
    var originTTL := MinTTL(m);
    r := Copy(m);
    AgeInPlace(r, originTTL, left);
  }

  method AgeInPlace(r: DnsMessage, originTTL: U32, left: int)
    requires r.Separate() && left >= 0
    modifies r.answer, r.ns, r.extra
    ensures r.Value() == Aged(old(r.Value()), originTTL, left)
  {
    if originTTL > 0 {
      var duration := Sub32(originTTL, left);
      ShiftSection(r.answer, duration);
      ShiftSection(r.ns, duration);
      ShiftSection(r.extra, duration);
    } else {
      RewriteTTLs(r, Sub32(left, 0));
    }
  }

  // ----- runs -----

  /** One successful store, with the reply as it was received. */
  datatype LogItem = LogItem(key: Key, received: Message, message: Message, ttl: U32, at: int, options: Options, check: Check) {
    /** The reply after trimming: what is stored but for the TTLs. */
    function Source(): Message { Trim(received, key.question.qtype, options.strategy) }
  }

  datatype State = State(entries: Entries, log: seq<LogItem>)

  /** Queries overlap, so a query's look-up and the delivery of its reply are separate events. */
  datatype Event =
    | LookedUp(question: Question, tag: Tag, now: int)
    | Replied(req: Request, tag: Tag, options: Options, check: Check, env: Env, upstream: Upstream)
    | Evicted(key: Key)
    | Purged

  /** Does this query, once past the cache, store its reply? */
  predicate Stores(cfg: Config, req: Request, options: Options, check: Check, env: Env, u: Upstream)
    requires req.questions != []
  {
    && !CacheOff(cfg, req, options) && !env.loopback && !(check.Some? && env.rdrcRejects) && !u.NoReply?
    && Accepted(check, Received(u)) && Storable(Received(u))
    && TTLOf(Trim(Received(u), req.questions[0].qtype, options.strategy), options.rewriteTTL) > 0
  }

  function LogFor(cfg: Config, req: Request, tag: Tag, options: Options, check: Check, env: Env, u: Upstream): LogItem
    requires req.questions != [] && Stores(cfg, req, options, check, env, u)
  {
    var q := req.questions[0];
    var trimmed := Trim(Received(u), q.qtype, options.strategy);
    var ttl := TTLOf(trimmed, options.rewriteTTL);
    LogItem(KeyOf(cfg, q, tag), Received(u), WithTTL(trimmed, ttl), ttl, env.storeAt, options, check)
  }

  function Do(cfg: Config, s: State, e: Event): State {
    match e
    case Replied(req, tag, options, check, env, u) =>
      if req.questions == [] then s
      else
        State(AfterMiss(cfg, s.entries, CacheOff(cfg, req, options), req.questions[0], tag, options, check, env, u).0,
              if Stores(cfg, req, options, check, env, u)
              then s.log + [LogFor(cfg, req, tag, options, check, env, u)] else s.log)
    case LookedUp(q, tag, now) => s.(entries := LoadStep(cfg, s.entries, KeyOf(cfg, q, tag), now).0)
    case Evicted(key) => s.(entries := s.entries - {key})
    case Purged => s.(entries := map[])
  }

  function After(cfg: Config, events: seq<Event>): State {
    if events == [] then State(map[], []) else Do(cfg, After(cfg, events[..|events| - 1]), events[|events| - 1])
  }

  function Last(log: seq<LogItem>, key: Key): Option<LogItem> {
    if log == [] then None
    else if log[|log| - 1].key == key then Some(log[|log| - 1])
    else Last(log[..|log| - 1], key)
  }

  /** What may be stored at all: an accepted success or name error, under the TTL rule, with a positive TTL. */
  predicate Proper(cfg: Config, item: LogItem) {
    && item.ttl > 0 && TTLRule(item.Source(), item.options.rewriteTTL, item.ttl)
    && item.message == WithTTL(item.Source(), item.ttl)
    && Storable(item.received) && Accepted(item.check, item.received)
    && !cfg.disableCache && !item.options.disableCache && !cfg.clientSubnet && !item.options.clientSubnet
  }

  ghost predicate Faithful(cfg: Config, s: State) {
    && (forall i :: 0 <= i < |s.log| ==> Proper(cfg, s.log[i]))
    && (forall key :: key in s.entries ==>
          var item := Last(s.log, key);
          item.Some? && s.entries[key] == Stored(item.value.message, Expiry(cfg, item.value.at, item.value.ttl)))
  }

  lemma {:induction false} LastIsLogged(log: seq<LogItem>, key: Key)
    ensures Last(log, key).Some? ==> Last(log, key).value in log && Last(log, key).value.key == key
  {
    if log != [] {
      LastIsLogged(log[..|log| - 1], key);
    }
  }

  lemma ReplyEntries(cfg: Config, s: State, req: Request, tag: Tag, options: Options, check: Check, env: Env, u: Upstream)
    requires req.questions != []
    ensures
      AfterMiss(cfg, s.entries, CacheOff(cfg, req, options), req.questions[0], tag, options, check, env, u).0 ==
        if Stores(cfg, req, options, check, env, u) then
          var item := LogFor(cfg, req, tag, options, check, env, u);
          s.entries[item.key := Stored(item.message, Expiry(cfg, item.at, item.ttl))]
        else s.entries
  {
  }

  /** An exchange is a look-up that hits, or a look-up followed by the delivery of its reply. */
  lemma ExchangeIsItsEvents(cfg: Config, s: State, req: Request, tag: Tag, options: Options, check: Check, env: Env, u: Upstream)
    requires req.questions != [] && !CacheOff(cfg, req, options) && !StrategyRejects(req.questions[0], options.strategy)
    ensures
      var looked := Do(cfg, s, LookedUp(req.questions[0], tag, env.loadAt));
      var (entries, outcome) := ExchangeStep(cfg, s.entries, req, tag, options, check, env, u);
      entries == if outcome.Hit? then looked.entries
                 else Do(cfg, looked, Replied(req, tag, options, check, env, u)).entries
  {
  }

  lemma LogForIsProper(cfg: Config, req: Request, tag: Tag, options: Options, check: Check, env: Env, u: Upstream)
    requires req.questions != [] && Stores(cfg, req, options, check, env, u)
    ensures Proper(cfg, LogFor(cfg, req, tag, options, check, env, u))
  {
    var item := LogFor(cfg, req, tag, options, check, env, u);
    TTLOfFollowsTheRule(item.Source(), options.rewriteTTL, item.ttl);
  }

  lemma DoIsFaithful(cfg: Config, s: State, e: Event)
    requires Faithful(cfg, s)
    ensures Faithful(cfg, Do(cfg, s, e))
  {
    if e.Replied? && e.req.questions != [] {
      ReplyEntries(cfg, s, e.req, e.tag, e.options, e.check, e.env, e.upstream);
      if Stores(cfg, e.req, e.options, e.check, e.env, e.upstream) {
        LogForIsProper(cfg, e.req, e.tag, e.options, e.check, e.env, e.upstream);
        var item := LogFor(cfg, e.req, e.tag, e.options, e.check, e.env, e.upstream);
        assert (s.log + [item])[..|s.log|] == s.log;
      }
    }
  }

  lemma {:induction false} RunIsFaithful(cfg: Config, events: seq<Event>)
    ensures Faithful(cfg, After(cfg, events))
  {
    if events != [] {
      RunIsFaithful(cfg, events[..|events| - 1]);
      DoIsFaithful(cfg, After(cfg, events[..|events| - 1]), events[|events| - 1]);
    }
  }

  lemma ProperAges(cfg: Config, item: LogItem, left: int)
    requires Proper(cfg, item) && left >= 0
    ensures Aged(item.message, MinTTLOf(item.message.All()), left) == WithTTL(item.Source(), Sub32(left, 0))
  {
    WithTTLUniform(item.Source(), item.ttl);
    AgedIsTimeLeft(item.message, item.ttl, left);
    WithTTLTwice(item.Source(), item.ttl, Sub32(left, 0));
  }

  lemma LoadOfLogged(cfg: Config, entries: Entries, key: Key, now: int, item: LogItem)
    requires Proper(cfg, item) && key in entries
    requires entries[key] == Stored(item.message, Expiry(cfg, item.at, item.ttl))
    ensures
      var hit := LoadStep(cfg, entries, key, now).1;
      hit.Some? ==>
        if cfg.disableExpire then hit.value == (item.message, 0)
        else
          var left := (item.at + SECOND * item.ttl - now) / SECOND;
          left >= 0 && hit.value == (WithTTL(item.Source(), Sub32(left, 0)), left)
  {
    if !cfg.disableExpire && now <= entries[key].expireAt {
      ProperAges(cfg, item, (entries[key].expireAt - now) / SECOND);
    }
  }

  /** Agreement with a plain history: in every run, with any evictions and any clock readings, a hit is the
      last reply stored under the same key, with every TTL replaced by the whole seconds left. */
  lemma HitIsLastStored(cfg: Config, events: seq<Event>, key: Key, now: int)
    requires LoadStep(cfg, After(cfg, events).entries, key, now).1.Some?
    ensures
      var hit := LoadStep(cfg, After(cfg, events).entries, key, now).1.value;
      var last := Last(After(cfg, events).log, key);
      && last.Some? && Proper(cfg, last.value)
      && if cfg.disableExpire then hit == (last.value.message, 0)
         else
           var left := (last.value.at + SECOND * last.value.ttl - now) / SECOND;
           left >= 0 && hit == (WithTTL(last.value.Source(), Sub32(left, 0)), left)
  {
    var s := After(cfg, events);
    RunIsFaithful(cfg, events);
    LastIsLogged(s.log, key);
    LoadOfLogged(cfg, s.entries, key, now, Last(s.log, key).value);
  }

  lemma WithTTLTwice(m: Message, a: U32, b: U32)
    ensures WithTTL(WithTTL(m, a), b) == WithTTL(m, b)
  {
    assert SetTTLs(SetTTLs(m.answer, a), b) == SetTTLs(m.answer, b);
    assert SetTTLs(SetTTLs(m.ns, a), b) == SetTTLs(m.ns, b);
    assert SetTTLs(SetTTLs(m.extra, a), b) == SetTTLs(m.extra, b);
  }

  /** Store at s with lifetime T, look up at t: a hit up to and including s + T, with every TTL equal to the
      whole seconds left; the value stays within T and no subtraction wraps exactly when the clock has not
      gone back by a second or more. */
  lemma StoreThenLoadAges(cfg: Config, entries: Entries, key: Key, source: Message, ttl: U32, s: int, t: int)
    requires !cfg.disableExpire && ttl > 0
    ensures
      var stored := StoreStep(cfg, entries, key, WithTTL(source, ttl), ttl, s);
      var (rest, hit) := LoadStep(cfg, stored, key, t);
      && SECOND * ttl < 0x8000_0000_0000_0000
      && (hit.Some? <==> t <= s + SECOND * ttl)
      && rest == (if hit.Some? then stored else stored - {key})
      && (hit.Some? ==>
            var left := (s + SECOND * ttl - t) / SECOND;
            && hit.value == (WithTTL(source, Sub32(left, 0)), left)
            && (left <= ttl <==> t > s - SECOND)
            && (left <= ttl ==> Sub32(left, 0) == left && Sub32(ttl, left) == ttl - left))
  {
    if t <= s + SECOND * ttl {
      var left := (s + SECOND * ttl - t) / SECOND;
      WithTTLUniform(source, ttl);
      AgedIsTimeLeft(WithTTL(source, ttl), ttl, left);
      WithTTLTwice(source, ttl, Sub32(left, 0));
    }
  }

  /** A query that must not use the cache neither reads nor changes it. */
  lemma CacheOffTouchesNothing(cfg: Config, entries: Entries, req: Request, tag: Tag, options: Options,
                               check: Check, env: Env, u: Upstream)
    requires req.questions == [] || CacheOff(cfg, req, options)
    ensures
      var (entries', outcome) := ExchangeStep(cfg, entries, req, tag, options, check, env, u);
      entries' == entries && !outcome.Hit?
  {
  }

  /** With a client-wide subnet nothing is ever stored, so no query, look-up of addresses included, ever hits. */
  lemma WideSubnetNeverCaches(cfg: Config, events: seq<Event>)
    requires cfg.clientSubnet
    ensures After(cfg, events).entries == map[]
  {
    var s := After(cfg, events);
    RunIsFaithful(cfg, events);
    forall key ensures key !in s.entries {
      LastIsLogged(s.log, key);
    }
  }

  lemma {:induction false} TTLsKeepAddresses(rs: seq<RR>, ttl: U32)
    ensures Addresses(SetTTLs(rs, ttl)) == Addresses(rs)
  {
    if rs != [] {
      TTLsKeepAddresses(rs[..|rs| - 1], ttl);
      assert SetTTLs(rs, ttl)[..|rs| - 1] == SetTTLs(rs[..|rs| - 1], ttl);
    }
  }

  lemma TTLsKeepAcceptance(check: Check, m: Message, ttl: U32)
    ensures Accepted(check, WithTTL(m, ttl)) <==> Accepted(check, m)
  {
    TTLsKeepAddresses(m.answer, ttl);
    assert |SetTTLs(m.answer, ttl)| == |m.answer|;
  }

  /** The TTL a hit comes with. */
  function LeftOf(cfg: Config, item: LogItem, now: int): U32 {
    if cfg.disableExpire then item.ttl else Sub32((item.at + SECOND * item.ttl - now) / SECOND, 0)
  }

  lemma LoadCarries(cfg: Config, entries: Entries, key: Key, now: int, item: LogItem)
    requires Proper(cfg, item) && key in entries
    requires entries[key] == Stored(item.message, Expiry(cfg, item.at, item.ttl))
    ensures
      var hit := LoadStep(cfg, entries, key, now).1;
      hit.Some? ==> hit.value.0 == WithTTL(item.Source(), LeftOf(cfg, item, now))
  {
    LoadOfLogged(cfg, entries, key, now, item);
  }

  lemma HitCarriesStored(cfg: Config, events: seq<Event>, key: Key, now: int)
    requires LoadStep(cfg, After(cfg, events).entries, key, now).1.Some?
    ensures
      var last := Last(After(cfg, events).log, key);
      && last.Some? && last.value.key == key && Proper(cfg, last.value)
      && LoadStep(cfg, After(cfg, events).entries, key, now).1.value.0 == WithTTL(last.value.Source(), LeftOf(cfg, last.value, now))
  {
    var s := After(cfg, events);
    RunIsFaithful(cfg, events);
    LastIsLogged(s.log, key);
    LoadCarries(cfg, s.entries, key, now, Last(s.log, key).value);
  }

  /** A hit is served without asking the caller's check.  In every run it satisfies that check exactly when the
      reply last stored under the key does, as it was stored; so it always satisfies the check it was stored
      under, except that trimming an HTTPS reply may have changed its addresses. */
  lemma HitMeetsCheckIff(cfg: Config, events: seq<Event>, req: Request, tag: Tag, options: Options, check: Check, env: Env, u: Upstream)
    requires ExchangeStep(cfg, After(cfg, events).entries, req, tag, options, check, env, u).1.Hit?
    ensures
      var hit := ExchangeStep(cfg, After(cfg, events).entries, req, tag, options, check, env, u).1.message;
      var last := Last(After(cfg, events).log, KeyOf(cfg, req.questions[0], tag));
      && last.Some?
      && (Accepted(check, hit) <==> Accepted(check, last.value.Source()))
      && (check == last.value.check && req.questions[0].qtype != TYPE_HTTPS ==> Accepted(check, hit))
  {
    var key := KeyOf(cfg, req.questions[0], tag);
    HitCarriesStored(cfg, events, key, env.loadAt);
    var item := Last(After(cfg, events).log, key).value;
    TTLsKeepAcceptance(check, item.Source(), LeftOf(cfg, item, env.loadAt));
  }

  ghost predicate LoggedBy(cfg: Config, e: Event, item: LogItem) {
    e.Replied? && e.req.questions != [] && Stores(cfg, e.req, e.options, e.check, e.env, e.upstream) &&
    item == LogFor(cfg, e.req, e.tag, e.options, e.check, e.env, e.upstream)
  }

  lemma {:induction false} LogHasEvent(cfg: Config, events: seq<Event>, item: LogItem) returns (j: nat)
    requires item in After(cfg, events).log
    ensures j < |events| && LoggedBy(cfg, events[j], item)
  {
    var n := |events| - 1;
    if LoggedBy(cfg, events[n], item) {
      j := n;
    } else {
      j := LogHasEvent(cfg, events[..n], item);
    }
  }

  /** Do two queries share an entry? */
  predicate Shares(cfg: Config, q: Question, tag: Tag, other: Question, otherTag: Tag) {
    q == other && (cfg.independent ==> tag == otherTag)
  }

  /** Every hit goes back to a reply given in the run to the same question, with independent caches by the same server: a
      success or name error that passed the check of its own query, here with new TTLs. */
  lemma HitComesFromAReply(cfg: Config, events: seq<Event>, req: Request, tag: Tag, options: Options, check: Check, env: Env, u: Upstream)
    returns (j: nat)
    requires ExchangeStep(cfg, After(cfg, events).entries, req, tag, options, check, env, u).1.Hit?
    ensures j < |events| && events[j].Replied? && !events[j].upstream.NoReply?
    ensures
      var e, hit := events[j], ExchangeStep(cfg, After(cfg, events).entries, req, tag, options, check, env, u).1.message;
      var m := if e.upstream.Reply? then e.upstream.message else Message(e.upstream.rcode, [], [], []);
      && |e.req.questions| == 1 && UsesCache(cfg, e.req, e.options)
      && e.req.questions[0] == req.questions[0] && (cfg.independent ==> e.tag == tag)
      && m.rcode in {RCODE_SUCCESS, RCODE_NAME_ERROR} && !RefusedBy(e.check, m)
      && exists ttl: U32 :: hit == WithTTL(Trim(m, req.questions[0].qtype, e.options.strategy), ttl)
  {
    var key := KeyOf(cfg, req.questions[0], tag);
    HitCarriesStored(cfg, events, key, env.loadAt);
    LastIsLogged(After(cfg, events).log, key);
    var item := Last(After(cfg, events).log, key).value;
    j := LogHasEvent(cfg, events, item);
    assert item.received == Received(events[j].upstream);
  }

  /** What can cost a query its entry: a purge, an eviction for its question, a look-up after the expiry, or a newer reply. */
  predicate Disturbs(cfg: Config, e: Event, q: Question, tag: Tag, until: int) {
    match e
    case Purged => true
    case Evicted(key) => key.question == q
    case LookedUp(other, otherTag, now) => Shares(cfg, q, tag, other, otherTag) && !cfg.disableExpire && now > until
    case Replied(req, otherTag, _, _, _, _) => req.questions != [] && Shares(cfg, q, tag, req.questions[0], otherTag)
  }

  lemma UndisturbedStep(cfg: Config, s: State, e: Event, q: Question, tag: Tag, entry: Stored)
    requires KeyOf(cfg, q, tag) in s.entries && s.entries[KeyOf(cfg, q, tag)] == entry
    requires !Disturbs(cfg, e, q, tag, entry.expireAt)
    ensures KeyOf(cfg, q, tag) in Do(cfg, s, e).entries && Do(cfg, s, e).entries[KeyOf(cfg, q, tag)] == entry
  {
    if e.Replied? && e.req.questions != [] {
      ReplyEntries(cfg, s, e.req, e.tag, e.options, e.check, e.env, e.upstream);
    }
  }

  lemma {:induction false} EntryStays(cfg: Config, before: seq<Event>, later: seq<Event>, q: Question, tag: Tag, entry: Stored)
    requires KeyOf(cfg, q, tag) in After(cfg, before).entries && After(cfg, before).entries[KeyOf(cfg, q, tag)] == entry
    requires forall i :: 0 <= i < |later| ==> !Disturbs(cfg, later[i], q, tag, entry.expireAt)
    ensures KeyOf(cfg, q, tag) in After(cfg, before + later).entries
    ensures After(cfg, before + later).entries[KeyOf(cfg, q, tag)] == entry
  {
    if later == [] {
      assert before + later == before;
    } else {
      var n := |later| - 1;
      assert (before + later)[..|before| + n] == before + later[..n];
      EntryStays(cfg, before, later[..n], q, tag, entry);
      UndisturbedStep(cfg, After(cfg, before + later[..n]), later[n], q, tag, entry);
    }
  }

  /** And every such reply is a hit, up to its expiry and until something takes it away, for every query that shares its
      entry: with the shared cache whichever server it asks. */
  lemma StoredReplyHits(cfg: Config, before: seq<Event>, e: Event, later: seq<Event>, m: Message, req: Request, tag: Tag,
                        options: Options, check: Check, env: Env, u: Upstream)
    requires e.Replied? && e.upstream == Reply(m) && UsesCache(cfg, e.req, e.options) && UsesCache(cfg, req, options)
    requires !e.env.loopback && !(e.check.Some? && e.env.rdrcRejects) && !RefusedBy(e.check, m)
    requires m.rcode in {RCODE_SUCCESS, RCODE_NAME_ERROR}
    requires TTLOf(Trim(m, e.req.questions[0].qtype, e.options.strategy), e.options.rewriteTTL) > 0
    requires Shares(cfg, e.req.questions[0], e.tag, req.questions[0], tag) && !StrategyRejects(req.questions[0], options.strategy)
    requires
      var until := e.env.storeAt + SECOND * TTLOf(Trim(m, e.req.questions[0].qtype, e.options.strategy), e.options.rewriteTTL);
      && (cfg.disableExpire || env.loadAt <= until)
      && forall i :: 0 <= i < |later| ==> !Disturbs(cfg, later[i], req.questions[0], tag, until)
    ensures ExchangeStep(cfg, After(cfg, before + [e] + later).entries, req, tag, options, check, env, u).1.Hit?
  {
    var s, q := After(cfg, before), req.questions[0];
    assert (before + [e])[..|before|] == before;
    assert Stores(cfg, e.req, e.options, e.check, e.env, e.upstream);
    ReplyEntries(cfg, s, e.req, e.tag, e.options, e.check, e.env, e.upstream);
    var item := LogFor(cfg, e.req, e.tag, e.options, e.check, e.env, e.upstream);
    var entry := Stored(item.message, Expiry(cfg, item.at, item.ttl));
    assert After(cfg, before + [e]).entries == s.entries[item.key := entry] && item.key == KeyOf(cfg, q, tag);
    forall i | 0 <= i < |later| ensures !Disturbs(cfg, later[i], q, tag, entry.expireAt) {
      assert !Disturbs(cfg, later[i], q, tag, item.at + SECOND * item.ttl);
    }
    EntryStays(cfg, before + [e], later, q, tag, entry);
  }

  /** Does this event take every entry for the question away? */
  predicate Removes(cfg: Config, e: Event, q: Question, tag: Tag) { e.Purged? || e == Evicted(KeyOf(cfg, q, tag)) }

  predicate Revives(cfg: Config, e: Event, q: Question, tag: Tag) {
    e.Replied? && e.req.questions != [] && Shares(cfg, q, tag, e.req.questions[0], e.tag)
  }

  lemma {:induction false} GoneStays(cfg: Config, before: seq<Event>, later: seq<Event>, q: Question, tag: Tag)
    requires KeyOf(cfg, q, tag) !in After(cfg, before).entries
    requires forall i :: 0 <= i < |later| ==> !Revives(cfg, later[i], q, tag)
    ensures KeyOf(cfg, q, tag) !in After(cfg, before + later).entries
  {
    if later == [] {
      assert before + later == before;
    } else {
      var n := |later| - 1;
      assert (before + later)[..|before| + n] == before + later[..n];
      GoneStays(cfg, before, later[..n], q, tag);
      var e := later[n];
      if e.Replied? && e.req.questions != [] {
        ReplyEntries(cfg, After(cfg, before + later[..n]), e.req, e.tag, e.options, e.check, e.env, e.upstream);
      }
    }
  }

  /** What was purged or evicted does not come back without a new reply: until then there is no hit. */
  lemma RemovedMisses(cfg: Config, before: seq<Event>, e: Event, later: seq<Event>, req: Request, tag: Tag,
                      options: Options, check: Check, env: Env, u: Upstream)
    requires req.questions != [] && Removes(cfg, e, req.questions[0], tag)
    requires forall i :: 0 <= i < |later| ==> !Revives(cfg, later[i], req.questions[0], tag)
    ensures !ExchangeStep(cfg, After(cfg, before + [e] + later).entries, req, tag, options, check, env, u).1.Hit?
  {
    assert (before + [e])[..|before|] == before;
    GoneStays(cfg, before + [e], later, req.questions[0], tag);
  }

  /** What this query's own options would make of a reply. */
  function Prepared(m: Message, qtype: nat, options: Options): Message {
    var trimmed := Trim(m, qtype, options.strategy);
    WithTTL(trimmed, TTLOf(trimmed, options.rewriteTTL))
  }

  lemma {:induction false} SetTTLsAgree(a: seq<RR>, b: seq<RR>, s: U32, t: U32)
    requires |a| == |b| && forall i :: 0 <= i < |a| ==> a[i].ttl == b[i].ttl
    ensures SetTTLs(a, s) == SetTTLs(b, t) <==> a == b && (a == [] || s == t)
  {
    var x, y := SetTTLs(a, s), SetTTLs(b, t);
    assert forall i :: 0 <= i < |a| ==> x[i] == a[i].(ttl := s) && y[i] == b[i].(ttl := t);
    if x == y {
      forall i | 0 <= i < |a| ensures a[i] == b[i] && s == t {
        assert a[i].(ttl := s) == x[i] == y[i] == b[i].(ttl := t);
      }
      assert a == b;
      assert a != [] ==> x[0].ttl == s && y[0].ttl == t;
    }
  }

  lemma TrimsAgree(m: Message, qtype: nat, one: Strategy, other: Strategy, s: U32, t: U32)
    ensures WithTTL(Trim(m, qtype, one), s) == WithTTL(Trim(m, qtype, other), t) <==>
      Trim(m, qtype, one) == Trim(m, qtype, other) && (m.All() == [] || s == t)
  {
    var a, b := Trim(m, qtype, one), Trim(m, qtype, other);
    SetTTLsAgree(a.answer, b.answer, s, t);
    SetTTLsAgree(a.ns, b.ns, s, t);
    SetTTLsAgree(a.extra, b.extra, s, t);
    assert m.All() == [] <==> m.answer == [] && m.ns == [] && m.extra == [];
  }

  /** A hit also ignores the strategy and the rewrite TTL of the query it is served to.  It is what this query's own
      options would have made of the reply last stored exactly when its strategy trims that reply like the storing
      query's and, unless the reply is empty, the TTL it would choose is the one left. */
  lemma HitIsOwnAnswerIff(cfg: Config, events: seq<Event>, req: Request, tag: Tag, options: Options, check: Check, env: Env, u: Upstream)
    requires ExchangeStep(cfg, After(cfg, events).entries, req, tag, options, check, env, u).1.Hit?
    ensures
      var hit := ExchangeStep(cfg, After(cfg, events).entries, req, tag, options, check, env, u).1.message;
      var qtype, last := req.questions[0].qtype, Last(After(cfg, events).log, KeyOf(cfg, req.questions[0], tag));
      && last.Some?
      && var own := Trim(last.value.received, qtype, options.strategy);
         (hit == Prepared(last.value.received, qtype, options) <==>
            own == last.value.Source() &&
            (last.value.received.All() == [] || LeftOf(cfg, last.value, env.loadAt) == TTLOf(own, options.rewriteTTL)))
  {
    var q := req.questions[0];
    HitCarriesStored(cfg, events, KeyOf(cfg, q, tag), env.loadAt);
    var item := Last(After(cfg, events).log, KeyOf(cfg, q, tag)).value;
    TrimsAgree(item.received, q.qtype, item.options.strategy, options.strategy, LeftOf(cfg, item, env.loadAt),
               TTLOf(Trim(item.received, q.qtype, options.strategy), options.rewriteTTL));
  }

  /** Two queries: the first, without a check, stores address 7; the second would refuse it and is given it. */
  lemma HitsSkipTheCheck() returns (events: seq<Event>, second: Outcome)
    ensures second == ExchangeStep(Config(false, false, false, false), After(Config(false, false, false, false), events).entries,
                                   Request(2, [Question(5, TYPE_A)], true), 0, Options(AsIs, false, None, false),
                                   Some((addrs: seq<Addr>) => 7 !in addrs), Env(false, false, SECOND, SECOND), NoReply).1
    ensures second.Hit? && Addresses(second.message.answer) == [7]
  {
    var cfg, q, options := Config(false, false, false, false), Question(5, TYPE_A), Options(AsIs, false, None, false);
    var check, env := Some((addrs: seq<Addr>) => 7 !in addrs), Env(false, false, SECOND, SECOND);
    var reply := Message(RCODE_SUCCESS, [RR(Address(7), 60)], [], []);
    var first := Replied(Request(1, [q], true), 0, options, None, Env(false, false, 0, 0), Reply(reply));
    events := [first];
    assert events[..0] == [];
    var entries := After(cfg, events).entries;
    assert reply.All() == [RR(Address(7), 60)] && reply.All()[..0] == [];
    assert TTLOf(reply, None) == 60 && Trim(reply, TYPE_A, AsIs) == reply;
    var start := State(map[], []);
    assert After(cfg, events[..0]) == start && After(cfg, events) == Do(cfg, start, first);
    assert Received(first.upstream) == reply && Accepted(None, reply);
    assert Stores(cfg, first.req, options, None, first.env, first.upstream);
    ReplyEntries(cfg, State(map[], []), first.req, first.tag, first.options, None, first.env, first.upstream);
    assert entries == map[KeyOf(cfg, q, 0) := Stored(WithTTL(reply, 60), SECOND * 60)];
    second := ExchangeStep(cfg, entries, Request(2, [q], true), 0, options, check, env, NoReply).1;
    HitMeetsCheckIff(cfg, events, Request(2, [q], true), 0, options, check, env, NoReply);
    HitIsLastStored(cfg, events, KeyOf(cfg, q, 0), SECOND);
    TTLsKeepAddresses(reply.answer, Sub32(59, 0));
    assert reply.answer[..0] == [] && Addresses(reply.answer) == [7];
  }
}
