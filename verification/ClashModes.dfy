/**
  The list of Clash modes offered to clients: collected from the route and DNS rule trees,
  deduplicated, the user's own modes in ascending order before the predefined ones.
 */
module ClashModes {
  type Mode = string

  datatype Rule = Default(mode: Mode) | Logical(rules: seq<Rule>) | OtherKind

  const PREDEFINED: seq<Mode> := ["Rule", "Global", "Direct"]

  // ----- the specification -----

  /** The mode occurs in a default rule somewhere in the trees. */
  predicate Occurs(rules: seq<Rule>, mode: Mode) {
    exists r :: r in rules && OccursIn(r, mode)
  }

  predicate OccursIn(r: Rule, mode: Mode) {
    match r
    case Default(m) => m == mode
    case Logical(rules) => exists sub :: sub in rules && OccursIn(sub, mode)
    case OtherKind => false
  }

  /** Nesting and splitting rules makes no difference to what occurs; a default rule contributes its own mode. */
  lemma OccursLaws(a: seq<Rule>, b: seq<Rule>, x: Mode, m: Mode)
    ensures Occurs(a + b, m) <==> Occurs(a, m) || Occurs(b, m)
    ensures Occurs([Logical(a)], m) <==> Occurs(a, m)
    ensures Occurs([Default(x)], m) <==> m == x
    ensures !Occurs([OtherKind], m) && !Occurs([], m)
  {
    assert Logical(a) in [Logical(a)] && Default(x) in [Default(x)];
    assert OccursIn(Logical(a), m) <==> Occurs(a, m);
    if Occurs(a, m) {
      var r :| r in a && OccursIn(r, m);
      assert r in a + b;
    }
    if Occurs(b, m) {
      var r :| r in b && OccursIn(r, m);
      assert r in a + b;
    }
  }

  ghost function ModesIn(r: Rule): (modes: set<Mode>)
    ensures forall m :: m in modes <==> m != "" && OccursIn(r, m)
  {
    match r
    case Default(m) => {m} - {""}
    case Logical(rules) =>
      assert forall sub :: sub in rules ==> forall m :: m in ModesIn(sub) <==> m != "" && OccursIn(sub, m);
      set sub, m | sub in rules && m in ModesIn(sub) :: m
    case OtherKind => {}
  }

  /** Every mode named anywhere in the two rule trees. */
  ghost function Configured(routeRules: seq<Rule>, dnsRules: seq<Rule>): (modes: set<Mode>)
    ensures forall m :: m in modes <==> m != "" && (Occurs(routeRules, m) || Occurs(dnsRules, m))
  {
    ModesIn(Logical(routeRules)) + ModesIn(Logical(dnsRules))
  }

  /** Byte order of strings. */
  predicate Less(a: Mode, b: Mode) {
    if b == [] then false
    else if a == [] then true
    else a[0] < b[0] || (a[0] == b[0] && Less(a[1..], b[1..]))
  }

  predicate Ascending(s: seq<Mode>) { forall i, j :: 0 <= i < j < |s| ==> Less(s[i], s[j]) }

  /** The predefined modes that occur, in their fixed order. */
  function Predefined(modes: set<Mode>, order: seq<Mode>): seq<Mode> {
    if order == [] then [] else (if order[0] in modes then [order[0]] else []) + Predefined(modes, order[1..])
  }

  /** The list wanted for a set of modes: own modes strictly ascending, then the predefined ones. */
  ghost predicate IsModeList(modes: set<Mode>, list: seq<Mode>) {
    exists k :: 0 <= k <= |list| && IsSplitAt(modes, list, k)
  }

  ghost predicate IsSplitAt(modes: set<Mode>, list: seq<Mode>, k: nat)
    requires k <= |list|
  {
    && Ascending(list[..k])
    && (forall m :: m in list[..k] <==> m in modes && m !in PREDEFINED)
    && list[k..] == Predefined(modes, PREDEFINED)
  }

  lemma PredefinedCons(modes: set<Mode>, m: Mode, rest: seq<Mode>)
    ensures Predefined(modes, [m] + rest) == (if m in modes then [m] else []) + Predefined(modes, rest)
  {
    assert ([m] + rest)[1..] == rest;
  }

  /** The predefined modes come in the order Rule, Global, Direct, each exactly if it is in the set. */
  lemma PredefinedAre(modes: set<Mode>)
    ensures Predefined(modes, PREDEFINED) ==
      (if "Rule" in modes then ["Rule"] else []) + ((if "Global" in modes then ["Global"] else []) +
      (if "Direct" in modes then ["Direct"] else []))
  {
    var none: seq<Mode> := [];
    assert PREDEFINED == ["Rule"] + (["Global"] + (["Direct"] + none));
    PredefinedCons(modes, "Rule", ["Global"] + (["Direct"] + none));
    PredefinedCons(modes, "Global", ["Direct"] + none);
    PredefinedCons(modes, "Direct", none);
    assert Predefined(modes, none) == none;
  }

  lemma PredefinedOnce(modes: set<Mode>)
    ensures forall m :: m in Predefined(modes, PREDEFINED) <==> m in modes && m in PREDEFINED
    ensures forall i, j :: 0 <= i < j < |Predefined(modes, PREDEFINED)| ==> Predefined(modes, PREDEFINED)[i] != Predefined(modes, PREDEFINED)[j]
  {
    PredefinedAre(modes);
  }

  lemma AscendingIsDistinct(s: seq<Mode>)
    requires Ascending(s)
    ensures forall i, j :: 0 <= i < j < |s| ==> s[i] != s[j]
  {
    forall i, j | 0 <= i < j < |s| ensures s[i] != s[j] {
      LessTotal(s[i], s[j]);
    }
  }

  lemma DisjointParts(a: seq<Mode>, b: seq<Mode>)
    requires forall i, j :: 0 <= i < j < |a| ==> a[i] != a[j]
    requires forall i, j :: 0 <= i < j < |b| ==> b[i] != b[j]
    requires forall m :: m in a ==> m !in b
    ensures forall i, j :: 0 <= i < j < |a + b| ==> (a + b)[i] != (a + b)[j]
  {
    forall i, j | 0 <= i < j < |a + b| ensures (a + b)[i] != (a + b)[j] {
      if i < |a| <= j {
        assert a[i] in a && b[j - |a|] in b;
      }
    }
  }

  /** A mode list names each mode of the set, and nothing else, once. */
  lemma ModeListNamesEachOnce(modes: set<Mode>, list: seq<Mode>)
    requires IsModeList(modes, list)
    ensures forall m :: m in list <==> m in modes
    ensures forall i, j :: 0 <= i < j < |list| ==> list[i] != list[j]
  {
    var k :| 0 <= k <= |list| && IsSplitAt(modes, list, k);
    assert list == list[..k] + list[k..];
    PredefinedOnce(modes);
    AscendingIsDistinct(list[..k]);
    DisjointParts(list[..k], list[k..]);
  }

  // ----- order -----

  lemma {:induction false} LessTransitive(a: Mode, b: Mode, c: Mode)
    requires Less(a, b) && Less(b, c)
    ensures Less(a, c)
    decreases |a|
  {
    if a != [] && a[0] == b[0] && b[0] == c[0] {
      LessTransitive(a[1..], b[1..], c[1..]);
    }
  }

  lemma {:induction false} LessTotal(a: Mode, b: Mode)
    ensures !(Less(a, b) && Less(b, a)) && (Less(a, b) || Less(b, a) <==> a != b)
    decreases |a|
  {
    if a != [] && b != [] && a[0] == b[0] {
      LessTotal(a[1..], b[1..]);
      assert a == [a[0]] + a[1..] && b == [b[0]] + b[1..];
    }
  }

  /** The order is that of a dictionary: the first difference decides, and a beginning comes before the whole. */
  lemma {:induction false} FirstDifferenceDecides(common: Mode, c: char, d: char, u: Mode, v: Mode)
    ensures Less(common, common + [c] + u)
    ensures c < d ==> Less(common + [c] + u, common + [d] + v)
  {
    var a, b := common + [c] + u, common + [d] + v;
    if common != [] {
      FirstDifferenceDecides(common[1..], c, d, u, v);
      assert a[1..] == common[1..] + [c] + u && b[1..] == common[1..] + [d] + v;
    }
  }

  lemma HeadIsMember(s: seq<Mode>)
    ensures s != [] ==> s[0] in s
  {
  }

  /** Ascending lists with the same members are the same list. */
  lemma {:induction false} AscendingIsUnique(a: seq<Mode>, b: seq<Mode>)
    requires Ascending(a) && Ascending(b) && forall m :: m in a <==> m in b
    ensures a == b
    decreases |a|
  {
    if a == [] {
      HeadIsMember(b);
    } else {
      assert a[0] in a;
      var k :| 0 <= k < |b| && b[k] == a[0];
      assert b[0] in b;
      var j :| 0 <= j < |a| && a[j] == b[0];
      LessTotal(a[0], b[0]);
      assert a[0] == b[0];
      forall m ensures m in a[1..] <==> m in b[1..] {
        LessTotal(a[0], m);
        assert m in a[1..] ==> m in a && m != a[0];
        assert m in b[1..] ==> m in b && m != b[0];
        assert m in a && m != a[0] ==> m in a[1..];
        assert m in b && m != b[0] ==> m in b[1..];
      }
      AscendingIsUnique(a[1..], b[1..]);
    }
  }

  /** The list is determined by the set of modes alone: neither the order nor the nesting of rules matters. */
  lemma ModeListIsCanonical(modes: set<Mode>, a: seq<Mode>, b: seq<Mode>)
    requires IsModeList(modes, a) && IsModeList(modes, b)
    ensures a == b
  {
    var i :| 0 <= i <= |a| && IsSplitAt(modes, a, i);
    var j :| 0 <= j <= |b| && IsSplitAt(modes, b, j);
    AscendingIsUnique(a[..i], b[..j]);
    assert a == a[..i] + a[i..] && b == b[..j] + b[j..];
  }

  // ----- the program's own form -----

  method ExtraClashMode(rules: seq<Rule>) returns (modes: seq<Mode>)
    ensures forall m :: m in modes <==> m != "" && Occurs(rules, m)
    decreases rules
  {
    modes := [];
    var i := 0;
    while i < |rules|
      invariant 0 <= i <= |rules|
      invariant forall m :: m in modes <==> m != "" && Occurs(rules[..i], m)
    {
      ghost var before := modes;
      OccursSnoc(rules, i);
      match rules[i] {
        case Default(mode) =>
          assert forall m :: OccursIn(rules[i], m) <==> m == mode;
          if mode != "" {
            modes := modes + [mode];
          }
          assert forall m :: m in modes <==> m in before || (m == mode && m != "");
        case Logical(subrules) =>
          var inner := ExtraClashMode(subrules);
          assert forall m :: OccursIn(rules[i], m) <==> Occurs(subrules, m);
          assert forall m :: m in before + inner <==> m in before || m in inner;
          modes := modes + inner;
        case OtherKind =>
          assert forall m :: !OccursIn(rules[i], m);
      }
      i := i + 1;
    }
    assert rules[..i] == rules;
  }

  lemma OccursSnoc(rules: seq<Rule>, i: nat)
    requires i < |rules|
    ensures forall m :: Occurs(rules[..i + 1], m) <==> Occurs(rules[..i], m) || OccursIn(rules[i], m)
  {
    var longer := rules[..i + 1];
    assert longer == rules[..i] + [rules[i]];
    assert forall r :: r in longer <==> r in rules[..i] || r == rules[i];
  }

  /** Uniq and FilterNotDefault in one: the first occurrences of the non-empty modes. */
  method UniqueNonEmpty(modes: seq<Mode>) returns (u: seq<Mode>)
    ensures forall i, j :: 0 <= i < j < |u| ==> u[i] != u[j]
    ensures forall m :: m in u <==> m in modes && m != ""
  {
    u := [];
    for i := 0 to |modes|
      invariant forall a, b :: 0 <= a < b < |u| ==> u[a] != u[b]
      invariant forall m :: m in u <==> m in modes[..i] && m != ""
    {
      assert modes[..i + 1] == modes[..i] + [modes[i]];
      if modes[i] != "" && modes[i] !in u {
        u := u + [modes[i]];
      }
    }
    assert modes[..|modes|] == modes;
  }

  method Insert(sorted: seq<Mode>, m: Mode) returns (r: seq<Mode>)
    requires Ascending(sorted) && m !in sorted
    ensures Ascending(r) && forall x :: x in r <==> x in sorted || x == m
  {
    var k := 0;
    while k < |sorted| && Less(sorted[k], m)
      invariant 0 <= k <= |sorted|
      invariant forall i :: 0 <= i < k ==> Less(sorted[i], m)
    {
      k := k + 1;
    }
    r := sorted[..k] + [m] + sorted[k..];
    assert sorted == sorted[..k] + sorted[k..];
    if k < |sorted| {
      LessTotal(sorted[k], m);
      forall i | k <= i < |sorted| ensures Less(m, sorted[i]) {
        if i > k { LessTransitive(m, sorted[k], sorted[i]); }
      }
    }
  }

  /** sort.Strings on distinct strings. */
  method SortModes(modes: seq<Mode>) returns (sorted: seq<Mode>)
    requires forall i, j :: 0 <= i < j < |modes| ==> modes[i] != modes[j]
    ensures Ascending(sorted) && forall m :: m in sorted <==> m in modes
  {
    sorted := [];
    for i := 0 to |modes|
      invariant Ascending(sorted) && forall m :: m in sorted <==> m in modes[..i]
    {
      assert modes[..i + 1] == modes[..i] + [modes[i]];
      assert modes[i] !in modes[..i];
      sorted := Insert(sorted, modes[i]);
    }
    assert modes[..|modes|] == modes;
  }

  method OwnModes(clashModes: seq<Mode>) returns (own: seq<Mode>)
    requires forall i, j :: 0 <= i < j < |clashModes| ==> clashModes[i] != clashModes[j]
    ensures forall i, j :: 0 <= i < j < |own| ==> own[i] != own[j]
    ensures forall m :: m in own <==> m in clashModes && m !in PREDEFINED
  {
    own := [];
    for i := 0 to |clashModes|
      invariant forall a, b :: 0 <= a < b < |own| ==> own[a] != own[b]
      invariant forall m :: m in own <==> m in clashModes[..i] && m !in PREDEFINED
    {
      assert clashModes[..i + 1] == clashModes[..i] + [clashModes[i]];
      assert clashModes[i] !in clashModes[..i];
      if clashModes[i] !in PREDEFINED {
        own := own + [clashModes[i]];
      }
    }
    assert clashModes[..|clashModes|] == clashModes;
  }

  method AppendPredefined(own: seq<Mode>, clashModes: seq<Mode>, order: seq<Mode>) returns (list: seq<Mode>)
    ensures list == own + Predefined((set m | m in clashModes), order)
  {
    list := own;
    ghost var modes := set m | m in clashModes;
    assert order[0..] == order;
    for i := 0 to |order|
      invariant list + Predefined(modes, order[i..]) == own + Predefined(modes, order)
    {
      assert order[i..][1..] == order[i + 1..];
      if order[i] in clashModes {
        list := list + [order[i]];
      }
    }
  }

  method CalculateClashModeList(routeRules: seq<Rule>, dnsRules: seq<Rule>) returns (list: seq<Mode>)
    ensures IsModeList(Configured(routeRules, dnsRules), list)
  {
    var fromRoute := ExtraClashMode(routeRules);
    var fromDNS := ExtraClashMode(dnsRules);
    var clashModes := UniqueNonEmpty(fromRoute + fromDNS);
    ghost var modes := set m | m in clashModes;
    assert modes == Configured(routeRules, dnsRules);
    var own := OwnModes(clashModes);
    var sorted := SortModes(own);
    list := AppendPredefined(sorted, clashModes, PREDEFINED);
    assert list[..|sorted|] == sorted;
    assert IsSplitAt(modes, list, |sorted|);
  }
}
