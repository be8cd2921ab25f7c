/** internal/server/server.go, registerIPViolation and isIPBlocked: a sliding window of
    protocol violations per address, and the temporary block it leads to. */
module Violations {
  import opened Results
  import opened Sums
  import opened Commands

  datatype Rules = Rules(limit: int, window: int, blockFor: int)

  datatype HostState = HostState(violations: seq<Time>, blockedTil: Option<Time>)

  const CLEAN := HostState([], None)

  function After(cutoff: Time): Time -> bool {
    (ts: Time) => ts > cutoff
  }

  function Register(rules: Rules, s: HostState, now: Time): HostState {
    var recent := Filter(s.violations, After(now - rules.window)) + [now];
    if |recent| >= rules.limit then HostState([], Some(now + rules.blockFor)) else s.(violations := recent)
  }

  predicate Blocked(s: HostState, now: Time) {
    s.blockedTil.Some? && now < s.blockedTil.value
  }

  /** Asking after the block has run out resets the address. */
  function Checked(s: HostState, now: Time): HostState {
    if s.blockedTil.Some? && now >= s.blockedTil.value then CLEAN else s
  }

  // ---- The objects of the source ----

  class Guard {
    const rules: Rules
    var hosts: map<string, HostState>

    /** What happened to each address so far. */
    ghost var past: map<string, seq<Op>>

    constructor (rules: Rules)
      ensures this.rules == rules && hosts == map[] && past == map[] && Valid()
    {
      this.rules := rules;
      hosts := map[];
      past := map[];
    }

    /** Every address is in the state its past brings about. */
    ghost predicate Valid()
      reads this
    {
      Consistent(rules, hosts, past)
    }

    method RegisterIPViolation(host: string, now: Time)
      requires Valid()
      modifies this
      ensures Valid()
      ensures rules.limit <= 0 || host == "" ==> hosts == old(hosts) && past == old(past)
      ensures rules.limit > 0 && host != "" ==>
                && hosts == old(hosts)[host := Register(rules, StateOf(old(hosts), host), now)]
                && past == Happened(old(past), host, Violation(now))
    {
      if rules.limit <= 0 || host == "" { return; }
      StaysConsistent(rules, hosts, past, host, Violation(now));
      var st := Count(if host in hosts then hosts[host] else CLEAN, now);
      hosts := hosts[host := st];
      past := Happened(past, host, Violation(now));
    }

    /** Prune in place, append, and start a block at the limit. */
    method Count(st: HostState, now: Time) returns (st': HostState)
      ensures st' == Register(rules, st, now)
    {
      var cutoff := now - rules.window;
      var buf := new Time[|st.violations|](i requires 0 <= i < |st.violations| => st.violations[i]);
      assert buf[..] == st.violations;
      var n, _ := KeepInPlace(buf, After(cutoff));
      st' := st.(violations := buf[..n] + [now]);
      if |st'.violations| >= rules.limit {
        st' := HostState([], Some(now + rules.blockFor));
      }
    }

    /** Whether the address is turned away: exactly if its past has left a block standing that is
        not over, as long as nothing was pruned early. */
    method IsIPBlocked(host: string, now: Time) returns (blocked: bool)
      requires Valid()
      modifies this
      ensures Valid()
      ensures blocked <==> rules.limit > 0 && Blocked(StateOf(old(hosts), host), now)
      ensures rules.limit > 0 ==> TurnedAway(rules, PastOf(old(past), host), now, blocked)
      ensures hosts == if rules.limit > 0 && host in old(hosts)
                       then old(hosts)[host := Checked(old(hosts)[host], now)] else old(hosts)
      ensures past == if rules.limit > 0 then Happened(old(past), host, Check(now)) else old(past)
    {
      if rules.limit <= 0 { return false; }
      StaysConsistent(rules, hosts, past, host, Check(now));
      AnswerIs(rules, hosts, past, host, now);
      past := Happened(past, host, Check(now));
      if host !in hosts { return false; }
      var st := hosts[host];
      assert hosts[host := st] == hosts;
      if st.blockedTil == None { return false; }
      if now < st.blockedTil.value { return true; }
      hosts := hosts[host := CLEAN];
      return false;
    }
  }

  function StateOf(hosts: map<string, HostState>, host: string): HostState {
    if host in hosts then hosts[host] else CLEAN
  }

  function PastOf(past: map<string, seq<Op>>, host: string): seq<Op> {
    if host in past then past[host] else []
  }

  function Happened(past: map<string, seq<Op>>, host: string, op: Op): map<string, seq<Op>> {
    past[host := PastOf(past, host) + [op]]
  }

  ghost predicate Consistent(rules: Rules, hosts: map<string, HostState>, past: map<string, seq<Op>>) {
    forall host: string :: StateOf(hosts, host) == Run(rules, PastOf(past, host))
  }

  /** An operation on one address leaves the others alone; a check of an unknown one does nothing. */
  lemma StaysConsistent(rules: Rules, hosts: map<string, HostState>, past: map<string, seq<Op>>, host: string, op: Op)
    requires Consistent(rules, hosts, past)
    ensures Consistent(rules, hosts[host := Step(rules, StateOf(hosts, host), op)], Happened(past, host, op))
    ensures op.Check? && host !in hosts ==> Consistent(rules, hosts, Happened(past, host, op))
  {
    RunPush(rules, PastOf(past, host), op);
    forall other: string
      ensures StateOf(hosts[host := Step(rules, StateOf(hosts, host), op)], other) == Run(rules, PastOf(Happened(past, host, op), other))
      ensures op.Check? && host !in hosts ==> StateOf(hosts, other) == Run(rules, PastOf(Happened(past, host, op), other))
    {
      assert StateOf(hosts, other) == Run(rules, PastOf(past, other));
    }
  }

  /** The right answer for an address with this past, as far as nothing was pruned early. */
  ghost predicate TurnedAway(rules: Rules, ops: seq<Op>, now: Time, blocked: bool) {
    rules.window > 0 && NonePrunedEarly(rules, ops) ==> (blocked <==> InBlock(rules, ops, now))
  }

  lemma AnswerIs(rules: Rules, hosts: map<string, HostState>, past: map<string, seq<Op>>, host: string, now: Time)
    requires Consistent(rules, hosts, past)
    ensures TurnedAway(rules, PastOf(past, host), now, Blocked(StateOf(hosts, host), now))
  {
    var ops := PastOf(past, host);
    assert StateOf(hosts, host) == Run(rules, ops);
    if rules.window > 0 && NonePrunedEarly(rules, ops) { BlockedExactly(rules, ops, now); }
  }

  // ---- The full history ----

  datatype Op = Violation(at: Time) | Check(at: Time)

  function Step(rules: Rules, s: HostState, op: Op): HostState {
    match op
    case Violation(now) => Register(rules, s, now)
    case Check(now) => Checked(s, now)
  }

  function Run(rules: Rules, ops: seq<Op>): HostState {
    if ops == [] then CLEAN else Step(rules, Run(rules, ops[..|ops| - 1]), ops[|ops| - 1])
  }

  lemma RunPush(rules: Rules, ops: seq<Op>, op: Op)
    ensures Run(rules, ops + [op]) == Step(rules, Run(rules, ops), op)
  {
    assert (ops + [op])[..|ops|] == ops;
  }

  /** Everything since the last reset, nothing forgotten, and the last cutoff used. */
  datatype History = History(all: seq<Time>, blockedTil: Option<Time>, cutoff: Time)

  function Count(h: History, now: Time, window: int): nat {
    |Filter(h.all, After(now - window))|
  }

  function HistoryStep(rules: Rules, h: History, op: Op): History {
    match op
    case Violation(now) =>
      var h' := h.(all := h.all + [now], cutoff := now - rules.window);
      if Count(h', now, rules.window) >= rules.limit then History([], Some(now + rules.blockFor), h'.cutoff) else h'
    case Check(now) =>
      if h.blockedTil.Some? && now >= h.blockedTil.value then History([], None, h.cutoff) else h
  }

  function Recall(rules: Rules, ops: seq<Op>): History {
    if ops == [] then History([], None, 0) else HistoryStep(rules, Recall(rules, ops[..|ops| - 1]), ops[|ops| - 1])
  }

  predicate Ordered(ops: seq<Op>) {
    forall i, j :: 0 <= i < j < |ops| ==> ops[i].at <= ops[j].at
  }

  /** Filtering by an old cutoff first makes no difference to a later one. */
  lemma {:induction false} FilterTwice(s: seq<Time>, c: Time, c': Time)
    requires c <= c'
    ensures Filter(Filter(s, After(c)), After(c')) == Filter(s, After(c'))
    decreases |s|
  {
    if s != [] {
      var init, last := s[..|s| - 1], s[|s| - 1];
      FilterTwice(init, c, c');
      if last > c { FilterPush(Filter(init, After(c)), last, After(c')); }
      assert Filter(init, After(c)) + [] == Filter(init, After(c));
    }
  }

  lemma {:induction false} CutoffBound(rules: Rules, ops: seq<Op>, now: Time)
    requires forall i :: 0 <= i < |ops| ==> ops[i].at <= now
    ensures Recall(rules, ops).all == [] || Recall(rules, ops).cutoff <= now - rules.window
    decreases |ops|
  {
    if ops != [] {
      CutoffBound(rules, ops[..|ops| - 1], now);
      assert ops[|ops| - 1].at <= now;
    }
  }

  /** The pruned list against the full history. */
  predicate Agrees(rules: Rules, s: HostState, h: History) {
    && s.violations == Filter(h.all, After(h.cutoff))
    && s.blockedTil == h.blockedTil
    && |s.violations| < rules.limit
  }

  lemma RecentAgrees(s: HostState, h: History, now: Time, c: Time)
    requires s.violations == Filter(h.all, After(h.cutoff)) && (h.all == [] || h.cutoff <= c) && c < now
    ensures Filter(s.violations, After(c)) + [now] == Filter(h.all + [now], After(c))
  {
    if h.all != [] { FilterTwice(h.all, h.cutoff, c); }
    FilterPush(h.all, now, After(c));
  }

  lemma ViolationAgrees(rules: Rules, s: HostState, h: History, now: Time)
    requires Agrees(rules, s, h) && rules.limit > 0 && rules.window > 0
    requires h.all == [] || h.cutoff <= now - rules.window
    ensures Agrees(rules, Register(rules, s, now), HistoryStep(rules, h, Violation(now)))
  {
    var recent := Filter(h.all + [now], After(now - rules.window));
    RecentAgrees(s, h, now, now - rules.window);
    var until := Some(now + rules.blockFor);
    assert Register(rules, s, now) ==
           if |recent| >= rules.limit then HostState([], until) else HostState(recent, s.blockedTil);
    assert HistoryStep(rules, h, Violation(now)) ==
           if |recent| >= rules.limit then History([], until, now - rules.window)
           else History(h.all + [now], h.blockedTil, now - rules.window);
  }

  /** For a clock that does not go back, the pruned list is exactly the violations since the
      last reset that lie inside the window, a block starts exactly when the full history
      holds `limit` of them, and the list stays shorter than the limit. */
  lemma {:induction false} WindowRefinesHistory(rules: Rules, ops: seq<Op>)
    requires Ordered(ops) && rules.limit > 0 && rules.window > 0
    ensures Agrees(rules, Run(rules, ops), Recall(rules, ops))
    decreases |ops|
  {
    if ops != [] {
      var init, last := ops[..|ops| - 1], ops[|ops| - 1];
      WindowRefinesHistory(rules, init);
      if last.Violation? {
        CutoffBound(rules, init, last.at);
        ViolationAgrees(rules, Run(rules, init), Recall(rules, init), last.at);
      }
    }
  }

  lemma FilterPair(x: Time, y: Time, c: Time)
    ensures Filter([x, y], After(c)) == (if x > c then [x] else []) + (if y > c then [y] else [])
    ensures Filter([x], After(c)) == if x > c then [x] else []
  {
    FilterPush([], x, After(c));
    FilterPush([x], y, After(c));
    assert [] + [x] == [x] && [x] + [y] == [x, y];
  }

  /** With a clock that goes back this fails: an entry already pruned would count again. */
  lemma ClockMustNotGoBack()
    ensures var rules := Rules(3, 50, 60); var ops := [Violation(0), Violation(100), Violation(20)];
            Run(rules, ops).blockedTil == None && Recall(rules, ops).blockedTil == Some(80)
  {
    var rules := Rules(3, 50, 60);
    var a, b, c := Violation(0), Violation(100), Violation(20);
    assert [a, b, c][..2] == [a, b] && [a, b][..1] == [a] && [a][..0] == [];
    PrunedRun(rules, a, b, c);
    FullRun(rules, a, b, c);
  }

  lemma PrunedRun(rules: Rules, a: Op, b: Op, c: Op)
    requires rules == Rules(3, 50, 60) && a == Violation(0) && b == Violation(100) && c == Violation(20)
    ensures Run(rules, [a, b, c]).blockedTil == None
  {
    assert [a, b, c][..2] == [a, b] && [a, b][..1] == [a] && [a][..0] == [];
    assert Run(rules, [a]) == HostState([0], None);
    FilterPair(0, 0, 50);
    assert Run(rules, [a, b]) == HostState([100], None);
    FilterPair(100, 0, -30);
    assert Run(rules, [a, b, c]) == HostState([100, 20], None);
  }

  lemma FullRun(rules: Rules, a: Op, b: Op, c: Op)
    requires rules == Rules(3, 50, 60) && a == Violation(0) && b == Violation(100) && c == Violation(20)
    ensures Recall(rules, [a, b, c]).blockedTil == Some(80)
  {
    assert [a, b, c][..2] == [a, b] && [a, b][..1] == [a] && [a][..0] == [];
    FirstStep(rules);
    SecondStep(rules);
    ThirdStep(rules);
    assert Recall(rules, [a]) == History([0], None, -50);
    assert Recall(rules, [a, b]) == History([0, 100], None, 50);
  }

  lemma FirstStep(rules: Rules)
    requires rules == Rules(3, 50, 60)
    ensures HistoryStep(rules, History([], None, 0), Violation(0)) == History([0], None, -50)
  {
    FilterPair(0, 0, -50);
    assert [] + [0] == [0];
  }

  lemma SecondStep(rules: Rules)
    requires rules == Rules(3, 50, 60)
    ensures HistoryStep(rules, History([0], None, -50), Violation(100)) == History([0, 100], None, 50)
  {
    FilterPair(0, 100, 50);
    assert [0] + [100] == [0, 100];
  }

  lemma ThirdStep(rules: Rules)
    requires rules == Rules(3, 50, 60)
    ensures HistoryStep(rules, History([0, 100], None, 50), Violation(20)) == History([], Some(80), -30)
  {
    FilterPair(0, 100, -30);
    FilterPush([0, 100], 20, After(-30));
  }

  // ---- Timestamps in any order ----

  /** The entries of s that no later entry pruned. */
  function Survivors(s: seq<Time>, window: int): seq<Time> {
    if s == [] then []
    else
      var last := s[|s| - 1];
      Filter(Survivors(s[..|s| - 1], window), After(last - window)) + [last]
  }

  /** An entry still inside the window at time t was pruned by a later registered one. */
  ghost predicate PrunedEarly(s: seq<Time>, window: int, t: Time) {
    exists j, k :: 0 <= j < k < |s| && s[j] + window <= s[k] && t < s[j] + window
  }

  function Inside(s: seq<Time>, window: int, t: Time): nat {
    |Filter(s, After(t - window))|
  }

  lemma InsidePush(s: seq<Time>, x: Time, window: int, t: Time)
    ensures Inside(s + [x], window, t) == Inside(s, window, t) + (if t < x + window then 1 else 0)
  {
    FilterPush(s, x, After(t - window));
  }

  /** A later window holds no more, and as much exactly if nothing fell out. */
  lemma {:induction false} LaterWindow(s: seq<Time>, window: int, t: Time, t': Time)
    requires t <= t'
    ensures Inside(s, window, t') <= Inside(s, window, t)
    ensures Inside(s, window, t') == Inside(s, window, t) <==>
            forall j :: 0 <= j < |s| ==> !(t < s[j] + window <= t')
    decreases |s|
  {
    if s != [] {
      var init, last := s[..|s| - 1], s[|s| - 1];
      assert s == init + [last];
      LaterWindow(init, window, t, t');
      InsidePush(init, last, window, t);
      InsidePush(init, last, window, t');
      assert forall j :: 0 <= j < |init| ==> s[j] == init[j];
    }
  }

  lemma SurvivorsPush(init: seq<Time>, last: Time, window: int)
    ensures Survivors(init + [last], window) == Filter(Survivors(init, window), After(last - window)) + [last]
  {
    assert (init + [last])[..|init|] == init;
  }

  lemma SurvivorsInside(init: seq<Time>, last: Time, window: int, t: Time)
    ensures Inside(Survivors(init + [last], window), window, t) ==
            Inside(Survivors(init, window), window, if last <= t then t else last) + (if t < last + window then 1 else 0)
  {
    SurvivorsPush(init, last, window);
    InsideFiltered(Survivors(init, window), last, window, t);
    InsidePush(Filter(Survivors(init, window), After(last - window)), last, window, t);
  }

  lemma InsideFiltered(s: seq<Time>, last: Time, window: int, t: Time)
    ensures Inside(Filter(s, After(last - window)), window, t) == Inside(s, window, if last <= t then t else last)
  {
    if last <= t {
      FilterTwice(s, last - window, t - window);
    } else {
      FilterThenWider(s, last - window, t - window);
    }
  }

  /** Filtering by an earlier cutoff after a later one makes no difference. */
  lemma {:induction false} FilterThenWider(s: seq<Time>, c: Time, c': Time)
    requires c' <= c
    ensures Filter(Filter(s, After(c)), After(c')) == Filter(s, After(c))
    decreases |s|
  {
    if s != [] {
      var init, last := s[..|s| - 1], s[|s| - 1];
      FilterThenWider(init, c, c');
      if last > c { FilterPush(Filter(init, After(c)), last, After(c')); }
      assert Filter(init, After(c)) + [] == Filter(init, After(c));
    }
  }

  lemma EarlyGrows(init: seq<Time>, last: Time, window: int, t: Time)
    ensures PrunedEarly(init + [last], window, t) <==>
            PrunedEarly(init, window, t) || exists j :: 0 <= j < |init| && t < init[j] + window <= last
  {
    var s := init + [last];
    if PrunedEarly(s, window, t) {
      var j, k :| 0 <= j < k < |s| && s[j] + window <= s[k] && t < s[j] + window;
      if k < |init| {
        assert init[j] + window <= init[k] && t < init[j] + window;
      } else {
        assert t < init[j] + window <= last;
      }
    }
    if PrunedEarly(init, window, t) {
      var j, k :| 0 <= j < k < |init| && init[j] + window <= init[k] && t < init[j] + window;
      assert s[j] + window <= s[k] && t < s[j] + window;
    }
    if exists j :: 0 <= j < |init| && t < init[j] + window <= last {
      var j :| 0 <= j < |init| && t < init[j] + window <= last;
      assert s[j] + window <= s[|init|] && t < s[j] + window;
    }
  }

  /** The pruned list holds as many entries inside the window as the full list, exactly if none
      was pruned early; otherwise it holds fewer. */
  lemma {:induction false} PrunedCount(s: seq<Time>, window: int, t: Time)
    ensures Inside(Survivors(s, window), window, t) <= Inside(s, window, t)
    ensures Inside(Survivors(s, window), window, t) == Inside(s, window, t) <==> !PrunedEarly(s, window, t)
    decreases |s|
  {
    if s != [] {
      var init, last := s[..|s| - 1], s[|s| - 1];
      assert s == init + [last];
      SurvivorsInside(init, last, window, t);
      InsidePush(init, last, window, t);
      EarlyGrows(init, last, window, t);
      if last <= t {
        PrunedCount(init, window, t);
      } else {
        PrunedCount(init, window, last);
        LaterWindow(init, window, t, last);
        if forall j :: 0 <= j < |init| ==> !(t < init[j] + window <= last) { EarlierAt(init, window, t, last); }
      }
    }
  }

  lemma EarlierAt(s: seq<Time>, window: int, t: Time, t': Time)
    requires t <= t' && forall j :: 0 <= j < |s| ==> !(t < s[j] + window <= t')
    ensures PrunedEarly(s, window, t) <==> PrunedEarly(s, window, t')
  {
    if PrunedEarly(s, window, t) {
      var j, k :| 0 <= j < k < |s| && s[j] + window <= s[k] && t < s[j] + window;
      assert t' < s[j] + window;
    }
  }

  /** Violations inside the window, the new one included: in the pruned list, and in everything
      since the last reset. */
  function PrunedNow(rules: Rules, ops: seq<Op>, t: Time): nat {
    Inside(Run(rules, ops).violations, rules.window, t) + 1
  }

  function FullNow(rules: Rules, ops: seq<Op>, t: Time): nat {
    Inside(Recall(rules, ops).all, rules.window, t) + 1
  }

  ghost predicate SameCountAt(rules: Rules, ops: seq<Op>, i: nat)
    requires i < |ops|
  {
    ops[i].Violation? ==> PrunedNow(rules, ops[..i], ops[i].at) == FullNow(rules, ops[..i], ops[i].at)
  }

  ghost predicate SameCounts(rules: Rules, ops: seq<Op>) {
    forall i :: 0 <= i < |ops| ==> SameCountAt(rules, ops, i)
  }

  /** A violation comes in while an earlier one, since the last reset and still inside the
      window, is already pruned by one registered in between with a later time. */
  ghost predicate EarlyAt(rules: Rules, ops: seq<Op>, i: nat)
    requires i < |ops|
  {
    ops[i].Violation? && PrunedEarly(Recall(rules, ops[..i]).all, rules.window, ops[i].at)
  }

  ghost predicate NonePrunedEarly(rules: Rules, ops: seq<Op>) {
    forall i :: 0 <= i < |ops| ==> !EarlyAt(rules, ops, i)
  }

  predicate Related(rules: Rules, s: HostState, h: History) {
    s.violations == Survivors(h.all, rules.window) && s.blockedTil == h.blockedTil
  }

  lemma RegisterIs(rules: Rules, s: HostState, all: seq<Time>, t: Time)
    requires s.violations == Survivors(all, rules.window)
    ensures Register(rules, s, t) ==
            if Inside(s.violations, rules.window, t) + 1 >= rules.limit then HostState([], Some(t + rules.blockFor))
            else HostState(Survivors(all + [t], rules.window), s.blockedTil)
  {
    SurvivorsPush(all, t, rules.window);
    RegisterKeeps(rules, s, t, Filter(s.violations, After(t - rules.window)));
  }

  lemma RegisterKeeps(rules: Rules, s: HostState, t: Time, kept: seq<Time>)
    requires kept == Filter(s.violations, After(t - rules.window))
    ensures Register(rules, s, t) ==
            if |kept| + 1 >= rules.limit then HostState([], Some(t + rules.blockFor)) else HostState(kept + [t], s.blockedTil)
  {
  }

  lemma HistoryIs(rules: Rules, h: History, t: Time)
    requires rules.window > 0
    ensures HistoryStep(rules, h, Violation(t)) ==
            if Inside(h.all, rules.window, t) + 1 >= rules.limit then History([], Some(t + rules.blockFor), t - rules.window)
            else History(h.all + [t], h.blockedTil, t - rules.window)
  {
    InsidePush(h.all, t, rules.window, t);
  }

  lemma RelatedViolation(rules: Rules, s: HostState, h: History, t: Time)
    requires Related(rules, s, h) && rules.window > 0 && !PrunedEarly(h.all, rules.window, t)
    ensures Related(rules, Register(rules, s, t), HistoryStep(rules, h, Violation(t)))
  {
    PrunedCount(h.all, rules.window, t);
    RegisterIs(rules, s, h.all, t);
    HistoryIs(rules, h, t);
  }

  lemma RelatedStep(rules: Rules, s: HostState, h: History, op: Op)
    requires Related(rules, s, h) && rules.window > 0
    requires op.Violation? ==> !PrunedEarly(h.all, rules.window, op.at)
    ensures Related(rules, Step(rules, s, op), HistoryStep(rules, h, op))
  {
    if op.Violation? { RelatedViolation(rules, s, h, op.at); }
  }

  /** Whatever the order of the timestamps: at every violation the pruned list counts as many
      as the full history since the last reset, exactly if nothing is pruned early. Then the
      blocks are the same too. */
  lemma {:induction false} WindowExactly(rules: Rules, ops: seq<Op>)
    requires rules.window > 0
    ensures SameCounts(rules, ops) <==> NonePrunedEarly(rules, ops)
    ensures NonePrunedEarly(rules, ops) ==> Related(rules, Run(rules, ops), Recall(rules, ops))
    decreases |ops|
  {
    if ops != [] {
      var init, last := ops[..|ops| - 1], ops[|ops| - 1];
      WindowExactly(rules, init);
      PrefixesAgree(rules, ops);
      if NonePrunedEarly(rules, init) {
        PrunedCount(Recall(rules, init).all, rules.window, last.at);
        if last.Violation? ==> !PrunedEarly(Recall(rules, init).all, rules.window, last.at) {
          RelatedStep(rules, Run(rules, init), Recall(rules, init), last);
        }
      }
    }
  }

  lemma AtPrefix(rules: Rules, ops: seq<Op>, i: nat)
    requires i < |ops| - 1
    ensures SameCountAt(rules, ops, i) == SameCountAt(rules, ops[..|ops| - 1], i)
    ensures EarlyAt(rules, ops, i) == EarlyAt(rules, ops[..|ops| - 1], i)
  {
    assert ops[..|ops| - 1][..i] == ops[..i];
  }

  lemma PrefixesAgree(rules: Rules, ops: seq<Op>)
    requires ops != []
    ensures var n := |ops| - 1;
            && (SameCounts(rules, ops) <==> SameCounts(rules, ops[..n]) && SameCountAt(rules, ops, n))
            && (NonePrunedEarly(rules, ops) <==> NonePrunedEarly(rules, ops[..n]) && !EarlyAt(rules, ops, n))
  {
    var n := |ops| - 1;
    var init := ops[..n];
    forall i | 0 <= i < n ensures SameCountAt(rules, ops, i) == SameCountAt(rules, init, i) { AtPrefix(rules, ops, i); }
    forall i | 0 <= i < n ensures EarlyAt(rules, ops, i) == EarlyAt(rules, init, i) { AtPrefix(rules, ops, i); }
    if SameCounts(rules, init) && SameCountAt(rules, ops, n) {
      forall i | 0 <= i < |ops| ensures SameCountAt(rules, ops, i) {
        if i < n { assert SameCountAt(rules, init, i); }
      }
    }
    if SameCounts(rules, ops) {
      forall i | 0 <= i < n ensures SameCountAt(rules, init, i) { assert SameCountAt(rules, ops, i); }
    }
    if NonePrunedEarly(rules, init) && !EarlyAt(rules, ops, n) {
      forall i | 0 <= i < |ops| ensures !EarlyAt(rules, ops, i) {
        if i < n { assert !EarlyAt(rules, init, i); }
      }
    }
    if NonePrunedEarly(rules, ops) {
      forall i | 0 <= i < n ensures !EarlyAt(rules, init, i) { assert !EarlyAt(rules, ops, i); }
    }
  }

  // ---- When a connection is turned away ----

  /** Operation i is a violation that brings the full count to the limit. */
  ghost predicate StartsBlock(rules: Rules, ops: seq<Op>, i: nat) {
    i < |ops| && ops[i].Violation? && FullNow(rules, ops[..i], ops[i].at) >= rules.limit
  }

  /** No later operation starts a block of its own or finds this one over. */
  ghost predicate Undisturbed(rules: Rules, ops: seq<Op>, i: nat, j: nat)
    requires i < |ops| && j < |ops|
  {
    !StartsBlock(rules, ops, j) && (ops[j].Check? ==> ops[j].at < ops[i].at + rules.blockFor)
  }

  ghost predicate Standing(rules: Rules, ops: seq<Op>, i: nat) {
    StartsBlock(rules, ops, i) && forall j :: i < j < |ops| ==> Undisturbed(rules, ops, i, j)
  }

  /** Time t lies in the block that the operations have left standing. */
  ghost predicate InBlock(rules: Rules, ops: seq<Op>, t: Time) {
    exists i :: 0 <= i < |ops| && Standing(rules, ops, i) && t < ops[i].at + rules.blockFor
  }

  lemma StartsInPrefix(rules: Rules, ops: seq<Op>, i: nat)
    requires i < |ops| - 1
    ensures StartsBlock(rules, ops, i) <==> StartsBlock(rules, ops[..|ops| - 1], i)
  {
    assert ops[..|ops| - 1][..i] == ops[..i];
  }

  /** One operation more leaves an earlier block standing exactly if it does not disturb it. */
  lemma StandingGrows(rules: Rules, ops: seq<Op>, i: nat)
    requires i < |ops| - 1
    ensures Standing(rules, ops, i) <==> Standing(rules, ops[..|ops| - 1], i) && Undisturbed(rules, ops, i, |ops| - 1)
  {
    var n := |ops| - 1;
    var init := ops[..n];
    StartsInPrefix(rules, ops, i);
    forall j | i < j < n ensures Undisturbed(rules, ops, i, j) <==> Undisturbed(rules, init, i, j) {
      StartsInPrefix(rules, ops, j);
    }
    if Standing(rules, ops, i) {
      forall j | i < j < n ensures Undisturbed(rules, init, i, j) { assert Undisturbed(rules, ops, i, j); }
    }
    if Standing(rules, init, i) && Undisturbed(rules, ops, i, n) {
      forall j | i < j < |ops| ensures Undisturbed(rules, ops, i, j) {
        if j < n { assert Undisturbed(rules, init, i, j); }
      }
    }
  }

  /** What the history remembers of blocks: the end of the one that stands, if one does. */
  ghost predicate Remembers(rules: Rules, ops: seq<Op>, blockedTil: Option<Time>) {
    && (blockedTil.None? ==> forall i :: 0 <= i < |ops| ==> !Standing(rules, ops, i))
    && (blockedTil.Some? ==>
          exists i :: 0 <= i < |ops| && Standing(rules, ops, i) && blockedTil.value == ops[i].at + rules.blockFor)
  }

  lemma {:induction false} HistoryRemembers(rules: Rules, ops: seq<Op>)
    requires rules.window > 0
    ensures Remembers(rules, ops, Recall(rules, ops).blockedTil)
    decreases |ops|
  {
    if ops != [] {
      var n := |ops| - 1;
      HistoryRemembers(rules, ops[..n]);
      forall i | 0 <= i < n
        ensures Standing(rules, ops, i) <==> Standing(rules, ops[..n], i) && Undisturbed(rules, ops, i, n)
      {
        StandingGrows(rules, ops, i);
      }
      if ops[n].Violation? {
        HistoryIs(rules, Recall(rules, ops[..n]), ops[n].at);
        ViolationRemembers(rules, ops);
      } else {
        CheckRemembers(rules, ops);
      }
    }
  }

  ghost predicate Extends(rules: Rules, ops: seq<Op>)
    requires ops != []
  {
    var n := |ops| - 1;
    forall i :: 0 <= i < n ==> (Standing(rules, ops, i) <==> Standing(rules, ops[..n], i) && Undisturbed(rules, ops, i, n))
  }

  lemma ViolationRemembers(rules: Rules, ops: seq<Op>)
    requires ops != [] && ops[|ops| - 1].Violation? && Extends(rules, ops)
    requires Remembers(rules, ops[..|ops| - 1], Recall(rules, ops[..|ops| - 1]).blockedTil)
    requires Recall(rules, ops).blockedTil == if StartsBlock(rules, ops, |ops| - 1)
               then Some(ops[|ops| - 1].at + rules.blockFor) else Recall(rules, ops[..|ops| - 1]).blockedTil
    ensures Remembers(rules, ops, Recall(rules, ops).blockedTil)
  {
    var n := |ops| - 1;
    var was := Recall(rules, ops[..n]).blockedTil;
    if StartsBlock(rules, ops, n) {
      assert Standing(rules, ops, n);
    } else if was.Some? {
      var i :| 0 <= i < n && Standing(rules, ops[..n], i) && was.value == ops[..n][i].at + rules.blockFor;
      assert Undisturbed(rules, ops, i, n);
      assert Standing(rules, ops, i);
    }
  }

  lemma CheckRemembers(rules: Rules, ops: seq<Op>)
    requires ops != [] && ops[|ops| - 1].Check? && Extends(rules, ops)
    requires Remembers(rules, ops[..|ops| - 1], Recall(rules, ops[..|ops| - 1]).blockedTil)
    ensures Remembers(rules, ops, Recall(rules, ops).blockedTil)
  {
    var n := |ops| - 1;
    var was := Recall(rules, ops[..n]).blockedTil;
    if was.Some? {
      var i :| 0 <= i < n && Standing(rules, ops[..n], i) && was.value == ops[..n][i].at + rules.blockFor;
      if ops[n].at >= was.value {
        forall k | 0 <= k < |ops| ensures !Standing(rules, ops, k) { OnlyOneStands(rules, ops, i, k); }
      } else {
        assert Undisturbed(rules, ops, i, n);
        assert Standing(rules, ops, i);
      }
    }
  }

  lemma OnlyOneStands(rules: Rules, ops: seq<Op>, i: nat, k: nat)
    requires i < |ops| - 1 && k < |ops| && Extends(rules, ops) && Standing(rules, ops[..|ops| - 1], i)
    requires ops[|ops| - 1].Check? && ops[|ops| - 1].at >= ops[i].at + rules.blockFor
    ensures !Standing(rules, ops, k)
  {
    var n := |ops| - 1;
    assert !Undisturbed(rules, ops, i, n);
    if k < n && Standing(rules, ops[..n], k) { SameBlock(rules, ops[..n], i, k); }
  }

  lemma SameBlock(rules: Rules, ops: seq<Op>, i: nat, k: nat)
    requires Standing(rules, ops, i) && Standing(rules, ops, k)
    ensures i == k
  {
    assert i < k ==> Undisturbed(rules, ops, i, k);
    assert k < i ==> Undisturbed(rules, ops, k, i);
  }

  lemma RememberedBlock(rules: Rules, ops: seq<Op>, blockedTil: Option<Time>, t: Time)
    requires Remembers(rules, ops, blockedTil)
    ensures blockedTil.Some? && t < blockedTil.value <==> InBlock(rules, ops, t)
  {
    if InBlock(rules, ops, t) {
      var i :| 0 <= i < |ops| && Standing(rules, ops, i) && t < ops[i].at + rules.blockFor;
      assert blockedTil.Some?;
      var k :| 0 <= k < |ops| && Standing(rules, ops, k) && blockedTil.value == ops[k].at + rules.blockFor;
      SameBlock(rules, ops, i, k);
    }
  }

  /** Whatever the order of the timestamps, if nothing is pruned early: an address is turned away
      at time t exactly if a violation brought its count to the limit, none later did, no check
      came after the end of that block, and t lies before it. */
  lemma BlockedExactly(rules: Rules, ops: seq<Op>, t: Time)
    requires rules.window > 0 && NonePrunedEarly(rules, ops)
    ensures Blocked(Run(rules, ops), t) <==> InBlock(rules, ops, t)
  {
    WindowExactly(rules, ops);
    HistoryRemembers(rules, ops);
    RememberedBlock(rules, ops, Recall(rules, ops).blockedTil, t);
  }

  /** Operation i is the last that brings the count to the limit. */
  ghost predicate LastBlock(rules: Rules, ops: seq<Op>, i: nat) {
    StartsBlock(rules, ops, i) && forall j :: i < j < |ops| ==> !StartsBlock(rules, ops, j)
  }

  /** For times in order the checks in between make no difference: an address is turned away at
      time t exactly if t lies before the end of the block that the last such violation started. */
  lemma BlockedInOrder(rules: Rules, ops: seq<Op>, t: Time)
    requires Ordered(ops) && (forall i :: 0 <= i < |ops| ==> ops[i].at <= t) && rules.limit > 0 && rules.window > 0
    ensures Blocked(Run(rules, ops), t) <==>
            exists i :: 0 <= i < |ops| && LastBlock(rules, ops, i) && t < ops[i].at + rules.blockFor
  {
    WindowRefinesHistory(rules, ops);
    HistoryRemembers(rules, ops);
    RememberedBlock(rules, ops, Recall(rules, ops).blockedTil, t);
    forall i | 0 <= i < |ops| && t < ops[i].at + rules.blockFor
      ensures Standing(rules, ops, i) <==> LastBlock(rules, ops, i)
    {
      StandsInOrder(rules, ops, i, t);
    }
  }

  lemma StandsInOrder(rules: Rules, ops: seq<Op>, i: nat, t: Time)
    requires (forall j :: 0 <= j < |ops| ==> ops[j].at <= t) && i < |ops| && t < ops[i].at + rules.blockFor
    ensures Standing(rules, ops, i) <==> LastBlock(rules, ops, i)
  {
    if Standing(rules, ops, i) {
      forall j | i < j < |ops| ensures !StartsBlock(rules, ops, j) { assert Undisturbed(rules, ops, i, j); }
    }
  }
}
