/** Alerting rules of the audit logger: the brute-force detector keeps a pruned
    table per address, the bulk-export rule reads a bounded log. */
module AuditAlerts {
  import opened Filtering
  import opened Text

  type Address = string
  /** Clock readings, in the smallest step the clock shows. */
  type Time = int

  /** Failure times per address, oldest first. */
  type Table = map<Address, seq<Time>>

  const EVICTION_SIZE := 10_000
  const MAX_ALERTS := 1000

  datatype Attempt = Attempt(address: Address, time: Time)

  /** The attempts newer than a cutoff, in order. */
  function Newer(times: seq<Time>, cutoff: Time): seq<Time> {
    if times == [] then []
    else
      var n := |times| - 1;
      if times[n] > cutoff then Newer(times[..n], cutoff) + [times[n]] else Newer(times[..n], cutoff)
  }

  /** All failure times of one address in the full, never pruned history. */
  function TimesOf(history: seq<Attempt>, a: Address): seq<Time> {
    if history == [] then []
    else
      var n := |history| - 1;
      if history[n].address == a then TimesOf(history[..n], a) + [history[n].time] else TimesOf(history[..n], a)
  }

  function Get(table: Table, a: Address): seq<Time> {
    if a in table then table[a] else []
  }

  // ---- The pruned table -----------------------------------------------------------------

  predicate Stale(times: seq<Time>, cutoff: Time) {
    times == [] || times[|times| - 1] < cutoff
  }

  function Evicted(table: Table, cutoff: Time): Table {
    if |table| > EVICTION_SIZE then map a | a in table && !Stale(table[a], cutoff) :: table[a] else table
  }

  /** Append, prune, and drop the address when nothing is left. */
  function Recorded(table: Table, a: Address, now: Time, cutoff: Time): Table {
    var kept := Newer(Get(table, a) + [now], cutoff);
    if kept == [] then table - {a} else table[a := kept]
  }

  /** The table after one failed login. */
  function Tracked(table: Table, a: Address, now: Time, window: int): Table {
    Recorded(Evicted(table, now - window), a, now, now - window)
  }

  /** The number of attempts found for the address of that login. */
  function Count(table: Table, a: Address, now: Time, window: int): nat {
    |Newer(Get(Evicted(table, now - window), a) + [now], now - window)|
  }

  function LastOf<T>(s: seq<T>, max: nat): seq<T> {
    if |s| <= max then s else s[|s| - max..]
  }

  /** The deque also holds the alerts of the other rules. */
  datatype Alert = BruteForce(address: Address, attempts: nat) | OtherRule(text: string)

  /** The bounded deque after some appends. */
  function PushAll(d: seq<Alert>, alerts: seq<Alert>): seq<Alert> {
    LastOf(d + alerts, MAX_ALERTS)
  }

  /** The alert of the brute-force rule, if the count reaches the threshold. */
  function Raised(a: Address, count: nat, threshold: int): seq<Alert> {
    if count >= threshold then [BruteForce(a, count)] else []
  }

  class AuditLogger {
    const threshold: int
    const window: int
    var failedLogins: Table
    var alerts: seq<Alert>

    constructor (threshold: int, window: int)
      ensures this.threshold == threshold && this.window == window
      ensures failedLogins == map[] && alerts == []
    {
      this.threshold, this.window := threshold, window;
      failedLogins, alerts := map[], [];
    }

    method EvictStale(cutoff: Time)
      modifies this`failedLogins
      ensures failedLogins == Evicted(old(failedLogins), cutoff)
    {
      if |failedLogins| > EVICTION_SIZE {
        var stale := set k | k in failedLogins && Stale(failedLogins[k], cutoff);
        failedLogins := failedLogins - stale;
      }
    }

    method TrackFailedLogin(a: Address, now: Time)
      requires |alerts| <= MAX_ALERTS
      modifies this
      ensures failedLogins == Tracked(old(failedLogins), a, now, window)
      ensures var count := Count(old(failedLogins), a, now, window);
              alerts == if count >= threshold then PushAll(old(alerts), [BruteForce(a, count)]) else old(alerts)
      ensures |alerts| <= MAX_ALERTS
    {
      hide Newer, Evicted;
      var cutoff := now - window;
      EvictStale(cutoff);
      var attempts := if a in failedLogins then failedLogins[a] else [];
      attempts := attempts + [now];
      var kept := Prune(attempts, cutoff);
      failedLogins := failedLogins[a := kept];
      var count := |kept|;
      if count == 0 {
        failedLogins := failedLogins - {a};
      }
      assert failedLogins == Recorded(Evicted(old(failedLogins), cutoff), a, now, cutoff);
      if count >= threshold {
        alerts := PushAll(alerts, [BruteForce(a, count)]);
      }
    }
  }

  method Prune(times: seq<Time>, cutoff: Time) returns (kept: seq<Time>)
    ensures kept == Newer(times, cutoff)
  {
    kept := [];
    for i := 0 to |times|
      invariant kept == Newer(times[..i], cutoff)
    {
      assert times[..i + 1][..i] == times[..i];
      if times[i] > cutoff {
        kept := kept + [times[i]];
      }
    }
    assert times[..|times|] == times;
  }

  // ---- Agreement with the full history ----------------------------------------------------

  /** The table after a run. */
  function Run(history: seq<Attempt>, window: int): Table {
    if history == [] then map[]
    else
      var last := history[|history| - 1];
      Tracked(Run(history[..|history| - 1], window), last.address, last.time, window)
  }

  predicate ClockNonDecreasing(history: seq<Attempt>) {
    forall i, j :: 0 <= i < j < |history| ==> history[i].time <= history[j].time
  }

  predicate Sorted(times: seq<Time>) {
    forall i, j :: 0 <= i < j < |times| ==> times[i] <= times[j]
  }

  predicate AllUpTo(times: seq<Time>, now: Time) {
    forall i :: 0 <= i < |times| ==> times[i] <= now
  }

  lemma {:induction false} NewerTwice(times: seq<Time>, c: Time, c': Time)
    requires c <= c'
    ensures Newer(Newer(times, c), c') == Newer(times, c')
  {
    if times != [] {
      var n := |times| - 1;
      NewerTwice(times[..n], c, c');
      if times[n] > c {
        NewerAppend(Newer(times[..n], c), times[n], c');
      }
    }
  }

  lemma NewerAppend(times: seq<Time>, t: Time, cutoff: Time)
    ensures Newer(times + [t], cutoff) == if t > cutoff then Newer(times, cutoff) + [t] else Newer(times, cutoff)
  {
    assert (times + [t])[..|times|] == times;
  }

  lemma {:induction false} NewerOfOld(times: seq<Time>, cutoff: Time)
    requires AllUpTo(times, cutoff)
    ensures Newer(times, cutoff) == []
  {
    if times != [] {
      NewerOfOld(times[..|times| - 1], cutoff);
    }
  }

  lemma {:induction false} NewerKeepsOrder(times: seq<Time>, cutoff: Time, now: Time)
    requires Sorted(times) && AllUpTo(times, now)
    ensures Sorted(Newer(times, cutoff)) && AllUpTo(Newer(times, cutoff), now)
  {
    if times != [] {
      var n := |times| - 1;
      NewerKeepsOrder(times[..n], cutoff, times[n]);
    }
  }

  /** A kept list is sorted and agrees with the full one on everything newer
      than the cutoff. */
  predicate ListAgrees(kept: seq<Time>, full: seq<Time>, now: Time, cutoff: Time) {
    Sorted(kept) && AllUpTo(kept, now) && Newer(kept, cutoff) == Newer(full, cutoff)
  }

  /** What the table knows after the clock has shown `now`. */
  ghost predicate Agrees(table: Table, history: seq<Attempt>, now: Time, window: int) {
    forall a: Address :: ListAgrees(Get(table, a), TimesOf(history, a), now, now - window)
  }

  lemma EvictionIsHarmless(table: Table, a: Address, cutoff: Time)
    requires Sorted(Get(table, a))
    ensures Newer(Get(Evicted(table, cutoff), a), cutoff) == Newer(Get(table, a), cutoff)
    ensures Get(Evicted(table, cutoff), a) in {[], Get(table, a)}
  {
    if a in table && |table| > EVICTION_SIZE && Stale(table[a], cutoff) {
      NewerOfOld(table[a], cutoff);
    }
  }

  lemma TimesOfAppend(history: seq<Attempt>, next: Attempt, a: Address)
    ensures TimesOf(history + [next], a) ==
            if next.address == a then TimesOf(history, a) + [next.time] else TimesOf(history, a)
  {
    assert (history + [next])[..|history|] == history;
  }

  /** The table and the history also agree on a later cutoff, after an eviction. */
  lemma AgreesLater(table: Table, full: seq<Time>, now: Time, c: Time, c': Time, a: Address)
    requires ListAgrees(Get(table, a), full, now, c) && c <= c'
    ensures ListAgrees(Get(Evicted(table, c'), a), full, now, c')
  {
    EvictionIsHarmless(table, a, c');
    NewerTwice(Get(table, a), c, c');
    NewerTwice(full, c, c');
  }

  /** One append and one pruning, on the kept and on the full list. */
  lemma AppendAndPrune(kept: seq<Time>, full: seq<Time>, now: Time, cutoff: Time)
    requires ListAgrees(kept, full, now, cutoff)
    ensures var pruned := Newer(kept + [now], cutoff);
            ListAgrees(pruned, full + [now], now, cutoff) && pruned == Newer(full + [now], cutoff)
  {
    NewerAppend(kept, now, cutoff);
    NewerAppend(full, now, cutoff);
    NewerKeepsOrder(kept + [now], cutoff, now);
    NewerTwice(kept + [now], cutoff, cutoff);
  }

  lemma RecordedAt(table: Table, a: Address, now: Time, cutoff: Time, k: Address)
    ensures Get(Recorded(table, a, now, cutoff), k) ==
            if k == a then Newer(Get(table, a) + [now], cutoff) else Get(table, k)
  {
  }

  lemma LaterUpTo(kept: seq<Time>, full: seq<Time>, now: Time, later: Time, cutoff: Time)
    requires ListAgrees(kept, full, now, cutoff) && now <= later
    ensures ListAgrees(kept, full, later, cutoff)
  {
  }

  lemma RecordedAgrees(table: Table, history: seq<Attempt>, now: Time, next: Attempt, cutoff: Time, a: Address)
    requires ListAgrees(Get(table, a), TimesOf(history, a), now, cutoff) && now <= next.time
    ensures ListAgrees(Get(Recorded(table, next.address, next.time, cutoff), a),
                       TimesOf(history + [next], a), next.time, cutoff)
    ensures a == next.address ==>
              Newer(Get(table, a) + [next.time], cutoff) == Newer(TimesOf(history + [next], a), cutoff)
  {
    var kept, full := Get(table, a), TimesOf(history, a);
    TimesOfAppend(history, next, a);
    RecordedAt(table, next.address, next.time, cutoff, a);
    LaterUpTo(kept, full, now, next.time, cutoff);
    if a == next.address {
      AppendAndPrune(kept, full, next.time, cutoff);
    }
  }

  lemma AgreesForOne(table: Table, history: seq<Attempt>, now: Time, next: Attempt, window: int, a: Address)
    requires ListAgrees(Get(table, a), TimesOf(history, a), now, now - window) && now <= next.time
    ensures var table' := Tracked(table, next.address, next.time, window);
            ListAgrees(Get(table', a), TimesOf(history + [next], a), next.time, next.time - window)
    ensures a == next.address ==>
              Count(table, a, next.time, window) == TrueCount(history + [next], a, next.time, window)
  {
    hide Newer, Sorted, AllUpTo, ListAgrees;
    var cutoff := next.time - window;
    AgreesLater(table, TimesOf(history, a), now, now - window, cutoff, a);
    RecordedAgrees(Evicted(table, cutoff), history, now, next, cutoff, a);
  }

  lemma AgreesStep(table: Table, history: seq<Attempt>, now: Time, next: Attempt, window: int)
    requires Agrees(table, history, now, window) && now <= next.time
    ensures Agrees(Tracked(table, next.address, next.time, window), history + [next], next.time, window)
  {
    forall a: Address
      ensures ListAgrees(Get(Tracked(table, next.address, next.time, window), a), TimesOf(history + [next], a),
                         next.time, next.time - window)
    {
      AgreesForOne(table, history, now, next, window, a);
    }
  }

  lemma {:induction false} RunAgrees(history: seq<Attempt>, window: int)
    requires history != [] && ClockNonDecreasing(history)
    ensures Agrees(Run(history, window), history, history[|history| - 1].time, window)
  {
    var n := |history| - 1;
    var before, last := history[..n], history[n];
    assert before + [last] == history;
    if n > 0 {
      RunAgrees(before, window);
      AgreesStep(Run(before, window), before, before[n - 1].time, last, window);
    } else {
      AgreesStep(map[], [], last.time, last, window);
    }
  }

  /** The number of failures of one address in the full history inside the window. */
  function TrueCount(history: seq<Attempt>, a: Address, now: Time, window: int): nat {
    |Newer(TimesOf(history, a), now - window)|
  }

  /** For every run with a clock that never goes back, the count the pruned and
      evicted table gives is the count of the full history. */
  lemma CountIsTrueCount(history: seq<Attempt>, next: Attempt, window: int)
    requires ClockNonDecreasing(history + [next])
    ensures Count(Run(history, window), next.address, next.time, window) ==
            TrueCount(history + [next], next.address, next.time, window)
  {
    var all := history + [next];
    var n := |history|;
    if history == [] {
      AgreesForOne(map[], [], next.time, next, window, next.address);
    } else {
      assert forall i :: 0 <= i < n ==> all[i] == history[i];
      RunAgrees(history, window);
      assert all[n - 1].time <= all[n].time;
      AgreesForOne(Run(history, window), history, history[n - 1].time, next, window, next.address);
    }
  }

  /** The branch that deletes an address with no recent attempt is taken exactly
      when the window is not positive; a positive window always keeps the new attempt. */
  lemma ZeroCountBranch(table: Table, a: Address, now: Time, window: int)
    ensures Count(table, a, now, window) == 0 ==> window <= 0
    ensures a !in Tracked(table, a, now, window) <==> Count(table, a, now, window) == 0
    ensures window > 0 ==> a in Tracked(table, a, now, window) && now in Tracked(table, a, now, window)[a]
  {
    var times := Get(Evicted(table, now - window), a);
    NewerAppend(times, now, now - window);
  }

  /** After an eviction only addresses with an attempt no older than the cutoff
      are left beside the one just recorded. */
  lemma EvictionBoundsTable(table: Table, a: Address, now: Time, window: int, other: Address)
    requires |table| > EVICTION_SIZE && other != a && other in Tracked(table, a, now, window)
    ensures exists t :: t in table[other] && t >= now - window
  {
    assert !Stale(table[other], now - window);
    assert table[other][|table[other]| - 1] in table[other];
  }

  /** What a failed login does to the list of any other address: nothing, unless
      more than ten thousand addresses are kept and its last attempt is older than
      the cutoff. */
  lemma EvictionIs(table: Table, a: Address, now: Time, window: int, other: Address)
    requires other != a
    ensures var evicted := && |table| > 10_000 && other in table
                           && (table[other] == [] || table[other][|table[other]| - 1] < now - window);
            && (other in Tracked(table, a, now, window) <==> other in table && !evicted)
            && (other in table && !evicted ==> Tracked(table, a, now, window)[other] == table[other])
  {
  }

  // ---- Any clock ----------------------------------------------------------------------------

  /** Login `m` evicts the list of an address: the table is too large, and the
      last failure of the address is older than the cutoff of that login. */
  predicate EvictsAt(h: seq<Attempt>, m: nat, a: Address, window: int)
    requires m < |h|
  {
    var times := TimesOf(h[..m], a);
    |Run(h[..m], window)| > EVICTION_SIZE && times != [] && times[|times| - 1] < h[m].time - window
  }

  /** Login `m` drops failure `i`: by pruning the list of its own address, or by
      evicting the list of the address of the failure. */
  predicate LostAt(h: seq<Attempt>, i: nat, m: nat, window: int)
    requires i <= m < |h|
  {
    || (h[m].address == h[i].address && h[i].time <= h[m].time - window)
    || (i < m && EvictsAt(h, m, h[i].address, window))
  }

  predicate Lost(h: seq<Attempt>, i: nat, window: int)
    requires i < |h|
  {
    exists m :: i <= m < |h| && LostAt(h, i, m, window)
  }

  /** The failures of one address among the first `n` that no login of the whole
      run has dropped. */
  function Live(h: seq<Attempt>, a: Address, window: int, n: nat): seq<Time>
    requires n <= |h|
  {
    if n == 0 then []
    else
      Live(h, a, window, n - 1)
      + if h[n - 1].address == a && !Lost(h, n - 1, window) then [h[n - 1].time] else []
  }

  lemma LostStep(h: seq<Attempt>, next: Attempt, i: nat, window: int)
    requires i < |h|
    ensures Lost(h + [next], i, window) <==> Lost(h, i, window) || LostAt(h + [next], i, |h|, window)
  {
    hide EvictsAt;
    var all := h + [next];
    forall m | i <= m < |h| ensures LostAt(all, i, m, window) == LostAt(h, i, m, window) {
      EvictsSame(h, next, m, h[i].address, window);
    }
    if m :| i <= m < |h| && LostAt(h, i, m, window) {
      assert LostAt(all, i, m, window);
    }
  }

  lemma EvictsSame(h: seq<Attempt>, next: Attempt, m: nat, a: Address, window: int)
    requires m < |h|
    ensures EvictsAt(h + [next], m, a, window) == EvictsAt(h, m, a, window)
  {
    assert (h + [next])[..m] == h[..m];
  }

  /** What one more login leaves of the list of an address. */
  lemma {:induction false} LiveStep(h: seq<Attempt>, next: Attempt, a: Address, window: int, n: nat)
    requires n <= |h|
    ensures Live(h + [next], a, window, n) ==
            if EvictsAt(h + [next], |h|, a, window) then []
            else if a == next.address then Newer(Live(h, a, window, n), next.time - window)
            else Live(h, a, window, n)
  {
    hide EvictsAt, Lost, Newer;
    if n == 0 {
      NewerOfNothing(next.time - window);
    } else {
      var i := n - 1;
      LiveStep(h, next, a, window, i);
      LostStep(h, next, i, window);
      NewerAppend(Live(h, a, window, i), h[i].time, next.time - window);
      assert Live(h, a, window, i) + [] == Live(h, a, window, i);
      assert Live(h + [next], a, window, i) + [] == Live(h + [next], a, window, i);
    }
  }

  lemma NewerOfNothing(cutoff: Time)
    ensures Newer([], cutoff) == []
  {
  }

  /** A list in the table is not empty and ends with the last failure of its
      address; with a window that is not positive there is no list at all. */
  predicate EndsWithLast(table: Table, h: seq<Attempt>, window: int, a: Address) {
    a in table ==>
      var list, times := table[a], TimesOf(h, a);
      window > 0 && list != [] && times != [] && list[|list| - 1] == times[|times| - 1]
  }

  lemma {:induction false} TableLast(h: seq<Attempt>, window: int, a: Address)
    ensures EndsWithLast(Run(h, window), h, window, a)
  {
    hide EndsWithLast, Evicted, Recorded;
    if h == [] {
      NothingRun(window, a);
    } else {
      var n := |h| - 1;
      TableLast(h[..n], window, a);
      RunStep(h[..n], h[n], window);
      LastStep(Run(h[..n], window), h[..n], h[n], window, a);
      assert h == h[..n] + [h[n]];
    }
  }

  lemma NothingRun(window: int, a: Address)
    ensures EndsWithLast(Run([], window), [], window, a)
  {
  }

  lemma LastStep(table: Table, h: seq<Attempt>, next: Attempt, window: int, a: Address)
    requires EndsWithLast(table, h, window, a)
    ensures var cutoff := next.time - window;
            EndsWithLast(Recorded(Evicted(table, cutoff), next.address, next.time, cutoff), h + [next], window, a)
  {
    hide Newer, TimesOf;
    var cutoff := next.time - window;
    var kept := Get(Evicted(table, cutoff), next.address);
    TimesOfAppend(h, next, a);
    NewerAppend(kept, next.time, cutoff);
    NewerOfNothing(cutoff);
  }

  lemma EvictedList(h: seq<Attempt>, next: Attempt, window: int, a: Address)
    ensures Get(Evicted(Run(h, window), next.time - window), a) ==
            if EvictsAt(h + [next], |h|, a, window) then [] else Get(Run(h, window), a)
  {
    hide Run, TimesOf;
    assert (h + [next])[..|h|] == h;
    TableLast(h, window, a);
  }

  /** For every history, the list in the table is the list of the failures that
      no login has dropped. */
  lemma {:induction false} TableIsLive(h: seq<Attempt>, window: int, a: Address)
    ensures Get(Run(h, window), a) == Live(h, a, window, |h|)
  {
    if h != [] {
      TableIsLive(h[..|h| - 1], window, a);
      TableStep(h[..|h| - 1], h[|h| - 1], window, a);
      assert h == h[..|h| - 1] + [h[|h| - 1]];
    }
  }

  lemma TableStep(h: seq<Attempt>, next: Attempt, window: int, a: Address)
    requires Get(Run(h, window), a) == Live(h, a, window, |h|)
    ensures Get(Run(h + [next], window), a) == Live(h + [next], a, window, |h| + 1)
  {
    hide EvictsAt, Newer, Recorded, Evicted, Get, Lost, Live;
    var all, cutoff := h + [next], next.time - window;
    RunStep(h, next, window);
    EvictedList(h, next, window, a);
    EvictedList(h, next, window, next.address);
    RecordedAt(Evicted(Run(h, window), cutoff), next.address, next.time, cutoff, a);
    LiveStep(h, next, a, window, |h|);
    LiveLast(h, next, a, window);
    NewerAppend(if EvictsAt(all, |h|, a, window) then [] else Live(h, a, window, |h|), next.time, cutoff);
    NewerOfNothing(cutoff);
  }

  lemma RunStep(h: seq<Attempt>, next: Attempt, window: int)
    ensures Run(h + [next], window) ==
            Recorded(Evicted(Run(h, window), next.time - window), next.address, next.time, next.time - window)
  {
    assert (h + [next])[..|h|] == h;
  }

  lemma LiveLast(h: seq<Attempt>, next: Attempt, a: Address, window: int)
    ensures Live(h + [next], a, window, |h| + 1) ==
            if next.address == a && next.time > next.time - window
            then Live(h + [next], a, window, |h|) + [next.time]
            else Live(h + [next], a, window, |h|)
  {
    var all := h + [next];
    assert all[|h|] == next;
    assert LostAt(all, |h|, |h|, window) <==> next.time <= next.time - window;
    assert Live(all, a, window, |h|) + [] == Live(all, a, window, |h|);
  }

  /** No failure of the address that is newer than the cutoff has been dropped. */
  predicate NothingLost(h: seq<Attempt>, a: Address, window: int, cutoff: Time, n: nat)
    requires n <= |h|
  {
    forall i :: 0 <= i < n && h[i].address == a && h[i].time > cutoff ==> !Lost(h, i, window)
  }

  lemma {:induction false} LiveCount(h: seq<Attempt>, a: Address, window: int, cutoff: Time, n: nat)
    requires n <= |h|
    requires forall i :: 0 <= i < n && h[i].address == a && !Lost(h, i, window) ==> h[i].time > cutoff
    ensures |Live(h, a, window, n)| <= |Newer(TimesOf(h[..n], a), cutoff)|
    ensures |Live(h, a, window, n)| == |Newer(TimesOf(h[..n], a), cutoff)| <==> NothingLost(h, a, window, cutoff, n)
  {
    hide Lost, Newer, TimesOf;
    NothingCounted(a, cutoff);
    if n == 0 {
      assert h[..n] == [];
    } else {
      assert h[..n] == h[..n - 1] + [h[n - 1]];
      LiveCount(h, a, window, cutoff, n - 1);
      TimesOfAppend(h[..n - 1], h[n - 1], a);
      NewerAppend(TimesOf(h[..n - 1], a), h[n - 1].time, cutoff);
    }
  }

  lemma NothingCounted(a: Address, cutoff: Time)
    ensures Newer(TimesOf([], a), cutoff) == []
  {
  }

  lemma CountIsLength(history: seq<Attempt>, next: Attempt, window: int)
    ensures Count(Run(history, window), next.address, next.time, window) ==
            |Get(Run(history + [next], window), next.address)|
  {
    hide Newer, Evicted, Run, Recorded;
    var cutoff := next.time - window;
    RunStep(history, next, window);
    RecordedAt(Evicted(Run(history, window), cutoff), next.address, next.time, cutoff, next.address);
  }

  /** For every history and every clock, with and without evictions: the count is
      never above the true one, and is the true one exactly when no failure of
      that address inside the final window has been dropped. */
  lemma CountIsTrueCountIff(history: seq<Attempt>, next: Attempt, window: int)
    ensures var a, all := next.address, history + [next];
            && Count(Run(history, window), a, next.time, window) <= TrueCount(all, a, next.time, window)
            && (Count(Run(history, window), a, next.time, window) == TrueCount(all, a, next.time, window) <==>
                  NothingLost(all, a, window, next.time - window, |all|))
  {
    hide Live, EvictsAt, Run, TimesOf, Count, Newer, Get;
    var a, all := next.address, history + [next];
    CountIsLength(history, next, window);
    TableIsLive(all, window, a);
    assert all[..|all|] == all;
    forall i | 0 <= i < |all| && all[i].address == a && !Lost(all, i, window)
      ensures all[i].time > next.time - window
    {
      assert !LostAt(all, i, |history|, window);
    }
    LiveCount(all, a, window, next.time - window, |all|);
  }

  /** So after any history a failure is missed whenever the clock jumps past its
      window and then steps back into it. */
  lemma ClockStepBackUndercounts(history: seq<Attempt>, a: Address, t: Time, jump: Time, back: Time, window: int)
    requires t + window <= jump && back < t + window
    ensures var before := history + [Attempt(a, t), Attempt(a, jump)];
            Count(Run(before, window), a, back, window) < TrueCount(before + [Attempt(a, back)], a, back, window)
  {
    hide Live, EvictsAt, Run, TimesOf, Count, Newer, Get;
    var before, next := history + [Attempt(a, t), Attempt(a, jump)], Attempt(a, back);
    var all, n := before + [next], |history|;
    CountIsTrueCountIff(before, next, window);
    assert all[n] == Attempt(a, t) && all[n + 1] == Attempt(a, jump);
    assert LostAt(all, n, n + 1, window);
    assert Lost(all, n, window);
  }

  /** And when another address makes the table too large, a login elsewhere can
      evict a failure that is inside the window of a clock that steps back. */
  lemma EvictionUndercounts(history: seq<Attempt>, a: Address, t: Time, jump: Attempt, back: Time, window: int)
    requires jump.address != a && t < jump.time - window && back < t + window
    requires |Run(history + [Attempt(a, t)], window)| > EVICTION_SIZE
    ensures var before := history + [Attempt(a, t), jump];
            Count(Run(before, window), a, back, window) < TrueCount(before + [Attempt(a, back)], a, back, window)
  {
    hide Live, Run, Count, Newer, Get;
    var before, next := history + [Attempt(a, t), jump], Attempt(a, back);
    var all, n := before + [next], |history|;
    CountIsTrueCountIff(before, next, window);
    assert all[..n + 1] == history + [Attempt(a, t)];
    TimesOfAppend(history, Attempt(a, t), a);
    assert all[n] == Attempt(a, t) && all[n + 1] == jump;
    assert EvictsAt(all, n + 1, a, window);
    assert LostAt(all, n, n + 1, window);
    assert Lost(all, n, window);
  }

  // ---- The alert deque -----------------------------------------------------------------------

  /** What can reach the deque: failed logins, and alerts of other rules. */
  datatype Signal = Failure(attempt: Attempt) | Elsewhere(alert: Alert)

  function Failures(signals: seq<Signal>): seq<Attempt> {
    if signals == [] then []
    else
      var n := |signals| - 1;
      var before := Failures(signals[..n]);
      if signals[n].Failure? then before + [signals[n].attempt] else before
  }

  /** All alerts of a system that counts in the full history, oldest first. */
  function TrueAlerts(signals: seq<Signal>, window: int, threshold: int): seq<Alert> {
    if signals == [] then []
    else
      var n := |signals| - 1;
      TrueAlerts(signals[..n], window, threshold)
      + match signals[n]
        case Failure(f) => Raised(f.address, TrueCount(Failures(signals), f.address, f.time, window), threshold)
        case Elsewhere(alert) => [alert]
  }

  /** The alert deque after a run, with counts from the pruned table. */
  function RunAlerts(signals: seq<Signal>, window: int, threshold: int): seq<Alert> {
    if signals == [] then []
    else
      var n := |signals| - 1;
      var table := Run(Failures(signals[..n]), window);
      PushAll(RunAlerts(signals[..n], window, threshold),
              match signals[n]
              case Failure(f) => Raised(f.address, Count(table, f.address, f.time, window), threshold)
              case Elsewhere(alert) => [alert])
  }

  lemma LastOfPush(d: seq<Alert>, alerts: seq<Alert>)
    ensures PushAll(LastOf(d, MAX_ALERTS), alerts) == LastOf(d + alerts, MAX_ALERTS)
  {
  }

  lemma FailuresStep(signals: seq<Signal>)
    requires signals != [] && ClockNonDecreasing(Failures(signals))
    ensures ClockNonDecreasing(Failures(signals[..|signals| - 1]))
  {
    var before := Failures(signals[..|signals| - 1]);
    assert forall i :: 0 <= i < |before| ==> Failures(signals)[i] == before[i];
  }

  /** The alert deque always holds the latest alerts that the full history and the
      other rules call for, with the same counts and in the same order. */
  lemma {:induction false} AlertsAreTrueAlerts(signals: seq<Signal>, window: int, threshold: int)
    requires ClockNonDecreasing(Failures(signals))
    ensures RunAlerts(signals, window, threshold) == LastOf(TrueAlerts(signals, window, threshold), MAX_ALERTS)
  {
    if signals != [] {
      var n := |signals| - 1;
      FailuresStep(signals);
      AlertsAreTrueAlerts(signals[..n], window, threshold);
      var all := TrueAlerts(signals[..n], window, threshold);
      match signals[n]
      case Failure(f) =>
        CountIsTrueCount(Failures(signals[..n]), f, window);
        LastOfPush(all, Raised(f.address, TrueCount(Failures(signals), f.address, f.time, window), threshold));
      case Elsewhere(alert) =>
        LastOfPush(all, [alert]);
    }
  }

  // ---- When a failure raises an alert -------------------------------------------------------------

  /** The failures of an address in the full history that are newer than a cutoff. */
  function Recent(history: seq<Attempt>, a: Address, cutoff: Time): set<nat> {
    set i: nat | 0 <= i < |history| && history[i].address == a && history[i].time > cutoff
  }

  lemma RecentAppend(history: seq<Attempt>, next: Attempt, a: Address, cutoff: Time)
    ensures |Recent(history + [next], a, cutoff)| ==
            |Recent(history, a, cutoff)| + if next.address == a && next.time > cutoff then 1 else 0
  {
    var newer := next.address == a && next.time > cutoff;
    assert Recent(history + [next], a, cutoff) ==
           Recent(history, a, cutoff) + if newer then {|history|} else {};
  }

  lemma {:induction false} TrueCountIsSize(history: seq<Attempt>, a: Address, now: Time, window: int)
    ensures TrueCount(history, a, now, window) == |Recent(history, a, now - window)|
  {
    if history == [] {
      assert Recent(history, a, now - window) == {};
    } else {
      var n := |history| - 1;
      hide Recent;
      assert history[..n] + [history[n]] == history;
      TrueCountIsSize(history[..n], a, now, window);
      RecentAppend(history[..n], history[n], a, now - window);
    }
  }

  lemma {:induction false} DequeIsBounded(signals: seq<Signal>, window: int, threshold: int)
    ensures |RunAlerts(signals, window, threshold)| <= 1000
  {
  }

  lemma FailureCount(history: seq<Attempt>, f: Attempt, window: int)
    requires ClockNonDecreasing(history + [f])
    ensures Count(Run(history, window), f.address, f.time, window) ==
            |Recent(history + [f], f.address, f.time - window)|
  {
    hide *;
    CountIsTrueCount(history, f, window);
    TrueCountIsSize(history + [f], f.address, f.time, window);
  }

  /** With a clock that never goes back, a failure appends exactly one alert, with
      the number of failures of its address inside the window of the full history,
      if that number has reached the threshold, and nothing otherwise; the deque
      keeps the latest thousand. */
  lemma FailureRaisesIff(signals: seq<Signal>, f: Attempt, window: int, threshold: int)
    requires ClockNonDecreasing(Failures(signals) + [f])
    ensures var before := RunAlerts(signals, window, threshold);
            var count := |Recent(Failures(signals) + [f], f.address, f.time - window)|;
            var all := before + [BruteForce(f.address, count)];
            RunAlerts(signals + [Failure(f)], window, threshold) ==
            if count < threshold then before else if |all| <= 1000 then all else all[|all| - 1000..]
  {
    hide Run, Count, Recent, ClockNonDecreasing, Failures;
    var next := signals + [Failure(f)];
    assert next[..|signals|] == signals;
    FailureCount(Failures(signals), f, window);
    DequeIsBounded(signals, window, threshold);
    var before := RunAlerts(signals, window, threshold);
    assert before + [] == before;
  }

  function Attempts(a: Address, times: seq<Time>): seq<Attempt> {
    seq(|times|, i requires 0 <= i < |times| => Attempt(a, times[i]))
  }

  lemma {:induction false} NoneRecent(older: seq<Attempt>, a: Address, cutoff: Time)
    requires forall i :: 0 <= i < |older| && older[i].address == a ==> older[i].time <= cutoff
    ensures Recent(older, a, cutoff) == {}
  {
  }

  lemma {:induction false} BurstCount(older: seq<Attempt>, a: Address, times: seq<Time>, cutoff: Time)
    requires forall i :: 0 <= i < |older| && older[i].address == a ==> older[i].time <= cutoff
    requires forall i :: 0 <= i < |times| ==> times[i] > cutoff
    ensures |Recent(older + Attempts(a, times), a, cutoff)| == |times|
  {
    if times == [] {
      NoneRecent(older, a, cutoff);
      assert older + Attempts(a, times) == older;
    } else {
      hide Recent;
      var n := |times| - 1;
      BurstCount(older, a, times[..n], cutoff);
      RecentAppend(older + Attempts(a, times[..n]), Attempt(a, times[n]), a, cutoff);
      assert older + Attempts(a, times[..n]) + [Attempt(a, times[n])] == older + Attempts(a, times);
    }
  }

  lemma BurstInWindow(older: seq<Attempt>, a: Address, times: seq<Time>, window: int)
    requires times != [] && times[|times| - 1] < times[0] + window
    requires ClockNonDecreasing(older + Attempts(a, times))
    requires forall i :: 0 <= i < |older| && older[i].address == a ==> older[i].time <= times[0] - window
    ensures |Recent(older + Attempts(a, times), a, times[|times| - 1] - window)| == |times|
  {
    hide Recent;
    var all, n, last := older + Attempts(a, times), |older|, |times| - 1;
    forall i | 0 <= i <= last ensures times[0] <= times[i] {
      assert all[n] == Attempt(a, times[0]) && all[n + i] == Attempt(a, times[i]);
    }
    BurstCount(older, a, times, times[last] - window);
  }

  /** Of a burst of failures of one address inside one window, those before the
      threshold raise nothing, and from the one that reaches it on each raises an
      alert with its place in the burst; other addresses and failures that have
      left the window do not matter. */
  lemma BurstRaises(
    signals: seq<Signal>, older: seq<Attempt>, a: Address, times: seq<Time>, k: nat, window: int, threshold: int)
    requires k < |times| && times[k] < times[0] + window
    requires Failures(signals) == older + Attempts(a, times[..k])
    requires ClockNonDecreasing(older + Attempts(a, times[..k + 1]))
    requires forall i :: 0 <= i < |older| && older[i].address == a ==> older[i].time <= times[0] - window
    ensures var before := RunAlerts(signals, window, threshold);
            var after := RunAlerts(signals + [Failure(Attempt(a, times[k]))], window, threshold);
            && (k + 1 < threshold ==> after == before)
            && (k + 1 >= threshold ==> after != [] && after[|after| - 1] == BruteForce(a, k + 1))
  {
    hide Recent, Failures, RunAlerts, ClockNonDecreasing;
    var f, burst := Attempt(a, times[k]), times[..k + 1];
    assert older + Attempts(a, times[..k]) + [f] == older + Attempts(a, burst);
    BurstInWindow(older, a, burst, window);
    FailureRaisesIff(signals, f, window, threshold);
  }

  // ---- The bulk-export rule and the bounded log ------------------------------------------------

  datatype Entry = Entry(eventType: string, address: Address, time: Option<Time>)

  predicate IsRecentExport(e: Entry, cutoff: Time) {
    e.eventType == "data.export" && e.time.Some? && e.time.value > cutoff
  }

  function RecentExports(log: seq<Entry>, cutoff: Time): nat {
    if log == [] then 0
    else RecentExports(log[1..], cutoff) + if IsRecentExport(log[0], cutoff) then 1 else 0
  }

  method CountRecentExports(log: seq<Entry>, cutoff: Time) returns (count: nat)
    ensures count == RecentExports(log, cutoff)
  {
    count := 0;
    for i := 0 to |log|
      invariant count + RecentExports(log[i..], cutoff) == RecentExports(log, cutoff)
    {
      assert log[i..][1..] == log[i + 1..];
      if log[i].eventType == "data.export" {
        match log[i].time
        case Some(t) =>
          if t > cutoff {
            count := count + 1;
          }
        case None =>
      }
    }
  }

  lemma {:induction false} RecentExportsSplit(a: seq<Entry>, b: seq<Entry>, cutoff: Time)
    ensures RecentExports(a + b, cutoff) == RecentExports(a, cutoff) + RecentExports(b, cutoff)
  {
    if a == [] {
      assert a + b == b;
    } else {
      assert (a + b)[1..] == a[1..] + b;
      RecentExportsSplit(a[1..], b, cutoff);
    }
  }

  /** Exports with a readable time after the cutoff are counted, and nothing else. */
  lemma {:induction false} RecentExportsAre(log: seq<Entry>, cutoff: Time)
    ensures RecentExports(log, cutoff) ==
            |Keep(log, (e: Entry) => e.eventType == "data.export" && e.time.Some? && e.time.value > cutoff)|
  {
    if log != [] {
      var n := |log| - 1;
      RecentExportsAre(log[..n], cutoff);
      RecentExportsSplit(log[..n], [log[n]], cutoff);
      assert log == log[..n] + [log[n]];
      assert [log[n]][1..] == [];
    }
  }

  lemma {:induction false} NoRecentExport(log: seq<Entry>, cutoff: Time)
    ensures RecentExports(log, cutoff) == 0 <==> forall e :: e in log ==> !IsRecentExport(e, cutoff)
  {
    if log != [] {
      NoRecentExport(log[1..], cutoff);
      assert log == [log[0]] + log[1..];
    }
  }

  /** Counting in the bounded log gives the count of the whole event history if
      and only if no export inside the window has been pushed out of the log. */
  lemma BulkExportCountIff(events: seq<Entry>, max: nat, cutoff: Time)
    ensures var dropped := events[..|events| - |LastOf(events, max)|];
            RecentExports(LastOf(events, max), cutoff) == RecentExports(events, cutoff)
            <==> forall e :: e in dropped ==> !IsRecentExport(e, cutoff)
  {
    var kept := LastOf(events, max);
    var dropped := events[..|events| - |kept|];
    assert events == dropped + kept;
    RecentExportsSplit(dropped, kept, cutoff);
    NoRecentExport(dropped, cutoff);
  }

  // ---- The reverse-scan query ------------------------------------------------------------------

  predicate FailedLoginMatches(e: Entry, address: Address) {
    e.eventType == "auth.failed" && (address == "" || e.address == address)
  }

  /** The matching entries, newest first. */
  function Matching(log: seq<Entry>, address: Address): seq<Entry> {
    if log == [] then []
    else
      var n := |log| - 1;
      if FailedLoginMatches(log[n], address)
      then [log[n]] + Matching(log[..n], address)
      else Matching(log[..n], address)
  }

  /** A match is a failed authentication, from the address if one is given. */
  lemma {:induction false} MatchesAre(log: seq<Entry>, address: Address, i: nat)
    requires i < |Matching(log, address)|
    ensures var kept :=
              Keep(log, (e: Entry) => e.eventType == "auth.failed" && (address == "" || e.address == address));
            |kept| == |Matching(log, address)| && Matching(log, address)[i] == kept[|kept| - 1 - i]
  {
    NumberOfMatches(log, address);
    var n := |log| - 1;
    var newest := log[n].eventType == "auth.failed" && (address == "" || log[n].address == address);
    if newest && i > 0 {
      MatchesAre(log[..n], address, i - 1);
    } else if !newest {
      MatchesAre(log[..n], address, i);
    }
  }

  lemma {:induction false} NumberOfMatches(log: seq<Entry>, address: Address)
    ensures |Matching(log, address)| ==
            |Keep(log, (e: Entry) => e.eventType == "auth.failed" && (address == "" || e.address == address))|
  {
    if log != [] {
      NumberOfMatches(log[..|log| - 1], address);
    }
  }

  /** The query returns the newest matches up to the limit; because the limit is
      tested after an entry is added, a limit of zero or less still returns one. */
  method GetFailedLogins(log: seq<Entry>, limit: int, address: Address) returns (results: seq<Entry>)
    ensures var matching := Matching(log, address);
            var bound := if limit < 1 then 1 else limit;
            results == if |matching| <= bound then matching else matching[..bound]
  {
    results := [];
    var i := |log|;
    assert log[..i] == log;
    while i > 0
      invariant 0 <= i <= |log|
      invariant results + Matching(log[..i], address) == Matching(log, address)
      invariant |results| < if limit < 1 then 1 else limit
    {
      i := i - 1;
      assert log[..i + 1][..i] == log[..i];
      if !FailedLoginMatches(log[i], address) {
        continue;
      }
      assert results + ([log[i]] + Matching(log[..i], address)) == (results + [log[i]]) + Matching(log[..i], address);
      results := results + [log[i]];
      if |results| >= limit {
        break;
      }
    }
  }
}
