/**
 Broker failures of the last five minutes, kept in a queue per broker that is pruned
 from the front whenever it is touched. With a clock that does not run backwards,
 what a snapshot reports is what the full history of failures says.
 */
module FailureWindow {
  import opened Prelude

  const WINDOW_MS: nat := 300_000
  const RECOVERY_MS: nat := 60_000

  datatype Snapshot = Snapshot(
    lastFailureAtMs: Option<nat>, recentFailureCount: nat, recoveryWindowActive: bool, persistentFailuresDetected: bool)

  const DEFAULT := Snapshot(None, 0, false, false)

  function SaturatingSub(a: nat, b: nat): nat {
    if a < b then 0 else a - b
  }

  function Cutoff(now: nat): nat {
    SaturatingSub(now, WINDOW_MS)
  }

  /** The failures at or after the cutoff, wherever they stand. */
  function Recent(times: seq<nat>, cutoff: nat): seq<nat> {
    if times == [] then []
    else (if times[0] >= cutoff then [times[0]] else []) + Recent(times[1..], cutoff)
  }

  /** Dropping old entries from the front only. */
  function Pruned(times: seq<nat>, cutoff: nat): seq<nat> {
    if times == [] || times[0] >= cutoff then times else Pruned(times[1..], cutoff)
  }

  ghost predicate Ascending(times: seq<nat>) {
    forall i, j :: 0 <= i < j < |times| ==> times[i] <= times[j]
  }

  function Entries(windows: map<string, seq<nat>>, broker: string): seq<nat> {
    if broker in windows then windows[broker] else []
  }

  /** What a list of failures within the window reports. */
  function Report(entries: seq<nat>, now: nat): Snapshot {
    var last := if entries == [] then None else Some(entries[|entries| - 1]);
    Snapshot(last, |entries|, last.Some? && SaturatingSub(now, last.value) <= RECOVERY_MS, |entries| >= 3)
  }

  /** What a look at a broker reads. */
  function SnapshotOf(windows: map<string, seq<nat>>, broker: string, now: nat): Snapshot {
    if broker in windows then Report(Pruned(windows[broker], Cutoff(now)), now) else DEFAULT
  }

  class FailureWindows {
    var windows: map<string, seq<nat>>

    constructor ()
      ensures windows == map[]
    {
      windows := map[];
    }

    method RecordBrokerFailure(broker: string, now: nat)
      modifies this
      ensures windows == old(windows)[broker := Pruned(Entries(old(windows), broker) + [now], Cutoff(now))]
    {
      var entries := if broker in windows then windows[broker] else [];
      entries := entries + [now];
      entries := PruneFailureWindow(entries, SaturatingSub(now, WINDOW_MS));
      windows := windows[broker := entries];
    }

    method BrokerFailureHealthSnapshot(broker: string, now: nat) returns (snapshot: Snapshot)
      modifies this
      ensures snapshot == SnapshotOf(old(windows), broker, now)
      ensures windows == if broker in old(windows)
                         then old(windows)[broker := Pruned(old(windows)[broker], Cutoff(now))] else old(windows)
    {
      if broker !in windows {
        return DEFAULT;
      }
      var entries := PruneFailureWindow(windows[broker], SaturatingSub(now, WINDOW_MS));
      windows := windows[broker := entries];
      var last: Option<nat> := if entries == [] then None else Some(entries[|entries| - 1]);
      return Snapshot(last, |entries|, last.Some? && SaturatingSub(now, last.value) <= RECOVERY_MS, |entries| >= 3);
    }
  }

  method PruneFailureWindow(entries: seq<nat>, cutoff: nat) returns (pruned: seq<nat>)
    ensures pruned == Pruned(entries, cutoff)
  {
    pruned := entries;
    while pruned != [] && pruned[0] < cutoff
      invariant Pruned(pruned, cutoff) == Pruned(entries, cutoff)
    {
      pruned := pruned[1..];
    }
  }

  // ---------- runs ----------

  datatype Call = Fail(broker: string, now: nat) | Look(broker: string, now: nat)

  function Next(windows: map<string, seq<nat>>, call: Call): map<string, seq<nat>> {
    match call
    case Fail(broker, now) => windows[broker := Pruned(Entries(windows, broker) + [now], Cutoff(now))]
    case Look(broker, now) =>
      if broker in windows then windows[broker := Pruned(windows[broker], Cutoff(now))] else windows
  }

  function Windows(calls: seq<Call>): map<string, seq<nat>> {
    if calls == [] then map[] else Next(Windows(calls[..|calls| - 1]), calls[|calls| - 1])
  }

  /** Every failure of the broker ever recorded. */
  function History(calls: seq<Call>, broker: string): seq<nat> {
    if calls == [] then []
    else
      var call := calls[|calls| - 1];
      History(calls[..|calls| - 1], broker) + if call.Fail? && call.broker == broker then [call.now] else []
  }

  // ---------- pruning at the front ----------

  lemma {:induction false} RecentConcat(a: seq<nat>, b: seq<nat>, cutoff: nat)
    ensures Recent(a + b, cutoff) == Recent(a, cutoff) + Recent(b, cutoff)
  {
    if a == [] {
      assert a + b == b;
    } else {
      assert (a + b)[1..] == a[1..] + b;
      RecentConcat(a[1..], b, cutoff);
      var first := if a[0] >= cutoff then [a[0]] else [];
      assert first + (Recent(a[1..], cutoff) + Recent(b, cutoff)) == first + Recent(a[1..], cutoff) + Recent(b, cutoff);
    }
  }

  lemma {:induction false} AllRecent(times: seq<nat>, cutoff: nat)
    requires forall i :: 0 <= i < |times| ==> times[i] >= cutoff
    ensures Recent(times, cutoff) == times
  {
    if times != [] {
      AllRecent(times[1..], cutoff);
    }
  }

  lemma RecentOne(time: nat, cutoff: nat)
    ensures Recent([time], cutoff) == if time >= cutoff then [time] else []
  {
    assert [time][1..] == [];
  }

  lemma {:induction false} NoneRecent(times: seq<nat>, cutoff: nat)
    requires forall i :: 0 <= i < |times| ==> times[i] < cutoff
    ensures Recent(times, cutoff) == []
  {
    if times != [] {
      NoneRecent(times[1..], cutoff);
    }
  }

  /** Nothing old stands behind something recent. */
  ghost predicate OldFirst(times: seq<nat>, cutoff: nat) {
    forall i, j :: 0 <= i < j < |times| && times[i] >= cutoff ==> times[j] >= cutoff
  }

  /** Then dropping from the front is enough. */
  lemma {:induction false} PrunedIsRecent(times: seq<nat>, cutoff: nat)
    requires OldFirst(times, cutoff)
    ensures Pruned(times, cutoff) == Recent(times, cutoff)
  {
    if times != [] {
      if times[0] >= cutoff {
        AllRecent(times, cutoff);
      } else {
        PrunedIsRecent(times[1..], cutoff);
      }
    }
  }

  /** What pruning drops: a prefix of old entries, after which the first is not old. */
  lemma {:induction false} PrunedDrops(times: seq<nat>, cutoff: nat) returns (n: nat)
    ensures n <= |times| && Pruned(times, cutoff) == times[n..]
    ensures forall i :: 0 <= i < n ==> times[i] < cutoff
    ensures n < |times| ==> times[n] >= cutoff
  {
    if times == [] || times[0] >= cutoff {
      n := 0;
    } else {
      n := PrunedDrops(times[1..], cutoff);
      n := n + 1;
    }
  }

  // ---------- the queue is the end of the history ----------

  function Readings(calls: seq<Call>): (r: seq<nat>)
    ensures |r| == |calls| && forall i :: 0 <= i < |r| ==> r[i] == calls[i].now
  {
    if calls == [] then [] else Readings(calls[..|calls| - 1]) + [calls[|calls| - 1].now]
  }

  /** The entries kept after a call, and the history before and after it. */
  function Added(call: Call, broker: string): seq<nat> {
    if call.Fail? && call.broker == broker then [call.now] else []
  }

  lemma NextEntries(windows: map<string, seq<nat>>, call: Call, broker: string)
    ensures Entries(Next(windows, call), broker) ==
      if call.broker == broker then Pruned(Entries(windows, broker) + Added(call, broker), Cutoff(call.now))
      else Entries(windows, broker)
  {
    assert Entries(windows, broker) + [] == Entries(windows, broker);
  }

  /** `dropped` is what pruning has taken off the front of the history so far. */
  ghost predicate SplitsHistory(calls: seq<Call>, broker: string, dropped: seq<nat>) {
    History(calls, broker) == dropped + Entries(Windows(calls), broker)
  }

  /** One call drops some more from the front, all of it older than that call's own cutoff. */
  lemma CallDrops(calls: seq<Call>, broker: string, dropped: seq<nat>) returns (more: seq<nat>)
    requires calls != [] && SplitsHistory(calls[..|calls| - 1], broker, dropped)
    ensures SplitsHistory(calls, broker, dropped + more)
    ensures forall i :: 0 <= i < |more| ==> more[i] < Cutoff(calls[|calls| - 1].now)
  {
    var before, call := calls[..|calls| - 1], calls[|calls| - 1];
    var entries := Entries(Windows(before), broker) + Added(call, broker);
    NextEntries(Windows(before), call, broker);
    Regroup(dropped, Entries(Windows(before), broker), Added(call, broker));
    var n: nat := 0;
    if call.broker == broker {
      n := PrunedDrops(entries, Cutoff(call.now));
    }
    more := entries[..n];
    Regroup(dropped, more, entries[n..]);
    assert entries == more + entries[n..];
  }

  lemma Regroup(a: seq<nat>, b: seq<nat>, c: seq<nat>)
    ensures a + b + c == a + (b + c)
  {
  }

  /** The queue is always a suffix of the history of failures. */
  lemma {:induction false} QueueIsSuffix(calls: seq<Call>, broker: string) returns (dropped: seq<nat>)
    ensures SplitsHistory(calls, broker, dropped)
  {
    dropped := [];
    if calls != [] {
      dropped := QueueIsSuffix(calls[..|calls| - 1], broker);
      var more := CallDrops(calls, broker, dropped);
      dropped := dropped + more;
    }
  }

  // ---------- when every snapshot is exact ----------

  /** What a snapshot shows at `now`; a broker that never failed is not looked up. */
  ghost predicate Exact(calls: seq<Call>, broker: string, now: nat) {
    SnapshotOf(Windows(calls), broker, now) == Report(Recent(History(calls, broker), Cutoff(now)), now)
  }

  /** Reading j would have dropped failure i, which is in the window again at `now`. */
  predicate Hides(ts: seq<nat>, now: nat, i: nat, j: nat) {
    i < j < |ts| && Cutoff(now) <= ts[i] < Cutoff(ts[j])
  }

  /** Failure j, too old at `now`, stands behind failure i, which is not. */
  predicate Stales(ts: seq<nat>, now: nat, i: nat, j: nat) {
    i < j < |ts| && ts[j] < Cutoff(now) <= ts[i]
  }

  ghost predicate Steady(ts: seq<nat>, now: nat) {
    forall i: nat, j: nat :: !Hides(ts, now, i, j) && !Stales(ts, now, i, j)
  }

  lemma {:induction false} HistoryIsReadings(calls: seq<Call>, broker: string, k: nat)
    requires k < |History(calls, broker)|
    ensures History(calls, broker)[k] in Readings(calls)
  {
    var before := calls[..|calls| - 1];
    if k < |History(before, broker)| {
      HistoryIsReadings(before, broker, k);
    }
  }

  lemma SteadyTake(ts: seq<nat>, now: nat)
    requires ts != [] && Steady(ts, now)
    ensures Steady(ts[..|ts| - 1], now)
  {
    var before := ts[..|ts| - 1];
    forall i: nat, j: nat ensures !Hides(before, now, i, j) && !Stales(before, now, i, j) {
      assert !Hides(ts, now, i, j) && !Stales(ts, now, i, j);
    }
  }

  lemma SteadyPrefix(calls: seq<Call>, now: nat)
    requires calls != [] && Steady(Readings(calls), now)
    ensures Steady(Readings(calls[..|calls| - 1]), now)
  {
    assert Readings(calls)[..|calls| - 1] == Readings(calls[..|calls| - 1]);
    SteadyTake(Readings(calls), now);
  }

  /** With steady readings, old failures come first in the history. */
  lemma {:induction false} SteadyHistory(calls: seq<Call>, broker: string, now: nat)
    requires Steady(Readings(calls), now)
    ensures OldFirst(History(calls, broker), Cutoff(now))
  {
    if calls != [] {
      var before, n := calls[..|calls| - 1], |calls| - 1;
      SteadyPrefix(calls, now);
      SteadyHistory(before, broker, now);
      var history := History(before, broker);
      forall k | 0 <= k < |history| && history[k] >= Cutoff(now) ensures calls[n].now >= Cutoff(now) {
        HistoryIsReadings(before, broker, k);
        var i :| 0 <= i < |before| && Readings(before)[i] == history[k];
        assert !Stales(Readings(calls), now, i, n);
      }
    }
  }

  /** With steady readings, no failure of the window is ever dropped. */
  lemma {:induction false} SteadyKeeps(calls: seq<Call>, broker: string, now: nat) returns (dropped: seq<nat>)
    requires Steady(Readings(calls), now)
    ensures SplitsHistory(calls, broker, dropped)
    ensures forall k :: 0 <= k < |dropped| ==> dropped[k] < Cutoff(now)
  {
    dropped := [];
    if calls != [] {
      var n := |calls| - 1;
      SteadyPrefix(calls, now);
      dropped := SteadyKeeps(calls[..n], broker, now);
      var more := CallDrops(calls, broker, dropped);
      forall k | 0 <= k < |more| ensures more[k] < Cutoff(now) {
        assert History(calls, broker)[|dropped| + k] == more[k];
        HistoryIsReadings(calls, broker, |dropped| + k);
        var i :| 0 <= i < |calls| && Readings(calls)[i] == more[k];
        assert i != n;
        assert !Hides(Readings(calls), now, i, n);
      }
      dropped := dropped + more;
    }
  }

  lemma OldFirstSuffix(front: seq<nat>, times: seq<nat>, cutoff: nat)
    requires OldFirst(front + times, cutoff)
    ensures OldFirst(times, cutoff)
  {
    assert forall k :: 0 <= k < |times| ==> times[k] == (front + times)[|front| + k];
  }

  lemma SteadyQueue(calls: seq<Call>, broker: string, now: nat)
    requires Steady(Readings(calls), now)
    ensures Pruned(Entries(Windows(calls), broker), Cutoff(now)) == Recent(History(calls, broker), Cutoff(now))
  {
    var dropped := SteadyKeeps(calls, broker, now);
    var entries := Entries(Windows(calls), broker);
    SteadyHistory(calls, broker, now);
    OldFirstSuffix(dropped, entries, Cutoff(now));
    PrunedIsRecent(entries, Cutoff(now));
    NoneRecent(dropped, Cutoff(now));
    RecentConcat(dropped, entries, Cutoff(now));
    assert [] + Recent(entries, Cutoff(now)) == Recent(entries, Cutoff(now));
  }

  /** The broker fails at one or two readings and is looked at in the others. */
  function Calls(ts: seq<nat>, broker: string, i: nat, j: nat): (calls: seq<Call>)
    ensures |calls| == |ts|
    ensures forall k :: 0 <= k < |ts| ==>
      calls[k] == if k == i || k == j then Fail(broker, ts[k]) else Look(broker, ts[k])
  {
    if ts == [] then []
    else
      var k := |ts| - 1;
      Calls(ts[..k], broker, i, j) + [if k == i || k == j then Fail(broker, ts[k]) else Look(broker, ts[k])]
  }

  lemma CallsPrefix(ts: seq<nat>, broker: string, i: nat, j: nat)
    requires ts != []
    ensures var k := |ts| - 1;
      Calls(ts, broker, i, j)[..k] == Calls(ts[..k], broker, i, j) && Readings(Calls(ts, broker, i, j)) == ts
  {
  }

  lemma {:induction false} HistoryOfCalls(ts: seq<nat>, broker: string, i: nat, j: nat)
    requires i <= j
    ensures History(Calls(ts, broker, i, j), broker) == Failures(ts, i, j)
  {
    if ts != [] {
      var k := |ts| - 1;
      CallsPrefix(ts, broker, i, j);
      HistoryOfCalls(ts[..k], broker, i, j);
      FailuresLast(ts, i, j);
    }
  }

  function Failures(ts: seq<nat>, i: nat, j: nat): seq<nat> {
    (if i < |ts| then [ts[i]] else []) + if i < j < |ts| then [ts[j]] else []
  }

  lemma FailuresLast(ts: seq<nat>, i: nat, j: nat)
    requires ts != [] && i <= j
    ensures var k := |ts| - 1;
      Failures(ts, i, j) == Failures(ts[..k], i, j) + if k == i || k == j then [ts[k]] else []
  {
  }

  /** A failure older than the last reading allows is dropped at that reading. */
  lemma DroppedAtLast(ts: seq<nat>, broker: string, i: nat)
    requires i < |ts| - 1 && ts[i] < Cutoff(ts[|ts| - 1])
    ensures Entries(Windows(Calls(ts, broker, i, i)), broker) == []
  {
    var k, calls := |ts| - 1, Calls(ts, broker, i, i);
    CallsPrefix(ts, broker, i, i);
    NextEntries(Windows(calls[..k]), calls[k], broker);
    HistoryOfCalls(ts[..k], broker, i, i);
    var dropped := QueueIsSuffix(calls[..k], broker);
    AllOldDropped(dropped, Entries(Windows(calls[..k]), broker), ts[i], Cutoff(ts[k]));
  }

  lemma AllOldDropped(dropped: seq<nat>, entries: seq<nat>, time: nat, cutoff: nat)
    requires dropped + entries == [time] && time < cutoff
    ensures Pruned(entries + [], cutoff) == []
  {
    assert entries + [] == entries;
    if entries != [] {
      assert entries[0] == (dropped + entries)[|dropped|] && |entries| == 1;
    }
  }

  /** A failure that a later reading puts out of the window is gone, whatever `now` says. */
  lemma {:induction false} DroppedForGood(ts: seq<nat>, broker: string, i: nat, j: nat)
    requires i < j < |ts| && ts[i] < Cutoff(ts[j])
    ensures Entries(Windows(Calls(ts, broker, i, i)), broker) == []
  {
    if j < |ts| - 1 {
      DroppedForGood(ts[..|ts| - 1], broker, i, j);
    } else {
      DroppedAtLast(ts, broker, i);
    }
  }

  lemma HiddenIsNotExact(ts: seq<nat>, broker: string, now: nat, i: nat, j: nat)
    requires Hides(ts, now, i, j)
    ensures !Exact(Calls(ts, broker, i, i), broker, now)
  {
    var calls := Calls(ts, broker, i, i);
    DroppedForGood(ts, broker, i, j);
    HistoryOfCalls(ts, broker, i, i);
    assert History(calls, broker) == [ts[i]];
    RecentOne(ts[i], Cutoff(now));
  }

  lemma StaleIsNotExact(ts: seq<nat>, broker: string, now: nat, i: nat, j: nat)
    requires Stales(ts, now, i, j)
    ensures !Exact(Calls(ts, broker, i, j), broker, now)
  {
    var calls := Calls(ts, broker, i, j);
    HistoryOfCalls(ts, broker, i, j);
    var history := [ts[i], ts[j]];
    RecentConcat([ts[i]], [ts[j]], Cutoff(now));
    RecentOne(ts[i], Cutoff(now));
    RecentOne(ts[j], Cutoff(now));
    var dropped := QueueIsSuffix(calls, broker);
    BothOrNone(dropped, Entries(Windows(calls), broker), ts[i], ts[j], Cutoff(now));
  }

  /** A recent failure in front of an old one is kept with it, or both are gone. */
  lemma BothOrNone(dropped: seq<nat>, entries: seq<nat>, recent: nat, older: nat, cutoff: nat)
    requires dropped + entries == [recent, older] && older < cutoff <= recent
    ensures |Pruned(entries, cutoff)| != 1
  {
    var n := PrunedDrops(entries, cutoff);
    if n < |entries| {
      assert entries[n] == (dropped + entries)[|dropped| + n];
    }
  }

  /**
   Exactly when lazy pruning is right. For clock readings ts and a look at `now`, every
   way of failing and looking at those readings gives an exact snapshot if and only if
   no reading hides a failure of the window and none leaves an old one behind a recent one.
   */
  lemma SnapshotsExactIff(ts: seq<nat>, broker: string, now: nat)
    ensures (forall calls :: Readings(calls) == ts ==> Exact(calls, broker, now)) <==> Steady(ts, now)
  {
    if Steady(ts, now) {
      forall calls | Readings(calls) == ts ensures Exact(calls, broker, now) {
        SteadyQueue(calls, broker, now);
      }
    } else {
      var i: nat, j: nat :| Hides(ts, now, i, j) || Stales(ts, now, i, j);
      CallsPrefix(ts, broker, i, i);
      CallsPrefix(ts, broker, i, j);
      if Hides(ts, now, i, j) {
        HiddenIsNotExact(ts, broker, now, i, j);
      } else {
        StaleIsNotExact(ts, broker, now, i, j);
      }
    }
  }

  // ---------- with a clock that does not step back ----------

  ghost predicate ClockAdvances(calls: seq<Call>, now: nat) {
    && (forall i, j :: 0 <= i < j < |calls| ==> calls[i].now <= calls[j].now)
    && (forall i :: 0 <= i < |calls| ==> calls[i].now <= now)
  }

  lemma {:induction false} RecentAscending(calls: seq<Call>, broker: string, now: nat, cutoff: nat)
    requires ClockAdvances(calls, now)
    ensures Ascending(Recent(History(calls, broker), cutoff))
    ensures forall t :: t in Recent(History(calls, broker), cutoff) ==> t <= now
  {
    if calls != [] {
      var before, call := calls[..|calls| - 1], calls[|calls| - 1];
      RecentAscending(before, broker, call.now, cutoff);
      RecentConcat(History(before, broker), Added(call, broker), cutoff);
      RecentOne(call.now, cutoff);
      LatestLast(Recent(History(before, broker), cutoff), Recent(Added(call, broker), cutoff), call.now);
    }
  }

  lemma LatestLast(times: seq<nat>, last: seq<nat>, now: nat)
    requires Ascending(times) && (forall t :: t in times ==> t <= now) && (last == [] || last == [now])
    ensures Ascending(times + last) && forall t :: t in times + last ==> t <= now
  {
    forall i, j | 0 <= i < j < |times + last| ensures (times + last)[i] <= (times + last)[j] {
      assert i < |times| ==> times[i] in times;
    }
  }

  /**
   Lazy pruning refines the full history: the queue a snapshot reads is every failure
   of the broker in the last five minutes, and the snapshot says what they say.
   */
  lemma SnapshotIsExact(calls: seq<Call>, broker: string, now: nat)
    requires ClockAdvances(calls, now)
    ensures Steady(Readings(calls), now) && Exact(calls, broker, now)
    ensures var history := History(calls, broker);
      var entries := Entries(Next(Windows(calls), Look(broker, now)), broker);
      && entries == Recent(history, Cutoff(now))
      && (broker !in Windows(calls) ==> Report(entries, now) == DEFAULT)
      && (Report(entries, now).recoveryWindowActive <==>
            exists i :: 0 <= i < |history| && SaturatingSub(now, history[i]) <= RECOVERY_MS)
      && (Report(entries, now).recoveryWindowActive ==> Report(entries, now).recentFailureCount >= 1)
  {
    SteadyQueue(calls, broker, now);
    NextEntries(Windows(calls), Look(broker, now), broker);
    assert Entries(Windows(calls), broker) + [] == Entries(Windows(calls), broker);
    var entries := Entries(Next(Windows(calls), Look(broker, now)), broker);
    RecentAscending(calls, broker, now, Cutoff(now));
    RecoveryIff(History(calls, broker), entries, now);
  }

  lemma {:induction false} RecentMembers(times: seq<nat>, cutoff: nat, t: nat)
    ensures t in Recent(times, cutoff) <==> t in times && t >= cutoff
  {
    if times != [] {
      RecentMembers(times[1..], cutoff, t);
      assert times == [times[0]] + times[1..];
    }
  }

  lemma RecoveryIff(history: seq<nat>, entries: seq<nat>, now: nat)
    requires Ascending(entries) && entries == Recent(history, Cutoff(now))
    ensures Report(entries, now).recoveryWindowActive <==>
      exists i :: 0 <= i < |history| && SaturatingSub(now, history[i]) <= RECOVERY_MS
  {
    if entries != [] {
      var last := entries[|entries| - 1];
      assert last in entries;
      RecentMembers(history, Cutoff(now), last);
      var k :| 0 <= k < |history| && history[k] == last;
      if SaturatingSub(now, last) <= RECOVERY_MS {
        assert SaturatingSub(now, history[k]) <= RECOVERY_MS;
      }
    }
    forall i | 0 <= i < |history| && SaturatingSub(now, history[i]) <= RECOVERY_MS
      ensures Report(entries, now).recoveryWindowActive
    {
      RecentMembers(history, Cutoff(now), history[i]);
      LastIsLatest(entries, history[i], now);
    }
  }

  lemma LastIsLatest(entries: seq<nat>, t: nat, now: nat)
    requires Ascending(entries) && t in entries && SaturatingSub(now, t) <= RECOVERY_MS
    ensures Report(entries, now).recoveryWindowActive
  {
    var j :| 0 <= j < |entries| && entries[j] == t;
    assert entries[j] <= entries[|entries| - 1];
  }

  // ---------- what a snapshot says ----------

  /** Which failures of the history are no older than five minutes. */
  ghost function Fresh(history: seq<nat>, now: nat): set<nat> {
    set i: nat | i < |history| && history[i] + 300_000 >= now
  }

  lemma {:induction false} FreshCount(history: seq<nat>, now: nat)
    ensures |Recent(history, Cutoff(now))| == |Fresh(history, now)|
    ensures Recent(history, Cutoff(now)) != [] && history[|history| - 1] + 300_000 >= now ==>
      Recent(history, Cutoff(now))[|Recent(history, Cutoff(now))| - 1] == history[|history| - 1]
  {
    if history != [] {
      var front, last := history[..|history| - 1], history[|history| - 1];
      FreshCount(front, now);
      assert history == front + [last];
      RecentConcat(front, [last], Cutoff(now));
      RecentOne(last, Cutoff(now));
      assert Fresh(history, now) == Fresh(front, now) + if last + 300_000 >= now then {|front|} else {};
      assert |front| !in Fresh(front, now);
    }
  }

  lemma {:induction false} LatestIsLast(calls: seq<Call>, broker: string, now: nat)
    requires ClockAdvances(calls, now)
    ensures forall t :: t in History(calls, broker) ==> t <= now
    ensures History(calls, broker) != [] ==>
      forall t :: t in History(calls, broker) ==> t <= History(calls, broker)[|History(calls, broker)| - 1]
  {
    if calls != [] {
      LatestIsLast(calls[..|calls| - 1], broker, calls[|calls| - 1].now);
    }
  }

  /**
   What a snapshot says, with a clock that does not step back: how many failures the last
   five minutes saw, the latest of them, whether there were at least three, and whether
   one was less than a minute ago, for brokers that never failed as well.
   */
  lemma SnapshotMeans(calls: seq<Call>, broker: string, now: nat)
    requires ClockAdvances(calls, now)
    ensures var history, shot := History(calls, broker), SnapshotOf(Windows(calls), broker, now);
      && shot.recentFailureCount == |Fresh(history, now)|
      && (shot.persistentFailuresDetected <==> |Fresh(history, now)| >= 3)
      && (shot.lastFailureAtMs.None? <==> Fresh(history, now) == {})
      && (shot.lastFailureAtMs.Some? ==>
            history != [] && shot.lastFailureAtMs.value == history[|history| - 1]
            && forall t :: t in history ==> t <= shot.lastFailureAtMs.value)
      && (shot.recoveryWindowActive <==> exists i :: 0 <= i < |history| && history[i] + 60_000 >= now)
  {
    var history := History(calls, broker);
    var recent := Recent(history, Cutoff(now));
    SnapshotIsExact(calls, broker, now);
    FreshCount(history, now);
    LatestIsLast(calls, broker, now);
    RecentAscending(calls, broker, now, Cutoff(now));
    RecoveryIff(history, recent, now);
    if i :| i in Fresh(history, now) {
      assert history[i] in history;
    }
    assert recent == [] <==> Fresh(history, now) == {};
  }

  /**
   A clock that steps back does both: a reading far ahead hides a failure that is in the
   window again, and an old failure recorded behind a newer one is still counted.
   */
  lemma ClockStepsBack(broker: string)
    ensures !Exact([Fail(broker, 600_000), Look(broker, 1_000_000)], broker, 600_000)
    ensures !Exact([Fail(broker, 1_000_000), Fail(broker, 600_000)], broker, 1_000_000)
  {
    var ahead, back := [600_000, 1_000_000], [1_000_000, 600_000];
    assert Calls(ahead, broker, 0, 0) == [Fail(broker, 600_000), Look(broker, 1_000_000)];
    HiddenIsNotExact(ahead, broker, 600_000, 0, 1);
    assert Calls(back, broker, 0, 1) == [Fail(broker, 1_000_000), Fail(broker, 600_000)];
    StaleIsNotExact(back, broker, 1_000_000, 0, 1);
  }
}
