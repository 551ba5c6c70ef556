/**
 * The status-change monitor: one cycle diffs a snapshot of composes against
 * the last status seen per compose id, notifies a callback of each transition
 * and records the new statuses; around it sit the health rule, the unhealthy
 * filter, the statistics and the start/stop guards of the polling loop.
 */
module Monitoring {
  import opened Wrappers
  import opened Values
  import opened Seqs
  import Dokploy

  /** The polling interval, in seconds, when none is given. */
  const DEFAULT_CHECK_INTERVAL: int := 60

  /** Statuses that `get_unhealthy_composes` treats as nominal. */
  const NOMINAL_STATUSES: seq<Value> := [Str("done"), Str("running"), Str("idle")]

  /** One answer of `get_all_composes`. */
  type Snapshot = seq<Record>

  /** `previous_states`: compose id to the status last seen for it. */
  type States = map<Value, Value>

  /** The record one cycle produces for one compose. */
  datatype CheckResult = CheckResult(
    composeId: Value,
    name: Value,
    status: Value,
    previousStatus: Value,
    statusChanged: Value,
    projectName: Value,
    checkedAt: string)

  /**
   * The registered `on_status_change` callback: absent, or a subscriber that
   * raises on the events `raises` selects.
   */
  datatype Callback = NoCallback | Subscriber(raises: CheckResult -> bool)

  /** The `_monitor_task` slot: never started, running, or cancelled and awaited. */
  datatype Task = NoTask | Active | Cancelled

  function IdOf(c: Record): Value { Get(c, "composeId", Null) }

  function StatusOf(c: Record): Value { Get(c, "composeStatus", Str("unknown")) }

  /** `previous_states.get(compose_id)`. */
  function Prior(states: States, id: Value): Value { if id in states then states[id] else Null }

  /** `previous_status and previous_status != current_status`, read as a truth value. */
  predicate IsTransition(prior: Value, current: Value) { Truthy(prior) && prior != current }

  /**
   * The value that expression stores in `status_changed`: Python's `and`
   * yields a falsy prior itself (`None`, `""`), else the comparison's boolean.
   */
  function ChangeFlag(prior: Value, current: Value): (f: Value)
    ensures Truthy(f) <==> IsTransition(prior, current)
    ensures !Truthy(prior) ==> f == prior
    ensures Truthy(prior) ==> f == Bool(prior != current)
  {
    if Truthy(prior) then Bool(prior != current) else prior
  }

  /** The result for compose `c` against the statuses `states` known at that point. */
  function Observe(states: States, c: Record, at: string): CheckResult
  {
    var prior := Prior(states, IdOf(c));
    CheckResult(IdOf(c), Get(c, "name", Str("Unknown")), StatusOf(c), prior,
                ChangeFlag(prior, StatusOf(c)), Get(c, "project_name", Str("Unknown")), at)
  }

  function IdsOf(snap: Snapshot): set<Value>
  {
    set j | 0 <= j < |snap| :: IdOf(snap[j])
  }

  /** The map after recording every compose of `snap`, one after the other. Nothing is removed. */
  function StatesAfter(states: States, snap: Snapshot): (r: States)
    ensures r.Keys == states.Keys + IdsOf(snap)
  {
    if snap == [] then states
    else
      var pre := snap[..|snap| - 1];
      assert IdsOf(snap) == IdsOf(pre) + {IdOf(snap[|snap| - 1])} by {
        forall v | v in IdsOf(snap) ensures v in IdsOf(pre) + {IdOf(snap[|snap| - 1])} {
          var j :| 0 <= j < |snap| && IdOf(snap[j]) == v;
          if j < |snap| - 1 { assert IdOf(pre[j]) == v; }
        }
        forall v | v in IdsOf(pre) ensures v in IdsOf(snap) {
          var j :| 0 <= j < |pre| && IdOf(pre[j]) == v;
          assert IdOf(snap[j]) == v;
        }
      }
      StatesAfter(states, pre)[IdOf(snap[|snap| - 1]):= StatusOf(snap[|snap| - 1])]
  }

  /** The results of one cycle: compose i is compared with the map as the earlier composes left it. */
  function Results(states: States, snap: Snapshot, clock: nat -> string): seq<CheckResult>
  {
    seq(|snap|, i requires 0 <= i < |snap| => Observe(StatesAfter(states, snap[..i]), snap[i], clock(i)))
  }

  /** The index of the last compose before position i whose id is `id`. */
  function LatestBefore(snap: Snapshot, id: Value, i: nat): (r: Option<nat>)
    requires i <= |snap|
    ensures r.Some? ==> r.value < i && IdOf(snap[r.value]) == id
    ensures r.Some? ==> forall j :: r.value < j < i ==> IdOf(snap[j]) != id
    ensures r.None? ==> forall j :: 0 <= j < i ==> IdOf(snap[j]) != id
  {
    if i == 0 then None
    else if IdOf(snap[i - 1]) == id then Some(i - 1)
    else LatestBefore(snap, id, i - 1)
  }

  /** The status a compose id had before position i: its latest earlier occurrence, else the old map. */
  function PriorAt(states: States, snap: Snapshot, id: Value, i: nat): Value
    requires i <= |snap|
  {
    match LatestBefore(snap, id, i)
    case Some(j) => StatusOf(snap[j])
    case None => Prior(states, id)
  }

  predicate IsChanged(r: CheckResult) { Truthy(r.statusChanged) }

  predicate IsUnhealthy(r: CheckResult) { r.status !in NOMINAL_STATUSES }

  predicate Raised(cb: Callback, r: CheckResult)
  {
    cb.Subscriber? && IsChanged(r) && cb.raises(r)
  }

  /** The events the callback is invoked with: the changed results, in order, when one is registered. */
  function Deliveries(cb: Callback, rs: seq<CheckResult>): seq<CheckResult>
  {
    if cb.Subscriber? then Filter(IsChanged, rs) else []
  }

  /** The deliveries whose callback raised; they are logged and the cycle goes on. */
  function Failures(cb: Callback, rs: seq<CheckResult>): seq<CheckResult>
  {
    Filter(r => Raised(cb, r), rs)
  }

  // ---------------------------------------------------------------------------
  // Properties of one cycle

  lemma {:induction false} StatesAfterPrefix(states: States, snap: Snapshot, id: Value, i: nat)
    requires i <= |snap|
    ensures Prior(StatesAfter(states, snap[..i]), id) == PriorAt(states, snap, id, i)
    decreases i
  {
    if i > 0 {
      assert snap[..i][..i - 1] == snap[..i - 1];
      StatesAfterPrefix(states, snap, id, i - 1);
    }
  }

  /**
   * After the cycle, an id of the snapshot maps to the status of its last
   * occurrence, and any other id keeps its entry and its value.
   */
  lemma StatesAfterCycle(states: States, snap: Snapshot, id: Value)
    ensures LatestBefore(snap, id, |snap|).Some? ==>
              id in StatesAfter(states, snap) &&
              StatesAfter(states, snap)[id] == StatusOf(snap[LatestBefore(snap, id, |snap|).value])
    ensures LatestBefore(snap, id, |snap|).None? ==>
              (id in StatesAfter(states, snap) <==> id in states) &&
              (id in states ==> StatesAfter(states, snap)[id] == states[id])
  {
    assert snap[..|snap|] == snap;
    StatesAfterPrefix(states, snap, id, |snap|);
    var l := LatestBefore(snap, id, |snap|);
    if l.Some? {
      assert id in IdsOf(snap) by { assert IdOf(snap[l.value]) == id; }
    } else {
      assert id !in IdsOf(snap);
    }
  }

  lemma ResultAt(states: States, snap: Snapshot, clock: nat -> string, i: nat)
    requires i < |snap|
    ensures |Results(states, snap, clock)| == |snap|
    ensures Results(states, snap, clock)[i] == Observe(StatesAfter(states, snap[..i]), snap[i], clock(i))
  {
  }

  /** One result per compose, in snapshot order, stamped with reading i of the clock. */
  lemma ResultsShape(states: States, snap: Snapshot, clock: nat -> string)
    ensures |Results(states, snap, clock)| == |snap|
    ensures forall i :: 0 <= i < |snap| ==>
              var r := Results(states, snap, clock)[i];
              r.composeId == IdOf(snap[i]) && r.status == StatusOf(snap[i]) && r.checkedAt == clock(i) &&
              r.name == Get(snap[i], "name", Str("Unknown")) &&
              r.projectName == Get(snap[i], "project_name", Str("Unknown"))
  {
    forall i | 0 <= i < |snap|
      ensures var r := Results(states, snap, clock)[i];
              r.composeId == IdOf(snap[i]) && r.status == StatusOf(snap[i]) && r.checkedAt == clock(i) &&
              r.name == Get(snap[i], "name", Str("Unknown")) &&
              r.projectName == Get(snap[i], "project_name", Str("Unknown"))
    {
      ResultAt(states, snap, clock, i);
    }
  }

  /**
   * Result i carries the pre-update status of its id (that of an earlier
   * duplicate in the same snapshot, else the old map's), and is a transition
   * iff that status is truthy and differs from the current one.
   */
  lemma TransitionAgainstPrior(states: States, snap: Snapshot, clock: nat -> string, i: nat)
    requires i < |snap|
    ensures Results(states, snap, clock)[i].previousStatus == PriorAt(states, snap, IdOf(snap[i]), i)
    ensures Results(states, snap, clock)[i].statusChanged == ChangeFlag(PriorAt(states, snap, IdOf(snap[i]), i), StatusOf(snap[i]))
    ensures IsChanged(Results(states, snap, clock)[i]) <==>
              Truthy(PriorAt(states, snap, IdOf(snap[i]), i)) &&
              PriorAt(states, snap, IdOf(snap[i]), i) != StatusOf(snap[i])
  {
    ResultAt(states, snap, clock, i);
    StatesAfterPrefix(states, snap, IdOf(snap[i]), i);
  }

  /** An id seen for the first time is never reported as changed. */
  lemma FirstObservationUnchanged(states: States, snap: Snapshot, clock: nat -> string, i: nat)
    requires i < |snap|
    requires IdOf(snap[i]) !in states
    requires forall j :: 0 <= j < i ==> IdOf(snap[j]) != IdOf(snap[i])
    ensures !IsChanged(Results(states, snap, clock)[i])
    ensures Results(states, snap, clock)[i].previousStatus == Null
    ensures Results(states, snap, clock)[i].statusChanged == Null
  {
    TransitionAgainstPrior(states, snap, clock, i);
  }

  /** A prior status that is missing, `None` or the empty string never makes a transition. */
  lemma FalsyPriorUnchanged(states: States, snap: Snapshot, clock: nat -> string, i: nat)
    requires i < |snap|
    requires PriorAt(states, snap, IdOf(snap[i]), i) in [Null, Str("")]
    ensures !IsChanged(Results(states, snap, clock)[i])
    ensures Results(states, snap, clock)[i].statusChanged == PriorAt(states, snap, IdOf(snap[i]), i)
  {
    TransitionAgainstPrior(states, snap, clock, i);
  }

  /** No compose id occurs twice in the snapshot with two different statuses. */
  ghost predicate ConsistentStatuses(snap: Snapshot)
  {
    forall i, j :: 0 <= i < |snap| && 0 <= j < |snap| && IdOf(snap[i]) == IdOf(snap[j]) ==>
      StatusOf(snap[i]) == StatusOf(snap[j])
  }

  /** A compose of a consistent snapshot is unchanged when the map already holds the whole snapshot. */
  lemma QuietAt(states: States, snap: Snapshot, clock: nat -> string, i: nat)
    requires ConsistentStatuses(snap) && i < |snap|
    ensures !IsChanged(Results(StatesAfter(states, snap), snap, clock)[i])
  {
    var after := StatesAfter(states, snap);
    var id := IdOf(snap[i]);
    TransitionAgainstPrior(after, snap, clock, i);
    var l := LatestBefore(snap, id, i);
    if l.None? {
      StatesAfterCycle(states, snap, id);
      var last := LatestBefore(snap, id, |snap|);
      assert last.Some?;
      assert StatusOf(snap[last.value]) == StatusOf(snap[i]);
    } else {
      assert StatusOf(snap[l.value]) == StatusOf(snap[i]);
    }
  }

  /** Running the cycle again on the same snapshot reports no transition. */
  lemma SecondCycleQuiet(states: States, snap: Snapshot, clock: nat -> string, clock': nat -> string)
    requires ConsistentStatuses(snap)
    ensures forall i :: 0 <= i < |snap| ==> !IsChanged(Results(StatesAfter(states, snap), snap, clock')[i])
    ensures Filter(IsChanged, Results(StatesAfter(states, snap), snap, clock')) == []
  {
    var rs := Results(StatesAfter(states, snap), snap, clock');
    forall i | 0 <= i < |snap| ensures !IsChanged(rs[i]) {
      QuietAt(states, snap, clock', i);
    }
    NothingChanged(rs);
  }

  lemma {:induction false} NothingChanged(rs: seq<CheckResult>)
    requires forall i :: 0 <= i < |rs| ==> !IsChanged(rs[i])
    ensures Filter(IsChanged, rs) == []
    decreases |rs|
  {
    if rs != [] {
      NothingChanged(rs[..|rs| - 1]);
    }
  }

  /**
   * Without the consistency condition the second cycle need not be quiet: when
   * the last occurrence of an id carries a truthy status that differs from the
   * first occurrence's, the second cycle reports the first occurrence as
   * changed, against the status the last occurrence left in the map.
   */
  lemma DuplicateIdUnsettled(states: States, snap: Snapshot, clock: nat -> string, i: nat, j: nat)
    requires i < |snap| && j < |snap| && IdOf(snap[j]) == IdOf(snap[i])
    requires forall k :: 0 <= k < i ==> IdOf(snap[k]) != IdOf(snap[i])
    requires forall k :: j < k < |snap| ==> IdOf(snap[k]) != IdOf(snap[i])
    requires Truthy(StatusOf(snap[j])) && StatusOf(snap[j]) != StatusOf(snap[i])
    ensures Results(StatesAfter(states, snap), snap, clock)[i].previousStatus == StatusOf(snap[j])
    ensures IsChanged(Results(StatesAfter(states, snap), snap, clock)[i])
  {
    var id := IdOf(snap[i]);
    StatesAfterCycle(states, snap, id);
    var last := LatestBefore(snap, id, |snap|);
    assert last.Some? && last.value == j;
    TransitionAgainstPrior(StatesAfter(states, snap), snap, clock, i);
  }

  /** An instance: a snapshot listing one id with "x" and then "y" reports a change again on the second cycle. */
  lemma DuplicateIdNeverSettles()
    ensures
      var a := map["composeId" := Str("a"), "composeStatus" := Str("x")];
      var b := map["composeId" := Str("a"), "composeStatus" := Str("y")];
      var clock := (n: nat) => "t";
      IsChanged(Results(StatesAfter(map[], [a, b]), [a, b], clock)[0])
  {
    var a := map["composeId" := Str("a"), "composeStatus" := Str("x")];
    var b := map["composeId" := Str("a"), "composeStatus" := Str("y")];
    var snap := [a, b];
    assert IdOf(a) == Str("a") && IdOf(b) == Str("a");
    assert StatusOf(a) == Str("x") && StatusOf(b) == Str("y");
    assert snap[..1] == [a];
    assert [a][..0] == [];
    var after := StatesAfter(map[], snap);
    assert after[Str("a")] == Str("y");
    ResultAt(after, snap, (n: nat) => "t", 0);
    assert snap[..0] == [];
    assert Truthy(Str("y"));
  }

  /**
   * "running" in one cycle and "error" in the next: one transition with
   * previous status "running".
   */
  lemma RunningThenError(clock2: nat -> string)
    ensures
      var c1 := map["composeId" := Str("c1"), "composeStatus" := Str("running")];
      var c2 := map["composeId" := Str("c1"), "composeStatus" := Str("error")];
      var rs := Results(StatesAfter(map[], [c1]), [c2], clock2);
      |rs| == 1 && rs[0].statusChanged == Bool(true) && rs[0].previousStatus == Str("running") && rs[0].status == Str("error") &&
      Filter(IsChanged, rs) == rs
  {
    var c1 := map["composeId" := Str("c1"), "composeStatus" := Str("running")];
    var c2 := map["composeId" := Str("c1"), "composeStatus" := Str("error")];
    assert IdOf(c1) == Str("c1") && StatusOf(c1) == Str("running");
    assert IdOf(c2) == Str("c1") && StatusOf(c2) == Str("error");
    assert [c1][..0] == [];
    var after := StatesAfter(map[], [c1]);
    assert after[Str("c1")] == Str("running");
    ResultAt(after, [c2], clock2, 0);
    assert [c2][..0] == [];
    var rs := Results(after, [c2], clock2);
    assert rs[0].statusChanged == Bool(true);
    FilterSnoc(IsChanged, [], rs[0]);
    assert rs == [] + [rs[0]];
  }

  /** What appending one result does to the deliveries and the failures. */
  lemma Notify(cb: Callback, rs: seq<CheckResult>, r: CheckResult)
    ensures Deliveries(cb, rs + [r]) == Deliveries(cb, rs) + (if cb.Subscriber? && IsChanged(r) then [r] else [])
    ensures Failures(cb, rs + [r]) == Failures(cb, rs) + (if Raised(cb, r) then [r] else [])
  {
    FilterSnoc(IsChanged, rs, r);
    FilterSnoc(r => Raised(cb, r), rs, r);
  }

  lemma CycleStep(states: States, snap: Snapshot, clock: nat -> string, i: nat)
    requires i < |snap|
    ensures Results(states, snap[..i + 1], clock) ==
            Results(states, snap[..i], clock) + [Observe(StatesAfter(states, snap[..i]), snap[i], clock(i))]
    ensures StatesAfter(states, snap[..i + 1]) == StatesAfter(states, snap[..i])[IdOf(snap[i]) := StatusOf(snap[i])]
  {
    ResultsSnoc(states, snap, clock, i);
    assert snap[..i + 1][..i] == snap[..i];
  }

  lemma ResultsSnoc(states: States, snap: Snapshot, clock: nat -> string, i: nat)
    requires i < |snap|
    ensures Results(states, snap[..i + 1], clock) ==
            Results(states, snap[..i], clock) + [Observe(StatesAfter(states, snap[..i]), snap[i], clock(i))]
  {
    var l := Results(states, snap[..i + 1], clock);
    var r := Results(states, snap[..i], clock) + [Observe(StatesAfter(states, snap[..i]), snap[i], clock(i))];
    forall j | 0 <= j < i + 1 ensures l[j] == r[j] {
      assert snap[..i + 1][..j] == snap[..j];
      if j < i { assert snap[..i][..j] == snap[..j]; }
    }
  }

  // ---------------------------------------------------------------------------
  // The status histogram, as a dict in insertion order

  type Histogram = seq<(Value, nat)>

  /** `counts[status] = counts.get(status, 0) + 1`: a known key keeps its place, a new one goes last. */
  function Bump(h: Histogram, k: Value): Histogram
  {
    if h == [] then [(k, 1)]
    else if h[0].0 == k then [(k, h[0].1 + 1)] + h[1..]
    else [h[0]] + Bump(h[1..], k)
  }

  function CountOf(h: Histogram, k: Value): nat
  {
    if h == [] then 0 else if h[0].0 == k then h[0].1 else CountOf(h[1..], k)
  }

  function Sum(h: Histogram): nat
  {
    if h == [] then 0 else h[0].1 + Sum(h[1..])
  }

  /** The keys of a histogram, in its order. */
  function KeySeq(h: Histogram): (ks: seq<Value>)
    ensures |ks| == |h| && forall j :: 0 <= j < |h| ==> ks[j] == h[j].0
  {
    seq(|h|, j requires 0 <= j < |h| => h[j].0)
  }

  predicate Distinct(s: seq<Value>)
  {
    forall i, j :: 0 <= i < j < |s| ==> s[i] != s[j]
  }

  function StatusHistogram(snap: Snapshot): Histogram
  {
    if snap == [] then [] else Bump(StatusHistogram(snap[..|snap| - 1]), StatusOf(snap[|snap| - 1]))
  }

  /** How many composes of the snapshot have status `k`. */
  function Occurrences(snap: Snapshot, k: Value): nat
  {
    if snap == [] then 0
    else Occurrences(snap[..|snap| - 1], k) + (if StatusOf(snap[|snap| - 1]) == k then 1 else 0)
  }

  function StatusesOf(snap: Snapshot): set<Value>
  {
    set j | 0 <= j < |snap| :: StatusOf(snap[j])
  }

  /** The distinct statuses of a snapshot, in order of first appearance. */
  function FirstSeen(snap: Snapshot): (f: seq<Value>)
    ensures Distinct(f)
    ensures forall v :: v in f <==> v in StatusesOf(snap)
  {
    if snap == [] then []
    else
      var pre := snap[..|snap| - 1];
      var last := StatusOf(snap[|snap| - 1]);
      var f := FirstSeen(pre);
      assert StatusesOf(snap) == StatusesOf(pre) + {last} by {
        forall v | v in StatusesOf(snap) ensures v in StatusesOf(pre) + {last} {
          var j :| 0 <= j < |snap| && StatusOf(snap[j]) == v;
          if j < |snap| - 1 { assert StatusOf(pre[j]) == v; }
        }
        forall v | v in StatusesOf(pre) ensures v in StatusesOf(snap) {
          var j :| 0 <= j < |pre| && StatusOf(pre[j]) == v;
          assert StatusOf(snap[j]) == v;
        }
      }
      if last in f then f else f + [last]
  }

  lemma {:induction false} BumpSum(h: Histogram, k: Value)
    ensures Sum(Bump(h, k)) == Sum(h) + 1
    decreases |h|
  {
    if h != [] && h[0].0 != k {
      BumpSum(h[1..], k);
      assert Bump(h, k)[1..] == Bump(h[1..], k);
    }
  }

  lemma {:induction false} BumpCount(h: Histogram, k: Value, v: Value)
    ensures CountOf(Bump(h, k), v) == CountOf(h, v) + (if v == k then 1 else 0)
    decreases |h|
  {
    if h != [] && h[0].0 != k {
      BumpCount(h[1..], k, v);
      assert Bump(h, k)[1..] == Bump(h[1..], k);
    } else if h != [] {
      assert Bump(h, k)[1..] == h[1..];
    }
  }

  lemma KeySeqCons(x: (Value, nat), h: Histogram)
    ensures KeySeq([x] + h) == [x.0] + KeySeq(h)
  {
  }

  /** A known key keeps its place; a new key is appended. */
  lemma {:induction false} BumpKeys(h: Histogram, k: Value)
    ensures KeySeq(Bump(h, k)) == if k in KeySeq(h) then KeySeq(h) else KeySeq(h) + [k]
    decreases |h|
  {
    if h == [] {
      assert KeySeq(Bump(h, k)) == [k];
    } else if h[0].0 == k {
      BumpFirstKey(h, k);
    } else {
      BumpKeys(h[1..], k);
      BumpLaterKey(h, k);
    }
  }

  lemma {:induction false} BumpFirstKey(h: Histogram, k: Value)
    requires h != [] && h[0].0 == k
    ensures KeySeq(Bump(h, k)) == KeySeq(h) && k in KeySeq(h)
  {
    KeySeqCons((k, h[0].1 + 1), h[1..]);
    KeySeqCons(h[0], h[1..]);
    assert [h[0]] + h[1..] == h;
  }

  lemma {:induction false} BumpLaterKey(h: Histogram, k: Value)
    requires h != [] && h[0].0 != k
    requires KeySeq(Bump(h[1..], k)) == if k in KeySeq(h[1..]) then KeySeq(h[1..]) else KeySeq(h[1..]) + [k]
    ensures KeySeq(Bump(h, k)) == if k in KeySeq(h) then KeySeq(h) else KeySeq(h) + [k]
  {
    var t := h[1..];
    var bt := Bump(t, k);
    assert Bump(h, k) == [h[0]] + bt;
    KeySeqCons(h[0], bt);
    KeySeqCons(h[0], t);
    assert [h[0]] + t == h;
    assert k in KeySeq(h) <==> k in KeySeq(t);
  }

  /**
   * The histogram lists each distinct status once, in order of first
   * appearance; each count is the number of composes with that status, and
   * the counts add up to the number of composes.
   */
  lemma {:induction false} HistogramCounts(snap: Snapshot)
    ensures KeySeq(StatusHistogram(snap)) == FirstSeen(snap)
    ensures Sum(StatusHistogram(snap)) == |snap|
    ensures forall k :: CountOf(StatusHistogram(snap), k) == Occurrences(snap, k)
    decreases |snap|
  {
    if snap != [] {
      var pre := snap[..|snap| - 1];
      var last := StatusOf(snap[|snap| - 1]);
      HistogramCounts(pre);
      BumpSum(StatusHistogram(pre), last);
      BumpKeys(StatusHistogram(pre), last);
      forall k ensures CountOf(StatusHistogram(snap), k) == Occurrences(snap, k) {
        BumpCount(StatusHistogram(pre), last, k);
      }
    }
  }

  // ---------------------------------------------------------------------------
  // Health of one compose and the per-cycle summary

  /** The health rule: the compose is done and has at least one service. */
  predicate IsHealthy(status: Value, servicesCount: int)
  {
    status == Str("done") && servicesCount > 0
  }

  datatype HealthReport =
    | HealthReport(health: Dokploy.ComposeHealth, healthy: bool, checkedAt: string)
    | HealthFailure(composeId: string, error: string, checkedAt: string)

  datatype CycleSummary = CycleSummary(total: nat, changed: nat)

  /** The counts `_monitor_loop` logs after a cycle. */
  function Summarize(rs: seq<CheckResult>): (s: CycleSummary)
    ensures s.total == |rs| && s.changed <= s.total
    ensures s.changed == 0 <==> forall r :: r in rs ==> !IsChanged(r)
  {
    var changed := Filter(IsChanged, rs);
    assert changed != [] ==> changed[0] in changed;
    CycleSummary(|rs|, |changed|)
  }

  /** The statuses `get_unhealthy_composes` keeps: those outside the nominal set, in order. */
  function Unhealthy(rs: seq<CheckResult>): (u: seq<CheckResult>)
    ensures |u| <= |rs|
    ensures forall r :: r in u <==>
              r in rs && r.status != Str("done") && r.status != Str("running") && r.status != Str("idle")
  {
    Filter(IsUnhealthy, rs)
  }

  /** Statuses "done", "error" and "idle": exactly the "error" result is unhealthy. */
  lemma OnlyErrorUnhealthy(a: CheckResult, b: CheckResult, c: CheckResult)
    requires a.status == Str("done") && b.status == Str("error") && c.status == Str("idle")
    ensures Unhealthy([a, b, c]) == [b]
  {
    assert !IsUnhealthy(a) && IsUnhealthy(b) && !IsUnhealthy(c);
    FilterSnoc(IsUnhealthy, [], a);
    FilterSnoc(IsUnhealthy, [a], b);
    FilterSnoc(IsUnhealthy, [a, b], c);
    assert [a] + [b] + [c] == [a, b, c];
  }

  /** The results of one cycle, given how the fetch went. */
  function CycleResults(states: States, fetched: Result<Snapshot, string>, clock: nat -> string): seq<CheckResult>
  {
    if fetched.Ok? then Results(states, fetched.value, clock) else []
  }

  function AfterFetch(states: States, fetched: Result<Snapshot, string>): States
  {
    if fetched.Ok? then StatesAfter(states, fetched.value) else states
  }

  /** The map after a sequence of cycles. */
  function StatesAfterCycles(states: States, fetches: seq<Result<Snapshot, string>>): States
  {
    if fetches == [] then states
    else AfterFetch(StatesAfterCycles(states, fetches[..|fetches| - 1]), fetches[|fetches| - 1])
  }

  /** The summaries of a sequence of cycles, cycle c reading clock `clocks(c)`. */
  function Summaries(states: States, fetches: seq<Result<Snapshot, string>>, clocks: nat -> nat -> string)
    : seq<CycleSummary>
  {
    if fetches == [] then []
    else
      var pre := fetches[..|fetches| - 1];
      Summaries(states, pre, clocks) +
      [Summarize(CycleResults(StatesAfterCycles(states, pre), fetches[|fetches| - 1], clocks(|fetches| - 1)))]
  }

  /** The events the callback is invoked with over a sequence of cycles, cycle by cycle. */
  function RunDeliveries(cb: Callback, states: States, fetches: seq<Result<Snapshot, string>>, clocks: nat -> nat -> string)
    : seq<CheckResult>
  {
    if fetches == [] then []
    else
      var pre := fetches[..|fetches| - 1];
      RunDeliveries(cb, states, pre, clocks) +
      Deliveries(cb, CycleResults(StatesAfterCycles(states, pre), fetches[|fetches| - 1], clocks(|fetches| - 1)))
  }

  /** The deliveries whose callback raised over a sequence of cycles, cycle by cycle. */
  function RunFailures(cb: Callback, states: States, fetches: seq<Result<Snapshot, string>>, clocks: nat -> nat -> string)
    : seq<CheckResult>
  {
    if fetches == [] then []
    else
      var pre := fetches[..|fetches| - 1];
      RunFailures(cb, states, pre, clocks) +
      Failures(cb, CycleResults(StatesAfterCycles(states, pre), fetches[|fetches| - 1], clocks(|fetches| - 1)))
  }

  /**
   * Over a run of cycles only changed results reach the callback, nothing does
   * without a subscriber, and every failure is a delivery on which it raised.
   */
  lemma {:induction false} RunDeliveriesChanged(cb: Callback, states: States, fetches: seq<Result<Snapshot, string>>,
                                               clocks: nat -> nat -> string)
    ensures forall r :: r in RunDeliveries(cb, states, fetches, clocks) ==> IsChanged(r)
    ensures forall r :: r in RunFailures(cb, states, fetches, clocks) ==>
              r in RunDeliveries(cb, states, fetches, clocks) && cb.Subscriber? && cb.raises(r)
    ensures cb.NoCallback? ==> RunDeliveries(cb, states, fetches, clocks) == [] && RunFailures(cb, states, fetches, clocks) == []
    decreases |fetches|
  {
    if fetches != [] {
      var pre := fetches[..|fetches| - 1];
      RunDeliveriesChanged(cb, states, pre, clocks);
      var rs := CycleResults(StatesAfterCycles(states, pre), fetches[|fetches| - 1], clocks(|fetches| - 1));
      forall r | r in Failures(cb, rs) ensures r in Deliveries(cb, rs) && cb.Subscriber? {
        assert r in rs && Raised(cb, r);
      }
      if Failures(cb, rs) != [] {
        assert Failures(cb, rs)[0] in Failures(cb, rs);
      }
    }
  }

  /** One more cycle extends the summaries, the map and the deliveries of a run by those of that cycle. */
  lemma RunStep(cb: Callback, states: States, fetches: seq<Result<Snapshot, string>>, clocks: nat -> nat -> string, c: nat)
    requires c < |fetches|
    ensures var rs := CycleResults(StatesAfterCycles(states, fetches[..c]), fetches[c], clocks(c));
            Summaries(states, fetches[..c + 1], clocks) == Summaries(states, fetches[..c], clocks) + [Summarize(rs)] &&
            StatesAfterCycles(states, fetches[..c + 1]) == AfterFetch(StatesAfterCycles(states, fetches[..c]), fetches[c]) &&
            RunDeliveries(cb, states, fetches[..c + 1], clocks) == RunDeliveries(cb, states, fetches[..c], clocks) + Deliveries(cb, rs) &&
            RunFailures(cb, states, fetches[..c + 1], clocks) == RunFailures(cb, states, fetches[..c], clocks) + Failures(cb, rs)
  {
    assert fetches[..c + 1][..c] == fetches[..c];
  }

  /** A cycle whose fetch failed leaves the map as it was and counts nothing. */
  lemma FailedFetchIsInert(states: States, fetches: seq<Result<Snapshot, string>>, clocks: nat -> nat -> string)
    requires fetches != [] && fetches[|fetches| - 1].Err?
    ensures StatesAfterCycles(states, fetches) == StatesAfterCycles(states, fetches[..|fetches| - 1])
    ensures |Summaries(states, fetches, clocks)| == |fetches|
    ensures Summaries(states, fetches, clocks)[|fetches| - 1] == CycleSummary(0, 0)
  {
    SummariesBounded(states, fetches[..|fetches| - 1], clocks);
  }

  /** The summaries of a run of cycles are one per cycle, each with no more changes than results. */
  lemma {:induction false} SummariesBounded(states: States, fetches: seq<Result<Snapshot, string>>, clocks: nat -> nat -> string)
    ensures |Summaries(states, fetches, clocks)| == |fetches|
    ensures forall c :: 0 <= c < |fetches| ==>
              Summaries(states, fetches, clocks)[c].changed <= Summaries(states, fetches, clocks)[c].total
    decreases |fetches|
  {
    if fetches != [] {
      SummariesBounded(states, fetches[..|fetches| - 1], clocks);
    }
  }

  // ---------------------------------------------------------------------------
  // The monitor object

  class ServiceMonitor {
    const checkInterval: int
    const onStatusChange: Callback
    var previousStates: States
    var isRunning: bool
    var monitorTask: Task
    /** How many loop tasks `start` has created. */
    var tasksCreated: nat
    /** The events the callback was invoked with, oldest first. */
    var delivered: seq<CheckResult>
    /** The deliveries whose callback raised (and were logged). */
    var failedDeliveries: seq<CheckResult>

    /** A loop task is active exactly while the monitor is running. */
    ghost predicate Valid()
      reads this
    {
      isRunning <==> monitorTask == Active
    }

    constructor (checkInterval: int := DEFAULT_CHECK_INTERVAL, onStatusChange: Callback := NoCallback)
      ensures Valid()
      ensures this.checkInterval == checkInterval && this.onStatusChange == onStatusChange
      ensures previousStates == map[] && !isRunning && monitorTask == NoTask && tasksCreated == 0
      ensures delivered == [] && failedDeliveries == []
    {
      this.checkInterval := checkInterval;
      this.onStatusChange := onStatusChange;
      previousStates := map[];
      isRunning := false;
      monitorTask := NoTask;
      tasksCreated := 0;
      delivered := [];
      failedDeliveries := [];
    }

    /**
     * `check_all_composes`, given how `get_all_composes` went and the clock
     * readings. A failed fetch returns no results and changes nothing.
     */
    method CheckAllComposes(fetched: Result<Snapshot, string>, clock: nat -> string) returns (results: seq<CheckResult>)
      modifies this`previousStates, this`delivered, this`failedDeliveries
      ensures results == CycleResults(old(previousStates), fetched, clock)
      ensures previousStates == AfterFetch(old(previousStates), fetched)
      ensures delivered == old(delivered) + Deliveries(onStatusChange, results)
      ensures failedDeliveries == old(failedDeliveries) + Failures(onStatusChange, results)
    {
      match fetched
      case Err(_) =>
        results := [];
      case Ok(composes) =>
        results := ObserveAll(composes, clock);
    }

    /** The loop of `check_all_composes` over a fetched snapshot. */
    method ObserveAll(composes: Snapshot, clock: nat -> string) returns (results: seq<CheckResult>)
      modifies this`previousStates, this`delivered, this`failedDeliveries
      ensures results == Results(old(previousStates), composes, clock)
      ensures previousStates == StatesAfter(old(previousStates), composes)
      ensures delivered == old(delivered) + Deliveries(onStatusChange, results)
      ensures failedDeliveries == old(failedDeliveries) + Failures(onStatusChange, results)
    {
      ghost var s0, d0, f0 := previousStates, delivered, failedDeliveries;
      results := [];
      var i := 0;
      while i < |composes|
        invariant 0 <= i <= |composes|
        invariant results == Results(s0, composes[..i], clock)
        invariant previousStates == StatesAfter(s0, composes[..i])
        invariant delivered == d0 + Deliveries(onStatusChange, results)
        invariant failedDeliveries == f0 + Failures(onStatusChange, results)
      {
        CycleStep(s0, composes, clock, i);
        ghost var expected := Observe(StatesAfter(s0, composes[..i]), composes[i], clock(i));
        Notify(onStatusChange, results, expected);
        ghost var dPrev, fPrev := delivered, failedDeliveries;
        var result := CheckCompose(composes[i], clock(i));
        assert result == expected;
        ghost var dNew := if onStatusChange.Subscriber? && IsChanged(result) then [result] else [];
        ghost var fNew := if Raised(onStatusChange, result) then [result] else [];
        assert delivered == d0 + Deliveries(onStatusChange, results + [result]) by {
          assert delivered == dPrev + dNew;
          AppendAssoc(d0, Deliveries(onStatusChange, results), dNew);
          assert Deliveries(onStatusChange, results + [result]) == Deliveries(onStatusChange, results) + dNew;
        }
        assert failedDeliveries == f0 + Failures(onStatusChange, results + [result]) by {
          assert failedDeliveries == fPrev + fNew;
          AppendAssoc(f0, Failures(onStatusChange, results), fNew);
          assert Failures(onStatusChange, results + [result]) == Failures(onStatusChange, results) + fNew;
        }
        results := results + [result];
        i := i + 1;
      }
      assert composes[..|composes|] == composes;
    }

    /** One pass of the loop of `check_all_composes`: compare, notify, record. */
    method CheckCompose(compose: Record, checkedAt: string) returns (result: CheckResult)
      modifies this`previousStates, this`delivered, this`failedDeliveries
      ensures result == Observe(old(previousStates), compose, checkedAt)
      ensures previousStates == old(previousStates)[IdOf(compose) := StatusOf(compose)]
      ensures delivered == old(delivered) + (if onStatusChange.Subscriber? && IsChanged(result) then [result] else [])
      ensures failedDeliveries == old(failedDeliveries) + (if Raised(onStatusChange, result) then [result] else [])
    {
      var composeId := Get(compose, "composeId", Null);
      var name := Get(compose, "name", Str("Unknown"));
      var currentStatus := Get(compose, "composeStatus", Str("unknown"));

      var previousStatus := if composeId in previousStates then previousStates[composeId] else Null;
      var statusChanged := if Truthy(previousStatus) then Bool(previousStatus != currentStatus) else previousStatus;

      result := CheckResult(composeId, name, currentStatus, previousStatus, statusChanged,
                            Get(compose, "project_name", Str("Unknown")), checkedAt);
      Deliver(result);
      previousStates := previousStates[composeId := currentStatus];
    }

    /** Invokes the callback with a changed result; a raise is logged and swallowed. */
    method Deliver(result: CheckResult)
      modifies this`delivered, this`failedDeliveries
      ensures delivered == old(delivered) + (if onStatusChange.Subscriber? && IsChanged(result) then [result] else [])
      ensures failedDeliveries == old(failedDeliveries) + (if Raised(onStatusChange, result) then [result] else [])
    {
      if Truthy(result.statusChanged) && onStatusChange.Subscriber? {
        delivered := delivered + [result];
        if onStatusChange.raises(result) {
          failedDeliveries := failedDeliveries + [result];
        }
      }
    }

    /** `check_compose_health`, given the two answers `get_compose_health` fetches and the clock reading. */
    method CheckComposeHealth(composeId: string, info: Result<Record, string>, services: Result<seq<Record>, string>,
                              checkedAt: string)
      returns (report: HealthReport)
      ensures info.Err? ==> report == HealthFailure(composeId, info.error, checkedAt)
      ensures info.Ok? && services.Err? ==> report == HealthFailure(composeId, services.error, checkedAt)
      ensures info.Ok? && services.Ok? ==>
                report.HealthReport? && report.health == Dokploy.HealthSummary(composeId, info.value, services.value) &&
                report.checkedAt == checkedAt
      ensures report.HealthReport? ==> report.health.composeId == composeId
      ensures report.HealthReport? && report.healthy <==>
                info.Ok? && services.Ok? && Get(info.value, "composeStatus", Str("unknown")) == Str("done") && |services.value| > 0
    {
      var fetched := Dokploy.GetComposeHealth(composeId, info, services);
      match fetched
      case Err(e) =>
        report := HealthFailure(composeId, e, checkedAt);
      case Ok(health) =>
        var servicesCount := health.servicesCount;
        var status := health.status;
        report := HealthReport(health, IsHealthy(status, servicesCount), checkedAt);
    }

    /** `get_unhealthy_composes`: a full cycle, then the non-nominal results in order. */
    method GetUnhealthyComposes(fetched: Result<Snapshot, string>, clock: nat -> string) returns (unhealthy: seq<CheckResult>)
      modifies this`previousStates, this`delivered, this`failedDeliveries
      ensures unhealthy == Unhealthy(CycleResults(old(previousStates), fetched, clock))
      ensures previousStates == AfterFetch(old(previousStates), fetched)
      ensures delivered == old(delivered) + Deliveries(onStatusChange, CycleResults(old(previousStates), fetched, clock))
      ensures failedDeliveries ==
                old(failedDeliveries) + Failures(onStatusChange, CycleResults(old(previousStates), fetched, clock))
    {
      var composes := CheckAllComposes(fetched, clock);
      unhealthy := Unhealthy(composes);
    }

    /**
     * `get_monitoring_stats`. It does not catch a failed fetch, which
     * therefore propagates; it never touches the map.
     */
    method GetMonitoringStats(fetched: Result<Snapshot, string>) returns (stats: Result<MonitoringStats, string>)
      ensures fetched.Err? ==> stats == Err(fetched.error)
      ensures fetched.Ok? ==> stats.Ok? && stats.value.totalComposes == |fetched.value|
      ensures fetched.Ok? ==> stats.value.statusDistribution == StatusHistogram(fetched.value)
      ensures fetched.Ok? ==> stats.value.monitoringActive == isRunning && stats.value.checkInterval == checkInterval
      ensures fetched.Ok? ==> stats.value.trackedComposes == |previousStates|
    {
      match fetched
      case Err(e) =>
        stats := Err(e);
      case Ok(composes) =>
        var statusCounts: Histogram := [];
        for i := 0 to |composes|
          invariant statusCounts == StatusHistogram(composes[..i])
        {
          var status := Get(composes[i], "composeStatus", Str("unknown"));
          assert composes[..i + 1][..i] == composes[..i];
          statusCounts := Bump(statusCounts, status);
        }
        assert composes[..|composes|] == composes;
        stats := Ok(MonitoringStats(|composes|, isRunning, checkInterval, statusCounts, |previousStates|));
    }

    /** `start`: a second call while running changes nothing. */
    method Start()
      requires Valid()
      modifies this`isRunning, this`monitorTask, this`tasksCreated
      ensures Valid() && isRunning
      ensures old(isRunning) ==> monitorTask == old(monitorTask) && tasksCreated == old(tasksCreated)
      ensures !old(isRunning) ==> monitorTask == Active && tasksCreated == old(tasksCreated) + 1
    {
      if isRunning {
        return;
      }
      isRunning := true;
      monitorTask := Active;
      tasksCreated := tasksCreated + 1;
    }

    /** `stop`: a call while stopped changes nothing; otherwise the task is cancelled and awaited. */
    method Stop()
      requires Valid()
      modifies this`isRunning, this`monitorTask
      ensures Valid() && !isRunning
      ensures !old(isRunning) ==> monitorTask == old(monitorTask)
      ensures old(isRunning) ==> monitorTask == Cancelled
    {
      if !isRunning {
        return;
      }
      isRunning := false;
      if monitorTask != NoTask {
        monitorTask := Cancelled;
      }
    }

    /**
     * `_monitor_loop`: one cycle per fetch outcome while the monitor runs.
     * A failed fetch or a raising callback never ends the loop.
     */
    method MonitorLoop(fetches: seq<Result<Snapshot, string>>, clocks: nat -> nat -> string)
      returns (summaries: seq<CycleSummary>)
      modifies this`previousStates, this`delivered, this`failedDeliveries
      ensures isRunning ==> summaries == Summaries(old(previousStates), fetches, clocks)
      ensures isRunning ==> previousStates == StatesAfterCycles(old(previousStates), fetches)
      ensures isRunning ==> delivered == old(delivered) + RunDeliveries(onStatusChange, old(previousStates), fetches, clocks)
      ensures isRunning ==>
                failedDeliveries == old(failedDeliveries) + RunFailures(onStatusChange, old(previousStates), fetches, clocks)
      ensures !isRunning ==> summaries == [] && previousStates == old(previousStates)
      ensures !isRunning ==> delivered == old(delivered) && failedDeliveries == old(failedDeliveries)
    {
      ghost var s0, d0, f0 := previousStates, delivered, failedDeliveries;
      summaries := [];
      var c := 0;
      while isRunning && c < |fetches|
        invariant 0 <= c <= |fetches|
        invariant !isRunning ==> c == 0
        invariant summaries == Summaries(s0, fetches[..c], clocks)
        invariant previousStates == StatesAfterCycles(s0, fetches[..c])
        invariant delivered == d0 + RunDeliveries(onStatusChange, s0, fetches[..c], clocks)
        invariant failedDeliveries == f0 + RunFailures(onStatusChange, s0, fetches[..c], clocks)
      {
        RunStep(onStatusChange, s0, fetches, clocks, c);
        ghost var rs := CycleResults(previousStates, fetches[c], clocks(c));
        var summary := MonitorCycle(fetches[c], clocks(c));
        AppendAssoc(d0, RunDeliveries(onStatusChange, s0, fetches[..c], clocks), Deliveries(onStatusChange, rs));
        AppendAssoc(f0, RunFailures(onStatusChange, s0, fetches[..c], clocks), Failures(onStatusChange, rs));
        summaries := summaries + [summary];
        c := c + 1;
      }
      assert fetches[..|fetches|] == fetches;
    }

    /** One pass of `_monitor_loop`: a cycle and the two counts logged after it. */
    method MonitorCycle(fetched: Result<Snapshot, string>, clock: nat -> string) returns (summary: CycleSummary)
      modifies this`previousStates, this`delivered, this`failedDeliveries
      ensures summary == Summarize(CycleResults(old(previousStates), fetched, clock))
      ensures previousStates == AfterFetch(old(previousStates), fetched)
      ensures delivered == old(delivered) + Deliveries(onStatusChange, CycleResults(old(previousStates), fetched, clock))
      ensures failedDeliveries ==
                old(failedDeliveries) + Failures(onStatusChange, CycleResults(old(previousStates), fetched, clock))
    {
      var results := CheckAllComposes(fetched, clock);
      var total := |results|;
      var changed := |Filter(IsChanged, results)|;
      summary := CycleSummary(total, changed);
    }
  }

  datatype MonitoringStats = MonitoringStats(
    totalComposes: nat,
    monitoringActive: bool,
    checkInterval: int,
    statusDistribution: Histogram,
    trackedComposes: nat)
}
