/** backend/app/metrics/compute.py: rates and latencies read from a run's log. */
module Metrics {
  import opened Wrappers
  import opened Ordering
  import opened World

  /** How often each event of interest occurs. `landed` are successes not flagged
      already-compromised; `falsely` are quarantines marked illegitimate. */
  datatype Tally = Tally(attempted: nat, succeeded: nat, failed: nat, landed: nat, quarantined: nat, falsely: nat) {
    function Plus(t: Tally): Tally {
      Tally(attempted + t.attempted, succeeded + t.succeeded, failed + t.failed,
            landed + t.landed, quarantined + t.quarantined, falsely + t.falsely)
    }
  }

  const ZERO: Tally := Tally(0, 0, 0, 0, 0, 0)

  function One(k: DraftKind): Tally {
    match k
    case CompromiseAttempted(_, _, _) => Tally(1, 0, 0, 0, 0, 0)
    case CompromiseSucceeded(_, _, already) => Tally(0, 1, 0, if already then 0 else 1, 0, 0)
    case CompromiseFailed(_, _, _) => Tally(0, 0, 1, 0, 0, 0)
    case AgentQuarantined(_, legitimate) => Tally(0, 0, 0, 0, 1, if legitimate then 0 else 1)
    case _ => ZERO
  }

  function Count(ds: seq<Draft>): Tally {
    if |ds| == 0 then ZERO else Count(ds[..|ds| - 1]).Plus(One(ds[|ds| - 1].kind))
  }

  function Share(part: nat, total: nat): real {
    if total == 0 then 0.0 else part as real / total as real
  }

  function AttackSuccessRate(log: seq<Draft>): real {
    Share(Count(log).succeeded, Count(log).succeeded + Count(log).failed)
  }

  function FalseQuarantineRate(log: seq<Draft>): real {
    Share(Count(log).falsely, Count(log).quarantined)
  }

  function RetainedUtility(w: World): real {
    Share(|w.nodes.Keys - CompromisedAgents(w) - QuarantinedAgents(w)|, |w.nodes.Keys|)
  }

  // --- what the rates count ---------------------------------------------------------------------------

  /** The events of the kinds that satisfy p. */
  ghost function Places(log: seq<Draft>, p: DraftKind -> bool): set<int> {
    set i | 0 <= i < |log| && p(log[i].kind)
  }

  lemma PlacesNext(log: seq<Draft>, p: DraftKind -> bool)
    requires |log| > 0
    ensures |Places(log, p)| == |Places(log[..|log| - 1], p)| + (if p(log[|log| - 1].kind) then 1 else 0)
  {
    var n := |log| - 1;
    assert Places(log, p) == Places(log[..n], p) + (if p(log[n].kind) then {n} else {});
    assert n !in Places(log[..n], p);
  }

  const ATTEMPT: DraftKind -> bool := (k: DraftKind) => k.CompromiseAttempted?
  const SUCCESS: DraftKind -> bool := (k: DraftKind) => k.CompromiseSucceeded?
  const FAILURE: DraftKind -> bool := (k: DraftKind) => k.CompromiseFailed?
  const LANDING: DraftKind -> bool := (k: DraftKind) => k.CompromiseSucceeded? && !k.alreadyCompromised
  const QUARANTINE: DraftKind -> bool := (k: DraftKind) => k.AgentQuarantined?
  const FALSE_ONE: DraftKind -> bool := (k: DraftKind) => k.AgentQuarantined? && !k.legitimate

  lemma {:induction false} CountIs(log: seq<Draft>)
    ensures var t := Count(log);
      && t.attempted == |Places(log, ATTEMPT)| && t.succeeded == |Places(log, SUCCESS)| && t.failed == |Places(log, FAILURE)|
      && t.landed == |Places(log, LANDING)| && t.quarantined == |Places(log, QUARANTINE)| && t.falsely == |Places(log, FALSE_ONE)|
  {
    hide Places;
    if |log| == 0 {
      NoPlaces();
    } else {
      CountIs(log[..|log| - 1]);
      PlacesNext(log, ATTEMPT);
      PlacesNext(log, SUCCESS);
      PlacesNext(log, FAILURE);
      PlacesNext(log, LANDING);
      PlacesNext(log, QUARANTINE);
      PlacesNext(log, FALSE_ONE);
    }
  }

  lemma NoPlaces()
    ensures forall p: DraftKind -> bool :: Places([], p) == {}
  {
  }

  /** x is the share of part in total, and zero of nothing. */
  ghost predicate IsShare(x: real, part: nat, total: nat) {
    if total == 0 then x == 0.0 else x * total as real == part as real
  }

  /** What the three rates are, event by event and agent by agent. */
  lemma RatesAre(w: World, log: seq<Draft>)
    ensures IsShare(AttackSuccessRate(log), |Places(log, SUCCESS)|, |Places(log, SUCCESS)| + |Places(log, FAILURE)|)
    ensures IsShare(FalseQuarantineRate(log), |Places(log, FALSE_ONE)|, |Places(log, QUARANTINE)|)
    ensures IsShare(RetainedUtility(w),
      |set a | a in w.nodes && w.nodes[a].state != Compromised && w.nodes[a].state != Quarantined|, |w.nodes|)
  {
    hide Count, Places;
    CountIs(log);
    assert w.nodes.Keys - CompromisedAgents(w) - QuarantinedAgents(w) ==
      set a | a in w.nodes && w.nodes[a].state != Compromised && w.nodes[a].state != Quarantined;
    assert |w.nodes.Keys| == |w.nodes|;
  }

  /** The tick of an agent's first ANOMALY_DETECTED. */
  function FirstDetected(log: seq<Draft>, a: AgentId): Option<nat> {
    if |log| == 0 then None else
      var earlier := FirstDetected(log[..|log| - 1], a);
      var d := log[|log| - 1];
      if earlier == None && d.kind == AnomalyDetected(a) then Some(d.tick) else earlier
  }

  /** The tick of an agent's first AGENT_QUARANTINED not marked illegitimate. */
  function FirstQuarantined(log: seq<Draft>, a: AgentId): Option<nat> {
    if |log| == 0 then None else
      var earlier := FirstQuarantined(log[..|log| - 1], a);
      var d := log[|log| - 1];
      if earlier == None && d.kind == AgentQuarantined(a, true) then Some(d.tick) else earlier
  }

  function Get(m: map<AgentId, nat>, a: AgentId): Option<nat> { if a in m then Some(m[a]) else None }

  /** The `setdefault` loop over ANOMALY_DETECTED. */
  method CollectDetected(log: seq<Draft>) returns (first: map<AgentId, nat>)
    ensures forall a :: FirstDetected(log, a) == Get(first, a)
  {
    first := map[];
    for i := 0 to |log|
      invariant forall a :: FirstDetected(log[..i], a) == Get(first, a)
    {
      var d := log[i];
      assert log[..i + 1][..i] == log[..i];
      if d.kind.AnomalyDetected? && d.kind.agent !in first {
        first := first[d.kind.agent := d.tick];
      }
    }
    assert log[..|log|] == log;
  }

  /** The `setdefault` loop over AGENT_QUARANTINED that skips the false ones. */
  method CollectQuarantined(log: seq<Draft>) returns (first: map<AgentId, nat>)
    ensures forall a :: FirstQuarantined(log, a) == Get(first, a)
  {
    first := map[];
    for i := 0 to |log|
      invariant forall a :: FirstQuarantined(log[..i], a) == Get(first, a)
    {
      var d := log[i];
      assert log[..i + 1][..i] == log[..i];
      if d.kind.AgentQuarantined? && d.kind.legitimate && d.kind.agent !in first {
        first := first[d.kind.agent := d.tick];
      }
    }
    assert log[..|log|] == log;
  }

  function Sum(s: seq<int>): int {
    if |s| == 0 then 0 else Sum(s[..|s| - 1]) + s[|s| - 1]
  }

  /** None, not zero, when there is nothing to average. */
  function MeanOf(s: seq<int>): Option<real> {
    if |s| == 0 then None else Some(Sum(s) as real / |s| as real)
  }

  lemma {:induction false} SumBounds(s: seq<int>, low: int, high: int)
    requires forall i | 0 <= i < |s| :: low <= s[i] <= high
    ensures |s| * low <= Sum(s) <= |s| * high
  {
    if |s| > 0 {
      SumBounds(s[..|s| - 1], low, high);
      assert |s| * low == (|s| - 1) * low + low;
      assert |s| * high == (|s| - 1) * high + high;
    }
  }

  lemma Divided(total: int, n: nat, low: int, high: int)
    requires n > 0 && n * low <= total <= n * high
    ensures low as real <= total as real / n as real <= high as real
  {
    assert (n * low) as real == n as real * low as real;
    assert (n * high) as real == n as real * high as real;
  }

  /** A mean lies between any bounds on its items. */
  lemma MeanBounds(s: seq<int>, low: int, high: int)
    requires forall i | 0 <= i < |s| :: low <= s[i] <= high
    ensures MeanOf(s).Some? ==> low as real <= MeanOf(s).value <= high as real
  {
    if |s| > 0 {
      SumBounds(s, low, high);
      Divided(Sum(s), |s|, low, high);
    }
  }

  /** Ticks from compromise to first detection, for the agents of a prefix that have both. */
  function DetectionDelays(w: World, log: seq<Draft>, ids: seq<AgentId>): seq<int>
    requires forall a | a in ids :: a in w.nodes
  {
    if |ids| == 0 then [] else
      var a := ids[|ids| - 1];
      assert a in ids;
      var t := FirstDetected(log, a);
      DetectionDelays(w, log, ids[..|ids| - 1]) +
      if w.nodes[a].tickCompromised.Some? && t.Some? then [t.value - w.nodes[a].tickCompromised.value] else []
  }

  /** Ticks from first detection to first legitimate quarantine. */
  function ContainmentDelays(log: seq<Draft>, ids: seq<AgentId>): seq<int> {
    if |ids| == 0 then [] else
      var a := ids[|ids| - 1];
      var d, q := FirstDetected(log, a), FirstQuarantined(log, a);
      ContainmentDelays(log, ids[..|ids| - 1]) + if d.Some? && q.Some? then [q.value - d.value] else []
  }

  // --- what the latencies average ------------------------------------------------------------------

  /** Event i is the first of its kind. */
  ghost predicate FirstAt(log: seq<Draft>, kind: DraftKind, i: int) {
    0 <= i < |log| && log[i].kind == kind && forall j | 0 <= j < i :: log[j].kind != kind
  }

  ghost predicate Occurs(log: seq<Draft>, kind: DraftKind) { exists i :: FirstAt(log, kind, i) }

  function Added(s: seq<int>): int {
    if |s| == 0 then 0 else s[0] + Added(s[1..])
  }

  /** None for nothing, otherwise the number that, taken as often as there are items, makes their
      total. */
  ghost predicate Averages(mean: Option<real>, items: seq<int>) {
    && (mean == None <==> items == [])
    && (mean.Some? ==> mean.value * |items| as real == Added(items) as real)
  }

  /** The agents with a compromise tick and a detection, in id order, each with the ticks between
      the two. */
  ghost predicate Detections(w: World, log: seq<Draft>, ids: seq<AgentId>, delays: seq<int>) {
    && Ascending(ids) && |delays| == |ids|
    && (forall a :: a in ids <==> a in w.nodes && w.nodes[a].tickCompromised.Some? && Occurs(log, AnomalyDetected(a)))
    && (forall k, i | 0 <= k < |ids| && FirstAt(log, AnomalyDetected(ids[k]), i) ::
          ids[k] in w.nodes && w.nodes[ids[k]].tickCompromised.Some? && delays[k] == log[i].tick - w.nodes[ids[k]].tickCompromised.value)
  }

  /** The agents with a detection and a quarantine that is not a false one, in id order, each with
      the ticks between the two. */
  ghost predicate Containments(log: seq<Draft>, ids: seq<AgentId>, delays: seq<int>) {
    && Ascending(ids) && |delays| == |ids|
    && (forall a :: a in ids <==>
          Occurs(log, AnomalyDetected(a)) && Occurs(log, AgentQuarantined(a, true)))
    && (forall k, i, j | 0 <= k < |ids| && FirstAt(log, AnomalyDetected(ids[k]), i) && FirstAt(log, AgentQuarantined(ids[k], true), j) ::
          delays[k] == log[j].tick - log[i].tick)
  }

  lemma FirstOnce(log: seq<Draft>, kind: DraftKind, i: int, j: int)
    requires FirstAt(log, kind, i) && FirstAt(log, kind, j)
    ensures i == j
  {
  }

  lemma FirstKept(log: seq<Draft>, kind: DraftKind, i: int)
    requires |log| > 0
    ensures FirstAt(log[..|log| - 1], kind, i) <==> FirstAt(log, kind, i) && i < |log| - 1
  {
  }

  lemma {:induction false} FirstDetectedIs(log: seq<Draft>, a: AgentId)
    ensures forall t :: FirstDetected(log, a) == Some(t) <==> exists i :: FirstAt(log, AnomalyDetected(a), i) && log[i].tick == t
    ensures FirstDetected(log, a) == None <==> !Occurs(log, AnomalyDetected(a))
  {
    if |log| > 0 {
      var n := |log| - 1;
      FirstDetectedIs(log[..n], a);
      forall i ensures FirstAt(log[..n], AnomalyDetected(a), i) <==> FirstAt(log, AnomalyDetected(a), i) && i < n { FirstKept(log, AnomalyDetected(a), i); }
      FirstInNext(log, AnomalyDetected(a));
      forall i, j | FirstAt(log, AnomalyDetected(a), i) && FirstAt(log, AnomalyDetected(a), j) ensures i == j { FirstOnce(log, AnomalyDetected(a), i, j); }
    }
  }

  lemma {:induction false} FirstQuarantinedIs(log: seq<Draft>, a: AgentId)
    ensures forall t :: FirstQuarantined(log, a) == Some(t) <==> exists i :: FirstAt(log, AgentQuarantined(a, true), i) && log[i].tick == t
    ensures FirstQuarantined(log, a) == None <==> !Occurs(log, AgentQuarantined(a, true))
  {
    if |log| > 0 {
      var n := |log| - 1;
      FirstQuarantinedIs(log[..n], a);
      forall i ensures FirstAt(log[..n], AgentQuarantined(a, true), i) <==> FirstAt(log, AgentQuarantined(a, true), i) && i < n { FirstKept(log, AgentQuarantined(a, true), i); }
      FirstInNext(log, AgentQuarantined(a, true));
      forall i, j | FirstAt(log, AgentQuarantined(a, true), i) && FirstAt(log, AgentQuarantined(a, true), j) ensures i == j { FirstOnce(log, AgentQuarantined(a, true), i, j); }
    }
  }

  /** The last event is the first of a kind exactly when no earlier one is of it. */
  lemma {:induction false} FirstInNext(log: seq<Draft>, kind: DraftKind)
    requires |log| > 0
    ensures FirstAt(log, kind, |log| - 1) <==> log[|log| - 1].kind == kind && !Occurs(log[..|log| - 1], kind)
  {
    var n := |log| - 1;
    if log[n].kind == kind && !Occurs(log[..n], kind) {
      NoneBefore(log[..n], kind);
    }
    if FirstAt(log, kind, n) {
      forall i ensures !FirstAt(log[..n], kind, i) {}
    }
  }

  lemma {:induction false} NoneBefore(log: seq<Draft>, kind: DraftKind)
    requires !Occurs(log, kind)
    ensures forall j | 0 <= j < |log| :: log[j].kind != kind
  {
    if |log| > 0 {
      var n := |log| - 1;
      forall i ensures !FirstAt(log[..n], kind, i) { FirstKept(log, kind, i); }
      NoneBefore(log[..n], kind);
      assert !FirstAt(log, kind, n);
      forall j | 0 <= j < n ensures log[j].kind != kind { assert log[..n][j].kind != kind; }
    }
  }

  lemma {:induction false} AddedLast(s: seq<int>, x: int)
    ensures Added(s + [x]) == Added(s) + x
  {
    if |s| > 0 {
      AddedLast(s[1..], x);
      assert (s + [x])[1..] == s[1..] + [x];
    }
  }

  lemma {:induction false} SumIsAdded(s: seq<int>)
    ensures Sum(s) == Added(s)
  {
    if |s| > 0 {
      SumIsAdded(s[..|s| - 1]);
      AddedLast(s[..|s| - 1], s[|s| - 1]);
      assert s == s[..|s| - 1] + [s[|s| - 1]];
    }
  }

  lemma MeanIs(s: seq<int>)
    ensures Averages(MeanOf(s), s)
  {
    SumIsAdded(s);
  }

  /** The agents of a prefix whose delay is counted. */
  lemma {:induction false} DetectionDelaysAre(w: World, log: seq<Draft>, ids: seq<AgentId>) returns (counted: seq<AgentId>)
    requires Ascending(ids) && forall a | a in ids :: a in w.nodes
    ensures Ascending(counted) && |DetectionDelays(w, log, ids)| == |counted|
    ensures forall a :: a in counted <==> a in ids && w.nodes[a].tickCompromised.Some? && FirstDetected(log, a).Some?
    ensures forall k | 0 <= k < |counted| ::
      && counted[k] in w.nodes && w.nodes[counted[k]].tickCompromised.Some? && FirstDetected(log, counted[k]).Some?
      && DetectionDelays(w, log, ids)[k] == FirstDetected(log, counted[k]).value - w.nodes[counted[k]].tickCompromised.value
  {
    hide FirstDetected;
    counted := [];
    if |ids| > 0 {
      var earlier, a := ids[..|ids| - 1], ids[|ids| - 1];
      assert ids == earlier + [a];
      AscendingLast(earlier, a);
      counted := DetectionDelaysAre(w, log, earlier);
      if w.nodes[a].tickCompromised.Some? && FirstDetected(log, a).Some? {
        AscendingMore(counted, a);
        counted := counted + [a];
      }
    }
  }

  lemma {:induction false} ContainmentDelaysAre(log: seq<Draft>, ids: seq<AgentId>) returns (counted: seq<AgentId>)
    requires Ascending(ids)
    ensures Ascending(counted) && |ContainmentDelays(log, ids)| == |counted|
    ensures forall a :: a in counted <==> a in ids && FirstDetected(log, a).Some? && FirstQuarantined(log, a).Some?
    ensures forall k | 0 <= k < |counted| ::
      && FirstDetected(log, counted[k]).Some? && FirstQuarantined(log, counted[k]).Some?
      && ContainmentDelays(log, ids)[k] == FirstQuarantined(log, counted[k]).value - FirstDetected(log, counted[k]).value
  {
    hide FirstDetected, FirstQuarantined;
    counted := [];
    if |ids| > 0 {
      var earlier, a := ids[..|ids| - 1], ids[|ids| - 1];
      assert ids == earlier + [a];
      AscendingLast(earlier, a);
      counted := ContainmentDelaysAre(log, earlier);
      if FirstDetected(log, a).Some? && FirstQuarantined(log, a).Some? {
        AscendingMore(counted, a);
        counted := counted + [a];
      }
    }
  }

  lemma FirstDetectedAt(log: seq<Draft>, a: AgentId, i: int)
    requires FirstAt(log, AnomalyDetected(a), i)
    ensures 0 <= i < |log| && FirstDetected(log, a) == Some(log[i].tick)
  {
    FirstDetectedIs(log, a);
  }

  lemma FirstQuarantinedAt(log: seq<Draft>, a: AgentId, i: int)
    requires FirstAt(log, AgentQuarantined(a, true), i)
    ensures 0 <= i < |log| && FirstQuarantined(log, a) == Some(log[i].tick)
  {
    FirstQuarantinedIs(log, a);
  }

  lemma DetectionsOf(w: World, log: seq<Draft>) returns (ids: seq<AgentId>)
    ensures Detections(w, log, ids, DetectionDelays(w, log, Sorted(w.nodes.Keys)))
  {
    hide FirstDetected, FirstAt, Sorted, DetectionDelays, Occurs;
    var all := Sorted(w.nodes.Keys);
    ids := DetectionDelaysAre(w, log, all);
    forall a ensures FirstDetected(log, a).Some? <==> Occurs(log, AnomalyDetected(a)) { FirstDetectedIs(log, a); }
    var delays := DetectionDelays(w, log, all);
    forall k, i | 0 <= k < |ids| && FirstAt(log, AnomalyDetected(ids[k]), i)
      ensures 0 <= i < |log| && delays[k] == log[i].tick - w.nodes[ids[k]].tickCompromised.value
    {
      FirstDetectedAt(log, ids[k], i);
    }
  }

  lemma DetectionMean(w: World, log: seq<Draft>)
    ensures exists ids, delays :: Detections(w, log, ids, delays) && Averages(MeanOf(DetectionDelays(w, log, Sorted(w.nodes.Keys))), delays)
  {
    hide Detections, MeanOf, Sorted, Averages, DetectionDelays;
    var ids := DetectionsOf(w, log);
    MeanIs(DetectionDelays(w, log, Sorted(w.nodes.Keys)));
  }

  lemma ContainmentsOf(log: seq<Draft>, order: seq<AgentId>) returns (ids: seq<AgentId>)
    requires Contained(log, order)
    ensures Containments(log, ids, ContainmentDelays(log, order))
  {
    hide FirstDetected, FirstQuarantined, FirstAt, ContainmentDelays, Occurs;
    ids := ContainmentDelaysAre(log, order);
    forall a ensures FirstDetected(log, a).Some? <==> Occurs(log, AnomalyDetected(a)) { FirstDetectedIs(log, a); }
    forall a ensures FirstQuarantined(log, a).Some? <==> Occurs(log, AgentQuarantined(a, true)) { FirstQuarantinedIs(log, a); }
    var delays := ContainmentDelays(log, order);
    forall k, i, j | 0 <= k < |ids| && FirstAt(log, AnomalyDetected(ids[k]), i) && FirstAt(log, AgentQuarantined(ids[k], true), j)
      ensures 0 <= i < |log| && 0 <= j < |log| && delays[k] == log[j].tick - log[i].tick
    {
      FirstDetectedAt(log, ids[k], i);
      FirstQuarantinedAt(log, ids[k], j);
    }
  }

  lemma ContainmentMean(log: seq<Draft>, order: seq<AgentId>)
    requires Contained(log, order)
    ensures exists ids, delays :: Containments(log, ids, delays) && Averages(MeanOf(ContainmentDelays(log, order)), delays)
  {
    hide Containments, Contained, MeanOf, Averages, ContainmentDelays;
    var ids := ContainmentsOf(log, order);
    MeanIs(ContainmentDelays(log, order));
  }

  method DetectionLatency(w: World, log: seq<Draft>) returns (mean: Option<real>)
    ensures mean == MeanOf(DetectionDelays(w, log, Sorted(w.nodes.Keys)))
    ensures exists ids, delays :: Detections(w, log, ids, delays) && Averages(mean, delays)
  {
    hide Detections, Averages, MeanOf, FirstDetected, Sorted;
    DetectionMean(w, log);
    var first := CollectDetected(log);
    var ids := Sorted(w.nodes.Keys);
    var delays := DelaysFrom(w, log, ids, first);
    mean := MeanOf(delays);
  }

  method DelaysFrom(w: World, ghost log: seq<Draft>, ids: seq<AgentId>, first: map<AgentId, nat>) returns (delays: seq<int>)
    requires forall a | a in ids :: a in w.nodes
    requires forall a :: FirstDetected(log, a) == Get(first, a)
    ensures delays == DetectionDelays(w, log, ids)
  {
    delays := [];
    for i := 0 to |ids|
      invariant delays == DetectionDelays(w, log, ids[..i])
    {
      var a := ids[i];
      assert a in ids && ids[..i + 1][..i] == ids[..i];
      assert FirstDetected(log, a) == Get(first, a);
      if w.nodes[a].tickCompromised.Some? && a in first {
        delays := delays + [first[a] - w.nodes[a].tickCompromised.value];
      }
    }
    assert ids[..|ids|] == ids;
  }

  /** The agents with a legitimate quarantine, in id order. */
  ghost predicate Contained(log: seq<Draft>, ids: seq<AgentId>) {
    Ascending(ids) && forall a :: FirstQuarantined(log, a).Some? <==> a in ids
  }

  method ContainmentLatency(log: seq<Draft>) returns (mean: Option<real>)
    ensures exists ids :: Contained(log, ids) && mean == MeanOf(ContainmentDelays(log, ids))
    ensures exists ids, delays :: Containments(log, ids, delays) && Averages(mean, delays)
  {
    hide Containments, Averages, MeanOf, FirstDetected, FirstQuarantined;
    var firstDetected := CollectDetected(log);
    var firstQuarantined := CollectQuarantined(log);
    var order := Sorted(firstQuarantined.Keys);
    forall a ensures FirstQuarantined(log, a).Some? <==> a in order {
      assert FirstQuarantined(log, a) == Get(firstQuarantined, a);
    }
    assert Contained(log, order);
    var delays := ContainmentFrom(log, order, firstDetected, firstQuarantined);
    mean := MeanOf(delays);
    ContainmentMean(log, order);
  }

  method ContainmentFrom(ghost log: seq<Draft>, ids: seq<AgentId>, detected: map<AgentId, nat>, quarantined: map<AgentId, nat>)
    returns (delays: seq<int>)
    requires forall a | a in ids :: a in quarantined
    requires forall a :: FirstDetected(log, a) == Get(detected, a)
    requires forall a :: FirstQuarantined(log, a) == Get(quarantined, a)
    ensures delays == ContainmentDelays(log, ids)
  {
    delays := [];
    for i := 0 to |ids|
      invariant delays == ContainmentDelays(log, ids[..i])
    {
      var a := ids[i];
      assert a in ids && ids[..i + 1][..i] == ids[..i];
      assert FirstDetected(log, a) == Get(detected, a) && FirstQuarantined(log, a) == Get(quarantined, a);
      if a in detected {
        delays := delays + [quarantined[a] as int - detected[a] as int];
      }
    }
    assert ids[..|ids|] == ids;
  }
}
