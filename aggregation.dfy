/**
 * The commute aggregation that the page re-runs whenever the marker list changes
 * (the effect at hosting/src/App.js:39-82).
 *
 * The network round trip of each request is replaced by an abstract `duration`
 * function, and the order in which the requests settle is a parameter: a permutation
 * `schedule` of the request indices. The callbacks then run one after another in that
 * order, as JavaScript's single thread runs them.
 */
module Aggregation {

  import opened Wrappers
  import opened Markers

  /** The one-way travel time, in whole seconds, that the distance service reports
      for a pair of positions. */
  type Duration = (Position, Position) -> nat

  /** One request of the fan-out. Its callback closes over the home's index among the
      homes, the home and the destination. */
  datatype Request = Request(originIndex: nat, origin: Marker, dest: Marker)

  /** One entry of the published result. `commuteTime` is `None` where the source's slot
      is still `undefined`: for a home when there are no destinations. */
  datatype Commute = Commute(address: string, commuteTime: Option<int>)

  /** What one settled request adds to its home: a round trip, `numDrive` times a week. */
  function Contribution(r: Request, duration: Duration): (c: int)
    ensures c % 2 == 0
    ensures r.dest.numDrive == 0 ==> c == 0
    ensures r.dest.numDrive >= 0 ==> c >= 0
  {
    var seconds, visits := duration(r.origin.position, r.dest.position), r.dest.numDrive;
    assert seconds * 2 * visits == 2 * (seconds * visits);
    assert visits >= 0 ==> seconds * visits >= 0;
    seconds * 2 * visits
  }

  // ---------------------------------------------------------------------------
  // Reference definition of the result
  // ---------------------------------------------------------------------------

  /** A home's weekly commute in seconds: the round trips to every destination, weighted
      by the destination's visits per week, summed from 0. */
  function CommuteTime(home: Marker, dests: seq<Marker>, duration: Duration): int
  {
    if dests == [] then 0
    else
      var d := dests[|dests| - 1];
      CommuteTime(home, dests[..|dests| - 1], duration) + duration(home.position, d.position) * 2 * d.numDrive
  }

  /** The result the aggregation should publish: one entry per home, in the order of the
      homes in the list, with no total at all when there is no destination. */
  function Expected(markers: seq<Marker>, duration: Duration): (result: seq<Commute>)
    ensures |result| == |Homes(markers)|
    ensures forall i :: 0 <= i < |result| ==>
      && result[i].address == Homes(markers)[i].address
      && (result[i].commuteTime.Some? <==> Destinations(markers) != [])
  {
    var homes, dests := Homes(markers), Destinations(markers);
    seq(|homes|, i requires 0 <= i < |homes| =>
      Commute(homes[i].address, if dests == [] then None else Some(CommuteTime(homes[i], dests, duration))))
  }

  /** While the page's invariant holds, no commute is negative. */
  lemma {:induction false} CommuteTimeNonNegative(home: Marker, dests: seq<Marker>, duration: Duration)
    requires WellFormed(dests)
    ensures CommuteTime(home, dests, duration) >= 0
  {
    if dests != [] {
      var n := |dests| - 1;
      assert dests[n] in dests;
      assert WellFormed(dests[..n]) by {
        forall m | m in dests[..n] ensures m in dests { }
      }
      CommuteTimeNonNegative(home, dests[..n], duration);
    }
  }

  /** While the page's invariant holds, every published total is non-negative. */
  lemma ExpectedNonNegative(markers: seq<Marker>, duration: Duration)
    requires WellFormed(markers)
    ensures forall c :: c in Expected(markers, duration) && c.commuteTime.Some? ==> c.commuteTime.value >= 0
  {
    var homes, dests := Homes(markers), Destinations(markers);
    PartitionAccountsForAll(markers);
    assert WellFormed(dests) by {
      forall m | m in dests ensures m in markers {
        assert m in multiset(dests);
        assert m in multiset(markers);
      }
    }
    forall i | 0 <= i < |homes| {
      CommuteTimeNonNegative(homes[i], dests, duration);
    }
  }

  // ---------------------------------------------------------------------------
  // The fan-out: one request per (home, destination) pair
  // ---------------------------------------------------------------------------

  /** The requests issued for the home at index `originIndex`, in destination order. */
  function Row(originIndex: nat, home: Marker, dests: seq<Marker>): (row: seq<Request>)
    ensures |row| == |dests|
  {
    seq(|dests|, j requires 0 <= j < |dests| => Request(originIndex, home, dests[j]))
  }

  /** The requests the two nested `forEach` loops push, home by home. */
  function Grid(homes: seq<Marker>, dests: seq<Marker>): seq<Request>
  {
    if homes == [] then []
    else Grid(homes[..|homes| - 1], dests) + Row(|homes| - 1, homes[|homes| - 1], dests)
  }

  /** The fan-out issues `|homes| * |dests|` requests, each for the home its index names. */
  lemma {:induction false} GridShape(homes: seq<Marker>, dests: seq<Marker>)
    ensures |Grid(homes, dests)| == |homes| * |dests|
    ensures forall r :: r in Grid(homes, dests) ==> r.originIndex < |homes| && r.origin == homes[r.originIndex]
  {
    if homes != [] {
      var n := |homes| - 1;
      GridShape(homes[..n], dests);
      assert |homes| * |dests| == n * |dests| + |dests|;
      forall r | r in Grid(homes, dests)
        ensures r.originIndex < |homes| && r.origin == homes[r.originIndex]
      {
        if r in Grid(homes[..n], dests) {
          assert homes[..n][r.originIndex] == homes[r.originIndex];
        } else {
          assert r in Row(n, homes[n], dests);
        }
      }
    }
  }

  /** The request at position `i * |dests| + j` is the one for home `i` and destination
      `j`: every pair is asked for, exactly once. */
  lemma {:induction false} GridAt(homes: seq<Marker>, dests: seq<Marker>, i: nat, j: nat)
    requires i < |homes| && j < |dests|
    ensures i * |dests| + j < |Grid(homes, dests)|
    ensures Grid(homes, dests)[i * |dests| + j] == Request(i, homes[i], dests[j])
  {
    var n := |homes| - 1;
    GridShape(homes[..n], dests);
    GridShape(homes, dests);
    if i < n {
      GridAt(homes[..n], dests, i, j);
      assert i * |dests| + j < n * |dests| by {
        assert (i + 1) * |dests| <= n * |dests|;
      }
    } else {
      assert i * |dests| + j == |Grid(homes[..n], dests)| + j;
    }
  }

  // ---------------------------------------------------------------------------
  // The fan-in: each callback updates its home's slot
  // ---------------------------------------------------------------------------

  /** The number a slot stands for when it is added to: nothing written counts as 0. */
  function SlotValue(slot: Option<int>): int
  {
    if slot.Some? then slot.value else 0
  }

  /** The callback's update (App.js:64-69): a falsy slot, one never written or one
      holding 0, is overwritten; any other is added to. Either way the slot ends up
      holding what adding to a slot that started at 0 would give. */
  function Settle(slot: Option<int>, contribution: int): (r: Option<int>)
    ensures r == Some(SlotValue(slot) + contribution)
  {
    if slot.Some? && slot.value != 0 then Some(slot.value + contribution) else Some(contribution)
  }

  /** The slot of home `o` after the requests in `settled` have settled, in that order. */
  function Settled(settled: seq<Request>, o: nat, duration: Duration): Option<int>
  {
    if settled == [] then None
    else
      var last := settled[|settled| - 1];
      var slot := Settled(settled[..|settled| - 1], o, duration);
      if last.originIndex == o then Settle(slot, Contribution(last, duration)) else slot
  }

  /** Settling one more request changes only its own home's slot. */
  lemma SettledStep(settled: seq<Request>, r: Request, o: nat, duration: Duration)
    ensures Settled(settled + [r], o, duration) ==
      if r.originIndex == o then Settle(Settled(settled, o, duration), Contribution(r, duration))
      else Settled(settled, o, duration)
  {
  }

  /** Sum of the contributions in `rs` that belong to home `o`. */
  function Total(rs: seq<Request>, o: nat, duration: Duration): int
  {
    if rs == [] then 0
    else
      var last := rs[|rs| - 1];
      Total(rs[..|rs| - 1], o, duration) + (if last.originIndex == o then Contribution(last, duration) else 0)
  }

  /** Number of requests in `rs` that belong to home `o`. */
  function Count(rs: seq<Request>, o: nat): nat
  {
    if rs == [] then 0
    else Count(rs[..|rs| - 1], o) + (if rs[|rs| - 1].originIndex == o then 1 else 0)
  }

  /** "Set on first, add afterwards" gives a plain sum from 0: the slot stays unwritten
      while none of the home's requests has settled, and afterwards holds their sum. */
  lemma {:induction false} SettledIsSum(settled: seq<Request>, o: nat, duration: Duration)
    ensures Settled(settled, o, duration) ==
      if Count(settled, o) == 0 then None else Some(Total(settled, o, duration))
    ensures Count(settled, o) == 0 ==> Total(settled, o, duration) == 0
  {
    if settled != [] {
      SettledIsSum(settled[..|settled| - 1], o, duration);
    }
  }

  lemma {:induction false} TotalAppend(xs: seq<Request>, ys: seq<Request>, o: nat, duration: Duration)
    ensures Total(xs + ys, o, duration) == Total(xs, o, duration) + Total(ys, o, duration)
    ensures Count(xs + ys, o) == Count(xs, o) + Count(ys, o)
    decreases |ys|
  {
    if ys == [] {
      assert xs + ys == xs;
    } else {
      assert (xs + ys)[..|xs + ys| - 1] == xs + ys[..|ys| - 1];
      TotalAppend(xs, ys[..|ys| - 1], o, duration);
    }
  }

  /** The order in which the requests settle does not matter: any permutation of the
      requests gives the same sum and the same count for every home. */
  lemma {:induction false} TotalPermutation(xs: seq<Request>, ys: seq<Request>, o: nat, duration: Duration)
    requires multiset(xs) == multiset(ys)
    ensures Total(xs, o, duration) == Total(ys, o, duration)
    ensures Count(xs, o) == Count(ys, o)
    decreases |xs|
  {
    if xs == [] {
      assert |ys| == |multiset(ys)| == 0;
    } else {
      var n := |xs| - 1;
      var x := xs[n];
      assert xs == xs[..n] + [x];
      assert x in multiset(ys);
      var i :| 0 <= i < |ys| && ys[i] == x;
      assert ys == ys[..i] + [x] + ys[i + 1..];
      var rest := ys[..i] + ys[i + 1..];
      assert multiset(xs) == multiset(xs[..n]) + multiset{x};
      assert multiset(ys) == multiset(ys[..i]) + multiset{x} + multiset(ys[i + 1..]);
      assert multiset(rest) == multiset(ys[..i]) + multiset(ys[i + 1..]);
      assert multiset(xs[..n]) == multiset(xs) - multiset{x};
      assert multiset(rest) == multiset(ys) - multiset{x};
      TotalPermutation(xs[..n], rest, o, duration);
      TotalAppend(ys[..i] + [x], ys[i + 1..], o, duration);
      TotalAppend(ys[..i], [x], o, duration);
      TotalAppend(ys[..i], ys[i + 1..], o, duration);
      assert [x][..0] == [];
    }
  }

  /** Taken over the whole fan-out, a home's requests are one per destination and add up
      to its commute time; an index that names no home gets nothing. */
  lemma {:induction false} RowTotal(originIndex: nat, home: Marker, dests: seq<Marker>, o: nat, duration: Duration)
    ensures Total(Row(originIndex, home, dests), o, duration) ==
      if originIndex == o then CommuteTime(home, dests, duration) else 0
    ensures Count(Row(originIndex, home, dests), o) == if originIndex == o then |dests| else 0
  {
    if dests != [] {
      var n := |dests| - 1;
      assert Row(originIndex, home, dests)[..n] == Row(originIndex, home, dests[..n]);
      RowTotal(originIndex, home, dests[..n], o, duration);
    }
  }

  lemma {:induction false} GridTotal(homes: seq<Marker>, dests: seq<Marker>, o: nat, duration: Duration)
    ensures Total(Grid(homes, dests), o, duration) ==
      if o < |homes| then CommuteTime(homes[o], dests, duration) else 0
    ensures Count(Grid(homes, dests), o) == if o < |homes| then |dests| else 0
  {
    if homes != [] {
      var n := |homes| - 1;
      GridTotal(homes[..n], dests, o, duration);
      TotalAppend(Grid(homes[..n], dests), Row(n, homes[n], dests), o, duration);
      RowTotal(n, homes[n], dests, o, duration);
    }
  }

  // ---------------------------------------------------------------------------
  // Completion orders
  // ---------------------------------------------------------------------------

  /** The indices `0 .. n - 1` in increasing order. */
  function Range(n: nat): (r: seq<nat>)
    ensures |r| == n && forall i :: 0 <= i < n ==> r[i] == i
  {
    seq(n, i requires 0 <= i < n => i)
  }

  /** The requests of `calls` in the order their indices appear in `schedule` (an index
      that names no request contributes nothing). */
  function Completed(calls: seq<Request>, schedule: seq<nat>): (rs: seq<Request>)
    ensures |rs| <= |schedule|
  {
    if schedule == [] then []
    else
      var n := |schedule| - 1;
      Completed(calls, schedule[..n]) + (if schedule[n] < |calls| then [calls[schedule[n]]] else [])
  }

  /** A schedule that is a permutation of the indices names every index exactly once. */
  lemma ScheduleInRange(schedule: seq<nat>, n: nat)
    requires multiset(schedule) == multiset(Range(n))
    ensures forall k :: 0 <= k < |schedule| ==> schedule[k] < n
  {
    forall k | 0 <= k < |schedule|
      ensures schedule[k] < n
    {
      assert schedule[k] in multiset(schedule);
      assert schedule[k] in Range(n);
    }
  }

  lemma {:induction false} CompletedAppend(calls: seq<Request>, p: seq<nat>, q: seq<nat>)
    ensures Completed(calls, p + q) == Completed(calls, p) + Completed(calls, q)
    decreases |q|
  {
    if q == [] {
      assert p + q == p;
    } else {
      var n := |q| - 1;
      assert (p + q)[..|p + q| - 1] == p + q[..n];
      CompletedAppend(calls, p, q[..n]);
    }
  }

  /** Settling in issue order settles exactly the issued requests. */
  lemma {:induction false} CompletedInOrder(calls: seq<Request>)
    ensures Completed(calls, Range(|calls|)) == calls
  {
    if calls != [] {
      var n := |calls| - 1;
      assert Range(|calls|)[..n] == Range(n);
      CompletedInOrder(calls[..n]);
      CompletedPrefix(calls[..n], calls, Range(n));
      assert calls == calls[..n] + [calls[n]];
    }
  }

  /** Indices below `|prefix|` name the same requests in `prefix` as in `calls`. */
  lemma {:induction false} CompletedPrefix(prefix: seq<Request>, calls: seq<Request>, s: seq<nat>)
    requires prefix <= calls
    requires forall k :: 0 <= k < |s| ==> s[k] < |prefix|
    ensures Completed(prefix, s) == Completed(calls, s)
  {
    if s != [] {
      CompletedPrefix(prefix, calls, s[..|s| - 1]);
    }
  }

  /** Removing the element at `i` removes one copy of it from the multiset. */
  lemma RemoveAt<T>(s: seq<T>, i: nat)
    requires i < |s|
    ensures s == s[..i] + [s[i]] + s[i + 1..]
    ensures multiset(s[..i] + s[i + 1..]) == multiset(s) - multiset{s[i]}
  {
  }

  /** Permuting the indices permutes the requests. */
  lemma {:induction false} CompletedPermutation(calls: seq<Request>, a: seq<nat>, b: seq<nat>)
    requires multiset(a) == multiset(b)
    ensures multiset(Completed(calls, a)) == multiset(Completed(calls, b))
    decreases |a|
  {
    if a == [] {
      assert |b| == |multiset(b)| == 0;
    } else {
      var n := |a| - 1;
      var x := a[n];
      assert x in multiset(b);
      var i :| 0 <= i < |b| && b[i] == x;
      RemoveAt(a, n);
      RemoveAt(b, i);
      assert a[..n] + [x] + a[n + 1..] == a[..n] + [x];
      var rest := b[..i] + b[i + 1..];
      CompletedAppend(calls, a[..n], [x]);
      CompletedAppend(calls, b[..i], [x]);
      CompletedAppend(calls, b[..i] + [x], b[i + 1..]);
      CompletedAppend(calls, b[..i], b[i + 1..]);
      CompletedPermutation(calls, a[..n], rest);
      assert [x][..0] == [];
    }
  }

  // ---------------------------------------------------------------------------
  // The aggregation
  // ---------------------------------------------------------------------------

  /** Whatever order the requests settle in, a home's slot ends up holding the reference
      total: the weighted sum over all destinations, or nothing if there are none. */
  lemma AnyScheduleGivesExpected(markers: seq<Marker>, duration: Duration, schedule: seq<nat>, o: nat)
    requires multiset(schedule) == multiset(Range(|Grid(Homes(markers), Destinations(markers))|))
    requires o < |Homes(markers)|
    ensures forall k :: 0 <= k < |schedule| ==> schedule[k] < |Grid(Homes(markers), Destinations(markers))|
    ensures Settled(Completed(Grid(Homes(markers), Destinations(markers)), schedule), o, duration) ==
      Expected(markers, duration)[o].commuteTime
  {
    var calls := Grid(Homes(markers), Destinations(markers));
    ScheduleInRange(schedule, |calls|);
    var settled := Completed(calls, schedule);
    SettledIsSum(settled, o, duration);
    CompletedPermutation(calls, schedule, Range(|calls|));
    CompletedInOrder(calls);
    TotalPermutation(settled, calls, o, duration);
    GridTotal(Homes(markers), Destinations(markers), o, duration);
  }

  /** The slots as the callbacks leave them hold, with each home's address, the
      reference result. */
  lemma ResultFromSlots(markers: seq<Marker>, duration: Duration, schedule: seq<nat>, slots: seq<Option<int>>)
    requires multiset(schedule) == multiset(Range(|Grid(Homes(markers), Destinations(markers))|))
    requires |slots| == |Homes(markers)|
    requires forall o :: 0 <= o < |slots| ==>
      slots[o] == Settled(Completed(Grid(Homes(markers), Destinations(markers)), schedule), o, duration)
    ensures |Expected(markers, duration)| == |slots|
    ensures forall o :: 0 <= o < |slots| ==>
      Expected(markers, duration)[o] == Commute(Homes(markers)[o].address, slots[o])
  {
    forall o | 0 <= o < |slots|
      ensures Expected(markers, duration)[o] == Commute(Homes(markers)[o].address, slots[o])
    {
      AnyScheduleGivesExpected(markers, duration, schedule, o);
    }
  }

  /** The two nested `forEach` loops: one request per (home, destination) pair, pushed
      home by home and, within a home, destination by destination. */
  method IssueRequests(origins: seq<Marker>, destinations: seq<Marker>) returns (calls: seq<Request>)
    ensures calls == Grid(origins, destinations)
    ensures |calls| == |origins| * |destinations|
    ensures forall r :: r in calls ==> r.originIndex < |origins| && r.origin == origins[r.originIndex]
  {
    calls := [];
    for originIndex := 0 to |origins|
      invariant calls == Grid(origins[..originIndex], destinations)
    {
      for index := 0 to |destinations|
        invariant calls == Grid(origins[..originIndex], destinations) +
                           Row(originIndex, origins[originIndex], destinations[..index])
      {
        calls := calls + [Request(originIndex, origins[originIndex], destinations[index])];
        assert Row(originIndex, origins[originIndex], destinations[..index + 1]) ==
               Row(originIndex, origins[originIndex], destinations[..index]) +
               [Request(originIndex, origins[originIndex], destinations[index])];
      }
      assert origins[..originIndex + 1][..originIndex] == origins[..originIndex];
      assert destinations[..|destinations|] == destinations;
    }
    assert origins[..|origins|] == origins;
    GridShape(origins, destinations);
  }

  /** The callbacks, run one after another in the order the requests settle:
      `schedule[k]` is the index in `calls` of the k-th request to settle. Each adds its
      request's contribution into the slot of the request's home. */
  method SettleResponses(calls: seq<Request>, schedule: seq<nat>, duration: Duration, driveTimes: array<Option<int>>)
    requires forall k :: 0 <= k < |schedule| ==> schedule[k] < |calls|
    requires forall r :: r in calls ==> r.originIndex < driveTimes.Length
    requires forall o :: 0 <= o < driveTimes.Length ==> driveTimes[o] == None
    modifies driveTimes
    ensures forall o :: 0 <= o < driveTimes.Length ==>
      driveTimes[o] == Settled(Completed(calls, schedule), o, duration)
  {
    var k := 0;
    while k < |schedule|
      invariant 0 <= k <= |schedule|
      invariant forall o :: 0 <= o < driveTimes.Length ==>
        driveTimes[o] == Settled(Completed(calls, schedule[..k]), o, duration)
    {
      var call := calls[schedule[k]];
      assert call in calls;
      ghost var before := Completed(calls, schedule[..k]);
      assert schedule[..k + 1][..k] == schedule[..k];
      assert Completed(calls, schedule[..k + 1]) == before + [call];
      var originIndex := call.originIndex;
      var contribution := Contribution(call, duration);
      if driveTimes[originIndex].Some? && driveTimes[originIndex].value != 0 {
        driveTimes[originIndex] := Some(driveTimes[originIndex].value + contribution);
      } else {
        driveTimes[originIndex] := Some(contribution);
      }
      forall o | 0 <= o < driveTimes.Length
        ensures driveTimes[o] == Settled(before + [call], o, duration)
      {
        SettledStep(before, call, o, duration);
      }
      k := k + 1;
    }
    assert schedule[..|schedule|] == schedule;
  }

  /** The continuation of `Promise.all(calls)`: one entry per home, in home order, holding
      the home's address and whatever its slot holds. */
  method CollectCommutes(origins: seq<Marker>, driveTimes: array<Option<int>>) returns (commutes: seq<Commute>)
    requires driveTimes.Length == |origins|
    ensures |commutes| == |origins|
    ensures forall i :: 0 <= i < |origins| ==> commutes[i] == Commute(origins[i].address, driveTimes[i])
  {
    commutes := [];
    for index := 0 to |origins|
      invariant |commutes| == index
      invariant forall i :: 0 <= i < index ==> commutes[i] == Commute(origins[i].address, driveTimes[i])
    {
      commutes := commutes + [Commute(origins[index].address, driveTimes[index])];
    }
  }

  /**
   * One run of the effect. `calls` are the requests in the order they are issued;
   * `schedule[k]` is the index of the k-th request to settle. Whatever that order, the
   * result is the reference one: an entry per home, in order, holding the weighted sum
   * over all destinations, or nothing when there are no destinations.
   */
  method Aggregate(markers: seq<Marker>, duration: Duration, schedule: seq<nat>)
    returns (calls: seq<Request>, commutes: seq<Commute>)
    requires multiset(schedule) == multiset(Range(|Homes(markers)| * |Destinations(markers)|))
    ensures calls == Grid(Homes(markers), Destinations(markers))
    ensures |calls| == |Homes(markers)| * |Destinations(markers)|
    ensures commutes == Expected(markers, duration)
  {
    var origins := Homes(markers);
    var destinations := Destinations(markers);
    var driveTimes := new Option<int>[|origins|](_ => None);
    calls := IssueRequests(origins, destinations);
    ScheduleInRange(schedule, |calls|);

    // Fan-in: every request has settled before the entries are collected.
    SettleResponses(calls, schedule, duration, driveTimes);
    ghost var slots := driveTimes[..];
    ResultFromSlots(markers, duration, schedule, slots);

    commutes := CollectCommutes(origins, driveTimes);
  }
}
