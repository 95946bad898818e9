/**
 * The marker list the page keeps in its React state (hosting/src/App.js): the markers
 * themselves, the split into homes and destinations, the invariant the page's buttons
 * keep, and the event handlers that replace the list.
 */
module Markers {

  import opened Wrappers

  /** A map position. Its coordinates are only ever handed to the distance service,
      so the model treats a position as an opaque identifier. */
  datatype Position = Position(lat: real, lng: real)

  /** One marker of the list. `numDrive` is the weekly number of visits; it is a plain
      JavaScript number, so nothing in the type keeps it non-negative. */
  datatype Marker = Marker(position: Position, address: string, isHome: bool, numDrive: int)

  // ---------------------------------------------------------------------------
  // Homes and destinations
  // ---------------------------------------------------------------------------

  /** `markers.filter(marker => marker.isHome)` */
  function Homes(markers: seq<Marker>): (homes: seq<Marker>)
    ensures forall h :: h in homes ==> h.isHome
  {
    if markers == [] then []
    else (if markers[0].isHome then [markers[0]] else []) + Homes(markers[1..])
  }

  /** `markers.filter(marker => !marker.isHome)` */
  function Destinations(markers: seq<Marker>): (dests: seq<Marker>)
    ensures forall d :: d in dests ==> !d.isHome
  {
    if markers == [] then []
    else (if markers[0].isHome then [] else [markers[0]]) + Destinations(markers[1..])
  }

  /** `ms` is an order-preserving interleaving of `a` and `b`: every element of `ms` is taken,
      in turn, from the front of one of the two. So `a` and `b` are both subsequences of `ms`
      in its order, and together they use up each element of `ms` exactly once. */
  ghost predicate Interleaves(ms: seq<Marker>, a: seq<Marker>, b: seq<Marker>)
    decreases |ms|
  {
    if ms == [] then a == [] && b == []
    else
      (a != [] && a[0] == ms[0] && Interleaves(ms[1..], a[1..], b)) ||
      (b != [] && b[0] == ms[0] && Interleaves(ms[1..], a, b[1..]))
  }

  /** The two filters split the list into an interleaving of homes and destinations. */
  lemma {:induction false} PartitionInterleaves(markers: seq<Marker>)
    ensures Interleaves(markers, Homes(markers), Destinations(markers))
  {
    if markers != [] {
      var homes, dests := Homes(markers), Destinations(markers);
      PartitionInterleaves(markers[1..]);
      if markers[0].isHome {
        assert homes == [markers[0]] + Homes(markers[1..]);
        assert homes[1..] == Homes(markers[1..]);
        assert dests == Destinations(markers[1..]);
        assert homes != [] && homes[0] == markers[0] && Interleaves(markers[1..], homes[1..], dests);
      } else {
        assert dests == [markers[0]] + Destinations(markers[1..]);
        assert dests[1..] == Destinations(markers[1..]);
        assert homes == Homes(markers[1..]);
        assert dests != [] && dests[0] == markers[0] && Interleaves(markers[1..], homes, dests[1..]);
      }
    }
  }

  /** Conversely, the filters are the only way to split the list into an interleaving of
      a sequence of homes and a sequence of destinations. */
  lemma {:induction false} PartitionUnique(markers: seq<Marker>, a: seq<Marker>, b: seq<Marker>)
    requires Interleaves(markers, a, b)
    requires forall h :: h in a ==> h.isHome
    requires forall d :: d in b ==> !d.isHome
    ensures a == Homes(markers) && b == Destinations(markers)
  {
    if markers != [] {
      var m, rest := markers[0], markers[1..];
      if m.isHome {
        assert b != [] ==> !b[0].isHome by {
          if b != [] {
            assert b[0] in b;
          }
        }
        assert a != [] && a[0] == m && Interleaves(rest, a[1..], b);
        assert forall h :: h in a[1..] ==> h in a;
        PartitionUnique(rest, a[1..], b);
        assert Homes(markers) == [m] + Homes(rest);
        assert Destinations(markers) == [] + Destinations(rest);
        assert a == [a[0]] + a[1..];
      } else {
        assert a != [] ==> a[0].isHome by {
          if a != [] {
            assert a[0] in a;
          }
        }
        assert b != [] && b[0] == m && Interleaves(rest, a, b[1..]);
        assert forall d :: d in b[1..] ==> d in b;
        PartitionUnique(rest, a, b[1..]);
        assert Destinations(markers) == [m] + Destinations(rest);
        assert Homes(markers) == [] + Homes(rest);
        assert b == [b[0]] + b[1..];
      }
    }
  }

  /** An interleaving accounts for every element exactly once. */
  lemma {:induction false} InterleavesAccountsForAll(ms: seq<Marker>, a: seq<Marker>, b: seq<Marker>)
    requires Interleaves(ms, a, b)
    ensures multiset(a) + multiset(b) == multiset(ms)
    ensures |a| + |b| == |ms|
    decreases |ms|
  {
    if ms != [] {
      assert ms == [ms[0]] + ms[1..];
      if a != [] && a[0] == ms[0] && Interleaves(ms[1..], a[1..], b) {
        InterleavesAccountsForAll(ms[1..], a[1..], b);
        assert a == [a[0]] + a[1..];
      } else {
        InterleavesAccountsForAll(ms[1..], a, b[1..]);
        assert b == [b[0]] + b[1..];
      }
    }
  }

  /** Homes and destinations together are exactly the markers. */
  lemma PartitionAccountsForAll(markers: seq<Marker>)
    ensures multiset(Homes(markers)) + multiset(Destinations(markers)) == multiset(markers)
    ensures |Homes(markers)| + |Destinations(markers)| == |markers|
  {
    PartitionInterleaves(markers);
    InterleavesAccountsForAll(markers, Homes(markers), Destinations(markers));
  }

  /** Filtering distributes over concatenation. */
  lemma PartitionAppend(xs: seq<Marker>, ys: seq<Marker>)
    ensures Homes(xs + ys) == Homes(xs) + Homes(ys)
    ensures Destinations(xs + ys) == Destinations(xs) + Destinations(ys)
  {
    HomesAppend(xs, ys);
    DestinationsAppend(xs, ys);
  }

  lemma {:induction false} HomesAppend(xs: seq<Marker>, ys: seq<Marker>)
    ensures Homes(xs + ys) == Homes(xs) + Homes(ys)
  {
    if xs == [] {
      assert xs + ys == ys;
    } else {
      var head := if xs[0].isHome then [xs[0]] else [];
      assert (xs + ys)[0] == xs[0];
      assert (xs + ys)[1..] == xs[1..] + ys;
      HomesAppend(xs[1..], ys);
      assert Homes(xs + ys) == head + Homes(xs[1..] + ys);
      assert head + (Homes(xs[1..]) + Homes(ys)) == (head + Homes(xs[1..])) + Homes(ys);
    }
  }

  lemma {:induction false} DestinationsAppend(xs: seq<Marker>, ys: seq<Marker>)
    ensures Destinations(xs + ys) == Destinations(xs) + Destinations(ys)
  {
    if xs == [] {
      assert xs + ys == ys;
    } else {
      var head := if xs[0].isHome then [] else [xs[0]];
      assert (xs + ys)[0] == xs[0];
      assert (xs + ys)[1..] == xs[1..] + ys;
      DestinationsAppend(xs[1..], ys);
      assert Destinations(xs + ys) == head + Destinations(xs[1..] + ys);
      assert head + (Destinations(xs[1..]) + Destinations(ys)) == (head + Destinations(xs[1..])) + Destinations(ys);
    }
  }

  // ---------------------------------------------------------------------------
  // The invariant the page's buttons keep
  // ---------------------------------------------------------------------------

  /** One marker obeys the page's invariant: its visit count is not negative, and a
      home has none. */
  predicate MarkerOk(m: Marker)
  {
    m.numDrive >= 0 && (m.isHome ==> m.numDrive == 0)
  }

  /** The "-" button is disabled when `numDrive < 1` (App.js:160, :208). For a marker
      that obeys the invariant, it is enabled exactly when decrementing keeps it so. */
  predicate DecrementEnabled(m: Marker): (enabled: bool)
    ensures MarkerOk(m) ==> (enabled <==> MarkerOk(m.(numDrive := m.numDrive - 1)))
  {
    !(m.numDrive < 1)
  }

  /** The "+" button is disabled for a home in the list (App.js:162) and not shown
      for a home in the info window (App.js:205). For a marker that obeys the invariant,
      it is enabled exactly when incrementing keeps it so. */
  predicate IncrementEnabled(m: Marker): (enabled: bool)
    ensures MarkerOk(m) ==> (enabled <==> MarkerOk(m.(numDrive := m.numDrive + 1)))
  {
    !m.isHome
  }

  /** No visit count is negative, and a home has none. */
  predicate WellFormed(markers: seq<Marker>)
  {
    forall m :: m in markers ==> MarkerOk(m)
  }

  // ---------------------------------------------------------------------------
  // The handlers
  // ---------------------------------------------------------------------------

  /**
   * The page's state: the marker list and the index of the marker whose info window is
   * open. Each handler copies the list, changes the copy and stores it back; in the
   * source the copy `[...markers]` is shallow, so the marker objects themselves are
   * shared with the previous list, which no one reads again. The model therefore
   * treats each update as a value update of the sequence.
   */
  class MarkerStore {
    var markers: seq<Marker>
    var selected: Option<nat>

    /** `useState([])` and `useState(null)` */
    constructor ()
      ensures markers == [] && selected == None
      ensures WellFormed(markers)
    {
      markers := [];
      selected := None;
    }

    /** `toggleHome(index)`: flips the role of one marker and resets its visit count. */
    method ToggleHome(index: nat)
      requires index < |markers|
      modifies this
      ensures |markers| == |old(markers)| && selected == old(selected)
      ensures markers[index].isHome == !old(markers[index].isHome) && markers[index].numDrive == 0
      ensures markers[index].position == old(markers[index].position)
      ensures markers[index].address == old(markers[index].address)
      ensures forall j :: 0 <= j < |markers| && j != index ==> markers[j] == old(markers[j])
      ensures old(WellFormed(markers)) ==> WellFormed(markers)
    {
      var newMarkers := markers;
      var m := newMarkers[index];
      m := m.(isHome := !m.isHome);
      m := m.(numDrive := 0);
      newMarkers := newMarkers[index := m];
      markers := newMarkers;
      assert forall x :: x in markers ==> x == m || x in old(markers);
    }

    /** Clicking a marker on the map (App.js:199-201) opens its info window. */
    method Select(index: nat)
      requires index < |markers|
      modifies this
      ensures selected == Some(index) && markers == old(markers)
      ensures selected.value < |markers|
    {
      selected := Some(index);
    }

    /** Closing the info window (App.js:203). */
    method CloseInfoWindow()
      modifies this
      ensures selected == None && markers == old(markers)
    {
      selected := None;
    }

    /** `deleteMarker(index)`: `splice(index, 1)` removes one marker, or nothing when the
        index is past the end; the info window is closed either way. */
    method DeleteMarker(index: nat)
      modifies this
      ensures selected == None
      ensures index >= |old(markers)| ==> markers == old(markers)
      ensures index < |old(markers)| ==>
        && |markers| == |old(markers)| - 1
        && (forall j :: 0 <= j < index ==> markers[j] == old(markers[j]))
        && (forall j :: index <= j < |markers| ==> markers[j] == old(markers[j + 1]))
      ensures multiset(markers) <= multiset(old(markers))
      ensures old(WellFormed(markers)) ==> WellFormed(markers)
    {
      var newMarkers := markers;
      if index < |newMarkers| {
        assert newMarkers == newMarkers[..index] + newMarkers[index..];
        assert newMarkers[index..] == [newMarkers[index]] + newMarkers[index + 1..];
        newMarkers := newMarkers[..index] + newMarkers[index + 1..];
      }
      selected := None;
      markers := newMarkers;
    }

    /** `incrementDrive(index)` */
    method IncrementDrive(index: nat)
      requires index < |markers|
      modifies this
      ensures |markers| == |old(markers)| && selected == old(selected)
      ensures markers[index] == old(markers[index]).(numDrive := old(markers[index].numDrive) + 1)
      ensures forall j :: 0 <= j < |markers| && j != index ==> markers[j] == old(markers[j])
      ensures old(WellFormed(markers)) && old(IncrementEnabled(markers[index])) ==> WellFormed(markers)
    {
      var newMarkers := markers;
      newMarkers := newMarkers[index := newMarkers[index].(numDrive := newMarkers[index].numDrive + 1)];
      markers := newMarkers;
      assert forall x :: x in markers ==> x == markers[index] || x in old(markers);
    }

    /** `decrementDrive(index)`: the handler itself does not stop at 0; only the disabled
        button does. */
    method DecrementDrive(index: nat)
      requires index < |markers|
      modifies this
      ensures |markers| == |old(markers)| && selected == old(selected)
      ensures markers[index] == old(markers[index]).(numDrive := old(markers[index].numDrive) - 1)
      ensures forall j :: 0 <= j < |markers| && j != index ==> markers[j] == old(markers[j])
      ensures old(WellFormed(markers)) && old(DecrementEnabled(markers[index])) ==> WellFormed(markers)
    {
      var newMarkers := markers;
      newMarkers := newMarkers[index := newMarkers[index].(numDrive := newMarkers[index].numDrive - 1)];
      markers := newMarkers;
      assert forall x :: x in markers ==> x == markers[index] || x in old(markers);
    }

    /** The list update in `panTo`: a geocoded address becomes a new destination with no
        visits, appended at the end. */
    method AddMarker(position: Position, address: string)
      modifies this
      ensures markers == old(markers) + [Marker(position, address, false, 0)]
      ensures selected == old(selected)
      ensures Homes(markers) == Homes(old(markers))
      ensures Destinations(markers) == Destinations(old(markers)) + [Marker(position, address, false, 0)]
      ensures old(WellFormed(markers)) ==> WellFormed(markers)
    {
      var added := Marker(position, address, false, 0);
      PartitionAppend(markers, [added]);
      assert Homes([added]) == [] + Homes([]);
      assert Destinations([added]) == [added] + Destinations([]);
      markers := markers + [added];
    }
  }
}
