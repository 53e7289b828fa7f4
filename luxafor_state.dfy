/**
 * The shared device status store: one DeviceStatus record that every display
 * surface reads, three mutators that change it in place, and an
 * insertion-ordered set of listeners that is notified synchronously, one
 * listener at a time, after every mutation.
 *
 * Clock readings (`new Date()`) are the parameter `now`; listeners are
 * identified by a ListenerId, and whether a listener throws when handed a
 * snapshot is the store's `throws` function.
 */
module LuxaforState {

  datatype Option<+T> = None | Some(value: T)

  /** A registered callback, identified the way a JavaScript Set identifies a closure. */
  type ListenerId = nat

  /** The single record the store owns; a value, so every snapshot is a copy. */
  datatype DeviceStatus = DeviceStatus(
    isOnline: bool,
    currentColor: string,
    lastSeen: Option<nat>,
    lastAction: string)

  /** Partial<DeviceStatus>: a field takes part in the merge when it is Some. */
  datatype StatusPatch = StatusPatch(
    isOnline: Option<bool>,
    currentColor: Option<string>,
    lastSeen: Option<Option<nat>>,
    lastAction: Option<string>)

  /** One call of one listener, with the snapshot it was handed. */
  datatype Notification = Notification(listener: ListenerId, snapshot: DeviceStatus)

  const InitialStatus := DeviceStatus(false, "unknown", None, "")

  function Pick<T>(field: Option<T>, keep: T): T {
    if field.Some? then field.value else keep
  }

  /** `{ ...s, ...p }`: the fields present in `p` win, every other field keeps its value. */
  function Merge(s: DeviceStatus, p: StatusPatch): (r: DeviceStatus)
    ensures p.isOnline.Some? ==> r.isOnline == p.isOnline.value
    ensures p.isOnline.None? ==> r.isOnline == s.isOnline
    ensures p.currentColor.Some? ==> r.currentColor == p.currentColor.value
    ensures p.currentColor.None? ==> r.currentColor == s.currentColor
    ensures p.lastSeen.Some? ==> r.lastSeen == p.lastSeen.value
    ensures p.lastSeen.None? ==> r.lastSeen == s.lastSeen
    ensures p.lastAction.Some? ==> r.lastAction == p.lastAction.value
    ensures p.lastAction.None? ==> r.lastAction == s.lastAction
  {
    DeviceStatus(
      Pick(p.isOnline, s.isOnline),
      Pick(p.currentColor, s.currentColor),
      Pick(p.lastSeen, s.lastSeen),
      Pick(p.lastAction, s.lastAction))
  }

  /** The record after `setColor(color, action)` at time `now`. */
  function WithColor(s: DeviceStatus, color: string, action: string, now: nat): DeviceStatus {
    s.(currentColor := color, lastAction := action, lastSeen := Some(now), isOnline := true)
  }

  /** The record after `setOnline(online)` at time `now`. */
  function WithOnline(s: DeviceStatus, online: bool, now: nat): DeviceStatus {
    s.(isOnline := online, lastSeen := Some(now))
  }

  /** A patch that names every field. */
  function FullPatch(s: DeviceStatus): StatusPatch {
    StatusPatch(Some(s.isOnline), Some(s.currentColor), Some(s.lastSeen), Some(s.lastAction))
  }

  /** setColor overwrites all four fields: it is updateStatus with a full patch, and forgets the old record. */
  lemma SetColorIsFullUpdate(s: DeviceStatus, t: DeviceStatus, color: string, action: string, now: nat)
    ensures WithColor(s, color, action, now) == Merge(s, FullPatch(DeviceStatus(true, color, Some(now), action)))
    ensures WithColor(s, color, action, now) == WithColor(t, color, action, now)
  {
  }

  /** setOnline is updateStatus of isOnline and lastSeen; colour and last action survive it. */
  lemma SetOnlineKeepsColorAndAction(s: DeviceStatus, online: bool, now: nat)
    ensures WithOnline(s, online, now) == Merge(s, StatusPatch(Some(online), None, Some(Some(now)), None))
    ensures WithOnline(s, online, now).currentColor == s.currentColor
    ensures WithOnline(s, online, now).lastAction == s.lastAction
    ensures WithOnline(s, online, now).isOnline == online && WithOnline(s, online, now).lastSeen == Some(now)
  {
  }

  // ---------------------------------------------------------------------
  // Listener set and notification order
  // ---------------------------------------------------------------------

  predicate NoDuplicates(ls: seq<ListenerId>) {
    forall i, j :: 0 <= i < j < |ls| ==> ls[i] != ls[j]
  }

  /** `Set.add`: a new listener goes last; a registered one keeps its place. */
  function Added(ls: seq<ListenerId>, l: ListenerId): (r: seq<ListenerId>)
    ensures l in r
    ensures forall m :: m in r <==> m in ls || m == l
    ensures NoDuplicates(ls) ==> NoDuplicates(r)
  {
    if l in ls then ls else ls + [l]
  }

  /** `Set.delete`: every other listener keeps its relative order. */
  function Without(ls: seq<ListenerId>, l: ListenerId): (r: seq<ListenerId>)
    ensures forall m :: m in r <==> m in ls && m != l
    ensures |r| <= |ls|
    ensures NoDuplicates(ls) ==> NoDuplicates(r)
  {
    if ls == [] then []
    else if ls[0] == l then Without(ls[1..], l)
    else
      var rest := Without(ls[1..], l);
      assert NoDuplicates(ls) ==> ls[0] !in rest;
      [ls[0]] + rest
  }

  /** Deleting a registered listener from a duplicate-free list cuts out exactly its one position. */
  lemma {:induction false} WithoutCutsOut(ls: seq<ListenerId>, i: nat)
    requires NoDuplicates(ls) && i < |ls|
    ensures Without(ls, ls[i]) == ls[..i] + ls[i + 1..]
  {
    if i == 0 {
      assert ls[0] !in ls[1..];
      WithoutAbsent(ls[1..], ls[0]);
    } else {
      assert NoDuplicates(ls[1..]);
      WithoutCutsOut(ls[1..], i - 1);
      assert ls[1..][i - 1] == ls[i];
      assert ls[1..][..i - 1] + ls[1..][i..] == ls[1..i] + ls[i + 1..];
      assert ls[..i] + ls[i + 1..] == [ls[0]] + (ls[1..i] + ls[i + 1..]);
    }
  }

  /** Deleting a listener that is not registered changes nothing. */
  lemma {:induction false} WithoutAbsent(ls: seq<ListenerId>, l: ListenerId)
    requires l !in ls
    ensures Without(ls, l) == ls
  {
    if ls != [] {
      WithoutAbsent(ls[1..], l);
      assert ls == [ls[0]] + ls[1..];
    }
  }

  /** What one mutation delivers: each listener once, in list order, with the same snapshot. */
  function Broadcast(ls: seq<ListenerId>, s: DeviceStatus): (r: seq<Notification>)
    ensures |r| == |ls|
    ensures forall i :: 0 <= i < |ls| ==> r[i] == Notification(ls[i], s)
  {
    if ls == [] then [] else [Notification(ls[0], s)] + Broadcast(ls[1..], s)
  }

  lemma BroadcastSnoc(ls: seq<ListenerId>, i: nat, s: DeviceStatus)
    requires i < |ls|
    ensures Broadcast(ls[..i + 1], s) == Broadcast(ls[..i], s) + [Notification(ls[i], s)]
  {
  }

  /** The notifications whose listener threw: they are caught and reported, nothing more. */
  function Failures(ns: seq<Notification>, throws: (ListenerId, DeviceStatus) -> bool): (r: seq<Notification>)
    ensures |r| <= |ns|
  {
    if ns == [] then []
    else if throws(ns[0].listener, ns[0].snapshot) then [ns[0]] + Failures(ns[1..], throws)
    else Failures(ns[1..], throws)
  }

  /** A call is reported exactly when it was made and the listener threw on it. */
  lemma {:induction false} FailuresAreThrows(ns: seq<Notification>, throws: (ListenerId, DeviceStatus) -> bool, n: Notification)
    ensures n in Failures(ns, throws) <==> n in ns && throws(n.listener, n.snapshot)
  {
    if ns != [] {
      FailuresAreThrows(ns[1..], throws, n);
      assert n in ns <==> n == ns[0] || n in ns[1..];
    }
  }

  lemma {:induction false} FailuresConcat(a: seq<Notification>, b: seq<Notification>, throws: (ListenerId, DeviceStatus) -> bool)
    ensures Failures(a + b, throws) == Failures(a, throws) + Failures(b, throws)
  {
    if a != [] {
      assert (a + b)[0] == a[0] && (a + b)[1..] == a[1..] + b;
      FailuresConcat(a[1..], b, throws);
    } else {
      assert a + b == b;
    }
  }

  /** The snapshots a given listener was handed, in order. */
  function Received(ns: seq<Notification>, l: ListenerId): (r: seq<DeviceStatus>)
    ensures |r| <= |ns|
  {
    if ns == [] then []
    else if ns[0].listener == l then [ns[0].snapshot] + Received(ns[1..], l)
    else Received(ns[1..], l)
  }

  lemma {:induction false} ReceivedConcat(a: seq<Notification>, b: seq<Notification>, l: ListenerId)
    ensures Received(a + b, l) == Received(a, l) + Received(b, l)
  {
    if a != [] {
      assert (a + b)[0] == a[0] && (a + b)[1..] == a[1..] + b;
      ReceivedConcat(a[1..], b, l);
    } else {
      assert a + b == b;
    }
  }

  /** Every registered listener is handed the post-mutation snapshot exactly once; others get nothing. */
  lemma {:induction false} ReceivedBroadcast(ls: seq<ListenerId>, s: DeviceStatus, l: ListenerId)
    requires NoDuplicates(ls)
    ensures Received(Broadcast(ls, s), l) == if l in ls then [s] else []
  {
    if ls != [] {
      assert NoDuplicates(ls[1..]);
      assert Broadcast(ls, s)[1..] == Broadcast(ls[1..], s);
      ReceivedBroadcast(ls[1..], s, l);
      if ls[0] == l {
        assert l !in ls[1..];
      } else {
        assert l in ls <==> l in ls[1..];
      }
    }
  }

  /** What a series of mutations delivers: one Broadcast per record, in the order of the records. */
  function Announce(ls: seq<ListenerId>, records: seq<DeviceStatus>): seq<Notification> {
    if records == [] then [] else Broadcast(ls, records[0]) + Announce(ls, records[1..])
  }

  lemma {:induction false} AnnounceConcat(ls: seq<ListenerId>, a: seq<DeviceStatus>, b: seq<DeviceStatus>)
    ensures Announce(ls, a + b) == Announce(ls, a) + Announce(ls, b)
  {
    if a != [] {
      assert (a + b)[0] == a[0] && (a + b)[1..] == a[1..] + b;
      AnnounceConcat(ls, a[1..], b);
    } else {
      assert a + b == b;
    }
  }

  /** One mutation more is one Broadcast more. */
  lemma AnnounceSnoc(ls: seq<ListenerId>, records: seq<DeviceStatus>, r: DeviceStatus)
    ensures Announce(ls, records + [r]) == Announce(ls, records) + Broadcast(ls, r)
  {
    AnnounceConcat(ls, records, [r]);
    assert Announce(ls, [r]) == Broadcast(ls, r) + Announce(ls, []);
  }

  /** The same, as a log that already holds `d` grows by one mutation. */
  lemma AnnounceGrows(d: seq<Notification>, ls: seq<ListenerId>, records: seq<DeviceStatus>, r: DeviceStatus)
    ensures d + Announce(ls, records) + Broadcast(ls, r) == d + Announce(ls, records + [r])
  {
    AnnounceSnoc(ls, records, r);
  }

  /**
   * Over a series of mutations, every registered listener is handed exactly
   * the series of records, in order, and an unregistered one nothing.
   */
  lemma {:induction false} ReceivedAnnounce(ls: seq<ListenerId>, records: seq<DeviceStatus>, l: ListenerId)
    requires NoDuplicates(ls)
    ensures Received(Announce(ls, records), l) == if l in ls then records else []
  {
    if records != [] {
      ReceivedConcat(Broadcast(ls, records[0]), Announce(ls, records[1..]), l);
      ReceivedBroadcast(ls, records[0], l);
      ReceivedAnnounce(ls, records[1..], l);
      if l in ls {
        assert records == [records[0]] + records[1..];
      }
    }
  }

  /**
   * After a listener's unsubscribe function runs, the next mutation hands it
   * nothing, and every other listener is handed exactly what it would have
   * been handed anyway.
   */
  lemma UnsubscribeSilences(ls: seq<ListenerId>, l: ListenerId, m: ListenerId, s: DeviceStatus)
    requires NoDuplicates(ls) && m != l
    ensures Received(Broadcast(Without(ls, l), s), l) == []
    ensures Received(Broadcast(Without(ls, l), s), m) == Received(Broadcast(ls, s), m)
  {
    ReceivedBroadcast(Without(ls, l), s, l);
    ReceivedBroadcast(Without(ls, l), s, m);
    ReceivedBroadcast(ls, s, m);
  }

  /** Subscribing twice registers once, and the first unsubscribe removes the listener entirely. */
  lemma SubscribeTwiceOnce(ls: seq<ListenerId>, l: ListenerId, s: DeviceStatus)
    requires NoDuplicates(ls)
    ensures Added(Added(ls, l), l) == Added(ls, l)
    ensures Received(Broadcast(Added(Added(ls, l), l), s), l) == [s]
    ensures l !in Without(Added(Added(ls, l), l), l)
  {
    ReceivedBroadcast(Added(ls, l), s, l);
  }

  // ---------------------------------------------------------------------
  // The store
  // ---------------------------------------------------------------------

  class StateStore {
    var status: DeviceStatus
    /** The listener Set, as its insertion order. */
    var listeners: seq<ListenerId>
    /** Whether a listener throws when it is handed a given snapshot. */
    const throws: (ListenerId, DeviceStatus) -> bool
    /** Every listener call made so far, in order. */
    ghost var delivered: seq<Notification>
    /** The listener calls that threw and were caught and logged. */
    ghost var reported: seq<Notification>

    /** The listener list has no duplicates, and the reported calls are exactly the delivered calls that threw. */
    ghost predicate Valid()
      reads this
    {
      NoDuplicates(listeners) && reported == Failures(delivered, throws)
    }

    constructor (throws: (ListenerId, DeviceStatus) -> bool)
      ensures Valid()
      ensures status == DeviceStatus(false, "unknown", None, "")
      ensures listeners == [] && this.throws == throws
      ensures delivered == [] && reported == []
    {
      status := InitialStatus;
      listeners := [];
      this.throws := throws;
      delivered := [];
      reported := [];
    }

    /** A snapshot: a value equal to the record, unaffected by later mutations. */
    method GetStatus() returns (snapshot: DeviceStatus)
      ensures snapshot == status
    {
      snapshot := status;
    }

    method UpdateStatus(patch: StatusPatch)
      requires Valid()
      modifies this
      ensures Valid() && listeners == old(listeners)
      ensures status == Merge(old(status), patch)
      ensures delivered == old(delivered) + Broadcast(listeners, status)
      ensures reported == old(reported) + Failures(Broadcast(listeners, status), throws)
    {
      status := Merge(status, patch);
      NotifyListeners();
    }

    method SetColor(color: string, action: string, now: nat)
      requires Valid()
      modifies this
      ensures Valid() && listeners == old(listeners)
      ensures status == WithColor(old(status), color, action, now)
      ensures delivered == old(delivered) + Broadcast(listeners, status)
      ensures reported == old(reported) + Failures(Broadcast(listeners, status), throws)
    {
      status := status.(currentColor := color);
      status := status.(lastAction := action);
      status := status.(lastSeen := Some(now));
      status := status.(isOnline := true);
      NotifyListeners();
    }

    method SetOnline(online: bool, now: nat)
      requires Valid()
      modifies this
      ensures Valid() && listeners == old(listeners)
      ensures status == WithOnline(old(status), online, now)
      ensures delivered == old(delivered) + Broadcast(listeners, status)
      ensures reported == old(reported) + Failures(Broadcast(listeners, status), throws)
    {
      status := status.(isOnline := online);
      status := status.(lastSeen := Some(now));
      NotifyListeners();
    }

    method Subscribe(l: ListenerId)
      requires Valid()
      modifies this
      ensures Valid() && status == old(status)
      ensures listeners == Added(old(listeners), l)
      ensures delivered == old(delivered) && reported == old(reported)
    {
      if l !in listeners {
        listeners := listeners + [l];
      }
    }

    /** The function `subscribe` returns. */
    method Unsubscribe(l: ListenerId)
      requires Valid()
      modifies this
      ensures Valid() && status == old(status)
      ensures listeners == Without(old(listeners), l)
      ensures delivered == old(delivered) && reported == old(reported)
    {
      listeners := Without(listeners, l);
    }

    /**
     * Calls every listener in order with a fresh snapshot; a listener that
     * throws is reported and the loop carries on.
     */
    method NotifyListeners()
      requires Valid()
      modifies this`delivered, this`reported
      ensures Valid()
      ensures delivered == old(delivered) + Broadcast(listeners, status)
      ensures reported == old(reported) + Failures(Broadcast(listeners, status), throws)
    {
      var i := 0;
      while i < |listeners|
        invariant 0 <= i <= |listeners|
        invariant delivered == old(delivered) + Broadcast(listeners[..i], status)
        invariant reported == old(reported) + Failures(Broadcast(listeners[..i], status), throws)
      {
        var snapshot := GetStatus();
        var call := Notification(listeners[i], snapshot);
        BroadcastSnoc(listeners, i, status);
        FailuresConcat(Broadcast(listeners[..i], status), [call], throws);
        delivered := delivered + [call];
        if throws(listeners[i], snapshot) {
          reported := reported + [call];
        }
        i := i + 1;
      }
      assert listeners[..i] == listeners;
      FailuresConcat(old(delivered), Broadcast(listeners, status), throws);
    }
  }
}
