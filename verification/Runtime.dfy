/** From transport callbacks to the session and back: one admitted request at a time, and its
    lease is never lost. */
module Runtime {
  import opened Bytes
  import opened Generations
  import SoundFormat
  import Session

  type Route = Session.Route

  const DATA_CAPACITY: nat := 20
  const CLOSE_CAPACITY: nat := 8
  const LIFECYCLE_CAPACITY: nat := 8
  const REPLY_CAPACITY: nat := 4
  const ACTIVE_ROUTES: nat := 4
  const USB_FRAME: nat := 63
  const HEADER: nat := 24
  const WIFI_FRAME: nat := 125
  const MAX_ADMISSION: nat := 0xFFFF_FFFF_FFFF_FFFF

  /** The right to have one logical request in flight. */
  datatype Lease = Lease(route: Route, id: u64)

  datatype EnqueueResult = Accepted | Coalesced | Full | BadArgument

  datatype Record =
    | OpenRecord(route: Route)
    | CloseRecord(route: Route)
    | CloseAllRecord(route: Route)
    | FrameRecord(lease: Lease, receivedMs: u32, bytes: seq<byte>)

  predicate LengthFits(route: Route, bytes: seq<byte>) {
    (route.transport.Usb? && |bytes| == USB_FRAME) || (route.transport.Wifi? && HEADER <= |bytes| <= WIFI_FRAME)
  }

  /** A USB frame fills its report; a Wi-Fi frame has a header and at most 101 bytes. */
  lemma LengthMeans(route: Route, bytes: seq<byte>)
    ensures LengthFits(route, bytes) <==>
              match route.transport case Usb => |bytes| == 63 case Wifi => 24 <= |bytes| <= 24 + 101 case Legacy => false
  {
  }

  predicate FrameFits(r: Record)
    requires r.FrameRecord?
  {
    r.lease.id != 0 && Session.RouteValid(r.lease.route) && LengthFits(r.lease.route, r.bytes)
  }

  function RouteOf(r: Record): Route { if r.FrameRecord? then r.lease.route else r.route }

  /** The leases of the queued frames. */
  function DataLeases(data: seq<Record>): multiset<Lease> {
    if data == [] then multiset{}
    else (if data[0].FrameRecord? then multiset{data[0].lease} else multiset{}) + DataLeases(data[1..])
  }

  lemma {:induction false} DataLeasesAppend(data: seq<Record>, last: Record)
    ensures DataLeases(data + [last]) == DataLeases(data) + (if last.FrameRecord? then multiset{last.lease} else multiset{})
  {
    if data == [] {
      assert [last][1..] == [];
    } else {
      DataLeasesAppend(data[1..], last);
      assert (data + [last])[1..] == data[1..] + [last];
    }
  }

  /** Removing records of one route removes exactly the leases of that route. */
  function WithoutRoute(data: seq<Record>, route: Route): (r: seq<Record>)
    ensures |r| <= |data|
    ensures forall l :: DataLeases(r)[l] == if l.route == route then 0 else DataLeases(data)[l]
    ensures forall record | record in r :: record in data
  {
    if data == [] then []
    else
      var rest := WithoutRoute(data[1..], route);
      assert ([data[0]] + rest)[1..] == rest;
      if RouteOf(data[0]) == route then rest else [data[0]] + rest
  }

  /** Removing the records of one admission. */
  function WithoutAdmission(data: seq<Record>, id: u64): (r: seq<Record>)
    ensures |r| <= |data|
    ensures forall l :: DataLeases(r)[l] == if l.id == id then 0 else DataLeases(data)[l]
    ensures forall record | record in r :: record in data
  {
    if data == [] then []
    else
      var rest := WithoutAdmission(data[1..], id);
      assert ([data[0]] + rest)[1..] == rest;
      if data[0].FrameRecord? && data[0].lease.id == id then rest else [data[0]] + rest
  }

  function RoutesIn(data: seq<Record>): set<Route> { set record | record in data :: RouteOf(record) }

  /** After the global close: opens become closes, frames are gone. */
  function FailClosed(data: seq<Record>): (r: seq<Record>)
    ensures |r| <= |data|
    ensures DataLeases(r) == multiset{}
    ensures forall record | record in r :: record.CloseRecord? && record.route in RoutesIn(data)
  {
    if data == [] then []
    else
      var rest := FailClosed(data[1..]);
      var first := CloseRecord(RouteOf(data[0]));
      assert ([first] + rest)[1..] == rest;
      assert data[0] in data && forall record | record in data[1..] :: record in data;
      if data[0].OpenRecord? || data[0].CloseRecord? then [first] + rest else rest
  }

  /** The callback side. */
  class RuntimeMailbox {
    var data: seq<Record>
    var closes: seq<Route>
    var reserved: Option<Lease>
    var nextAdmission: u64
    var revokeAll: Option<Route>
    var failClosed: bool
    /** Routes that were reported closed. */
    ghost var closedRoutes: set<Route>

    ghost predicate Valid()
      reads this
    {
      && |data| <= DATA_CAPACITY && |closes| <= CLOSE_CAPACITY
      && (reserved.Some? ==> 0 < reserved.value.id && (nextAdmission == 0 || reserved.value.id < nextAdmission))
      && (forall l :: DataLeases(data)[l] > 0 ==> Some(l) == reserved && DataLeases(data)[l] == 1)
      && (revokeAll.Some? ==> reserved.None?)
      && (reserved.Some? ==> !ClosePending(reserved.value.route))
      && (forall route | route in closes :: route in closedRoutes)
      && forall record | record in data ::
           && !record.CloseAllRecord? && (record.CloseRecord? ==> record.route in closedRoutes)
           && (record.FrameRecord? ==> FrameFits(record))
    }

    constructor ()
      ensures Valid() && reserved.None? && data == [] && closes == [] && revokeAll.None? && !failClosed && closedRoutes == {}
      ensures nextAdmission == 1
    {
      data, closes, reserved, nextAdmission, revokeAll, failClosed := [], [], None, 1, None, false;
      closedRoutes := {};
    }

    predicate ClosePending(route: Route)
      reads this
    {
      || revokeAll == Some(route)
      || route in closes
      || CloseRecord(route) in data
    }

    /** An old id is never handed out again. */
    predicate Issued(l: Lease)
      reads this
    {
      l.id != 0 && (nextAdmission == 0 || l.id < nextAdmission)
    }

    method EnqueueOpened(route: Route) returns (r: EnqueueResult)
      requires Valid()
      modifies this`data, this`failClosed, this`closedRoutes
      ensures Valid() && DataLeases(data) == DataLeases(old(data)) && old(closedRoutes) <= closedRoutes
      ensures r == if !Session.RouteValid(route) then BadArgument
                   else if old(failClosed || ClosePending(route)) then Coalesced
                   else if revokeAll.None? && |old(data)| >= DATA_CAPACITY then Full
                   else Accepted
      ensures data == old(data) + (if !r.Accepted? || |old(data)| >= DATA_CAPACITY then []
                                   else if revokeAll.None? then [OpenRecord(route)] else [CloseRecord(route)])
      ensures revokeAll.None? ==> closedRoutes == old(closedRoutes)
    {
      hide DataLeases, FrameFits, Session.RouteValid;
      if !Session.RouteValid(route) { return BadArgument; }
      if failClosed || ClosePending(route) { return Coalesced; }
      if revokeAll.Some? {
        r := RetainTombstone(route);
        return;
      }
      if |data| >= DATA_CAPACITY { return Full; }
      DataLeasesAppend(data, OpenRecord(route));
      data := data + [OpenRecord(route)];
      r := Accepted;
    }

    method RetainTombstone(route: Route) returns (r: EnqueueResult)
      requires Valid() && (reserved.Some? ==> reserved.value.route != route)
      modifies this`data, this`failClosed, this`closedRoutes
      ensures Valid() && DataLeases(data) == DataLeases(old(data))
      ensures r == if old(ClosePending(route)) then Coalesced else Accepted
      ensures closedRoutes == old(closedRoutes) + {route}
      ensures data == old(data) + (if r.Accepted? && |old(data)| < DATA_CAPACITY then [CloseRecord(route)] else [])
      ensures ClosePending(route) || failClosed
    {
      hide DataLeases, FrameFits;
      closedRoutes := closedRoutes + {route};
      if ClosePending(route) { return Coalesced; }
      if |data| >= DATA_CAPACITY {
        failClosed := true;
        return Accepted;
      }
      DataLeasesAppend(data, CloseRecord(route));
      data := data + [CloseRecord(route)];
      assert data[|data| - 1] == CloseRecord(route);
      r := Accepted;
    }

    /** A close is never refused, and ends the reservation of its route at once. */
    method EnqueueClosed(route: Route) returns (r: EnqueueResult)
      requires Valid()
      modifies this
      ensures Valid() && nextAdmission == old(nextAdmission)
      ensures r.BadArgument? <==> !Session.RouteValid(route)
      ensures !r.Full?
      ensures !r.BadArgument? ==> ClosePending(route) || failClosed
      ensures r.BadArgument? ==> data == old(data) && reserved == old(reserved) && closedRoutes == old(closedRoutes) && revokeAll == old(revokeAll)
      ensures !r.BadArgument? ==> old(closedRoutes) + {route} <= closedRoutes
      ensures !r.BadArgument? && old(!failClosed && revokeAll.None? && closes == [] && data == []) ==>
                closes == [route] && data == [] && revokeAll.None? && !failClosed
      ensures reserved == old(reserved) || reserved.None?
      ensures reserved.Some? ==> forall l :: DataLeases(data)[l] == DataLeases(old(data))[l]
      ensures forall l :: DataLeases(data)[l] <= DataLeases(old(data))[l]
      ensures reserved.Some? && !r.BadArgument? ==> reserved.value.route != route
      ensures old(revokeAll).None? && revokeAll.Some? ==> reserved.None?
    {
      hide DataLeases, FrameFits, Session.RouteValid;
      if !Session.RouteValid(route) { return BadArgument; }
      Drop(route);
      if failClosed { return Coalesced; }
      if revokeAll.Some? {
        r := RetainTombstone(route);
        return;
      }
      if ClosePending(route) { return Coalesced; }
      if |closes| >= CLOSE_CAPACITY {
        FailClose(route);
        return Accepted;
      }
      closes := closes + [route];
      assert closes[|closes| - 1] == route;
      r := Accepted;
    }

    method Drop(route: Route)
      requires Valid()
      modifies this`data, this`reserved, this`closedRoutes
      ensures Valid() && closedRoutes == old(closedRoutes) + {route}
      ensures data == WithoutRoute(old(data), route)
      ensures reserved == if old(reserved).Some? && old(reserved).value.route == route then None else old(reserved)
      ensures reserved.Some? ==> forall l :: DataLeases(data)[l] == DataLeases(old(data))[l]
    {
      hide DataLeases, FrameFits;
      closedRoutes := closedRoutes + {route};
      data := WithoutRoute(data, route);
      if reserved.Some? && reserved.value.route == route { reserved := None; }
    }

    /** More closes than the queue holds: everything pending is revoked at once. */
    method FailClose(route: Route)
      requires Valid()
      modifies this`data, this`reserved, this`revokeAll, this`closedRoutes
      ensures Valid() && reserved.None? && revokeAll == Some(route) && old(closedRoutes) <= closedRoutes
      ensures DataLeases(data) == multiset{}
    {
      hide DataLeases, FrameFits;
      closedRoutes := closedRoutes + RoutesIn(data);
      data := FailClosed(data);
      revokeAll, reserved := Some(route), None;
    }

    /** At most one logical request is admitted, across all transports. */
    method EnqueueFrame(route: Route, bytes: seq<byte>, receivedMs: u32) returns (r: EnqueueResult)
      requires Valid()
      modifies this`data, this`reserved, this`nextAdmission, this`failClosed
      ensures Valid()
      ensures r.BadArgument? ==> !LengthFits(route, bytes) || !Session.RouteValid(route)
      ensures r.Accepted? <==>
                && LengthFits(route, bytes) && Session.RouteValid(route)
                && old(revokeAll.None? && !failClosed && !ClosePending(route))
                && old(reserved).None? && old(nextAdmission) != 0 && |old(data)| < DATA_CAPACITY
      ensures r.Accepted? ==>
                && old(reserved).None? && reserved.Some? && reserved.value.route == route
                && reserved.value.id == old(nextAdmission) && Issued(reserved.value)
                && data == old(data) + [FrameRecord(reserved.value, receivedMs, bytes)]
                && DataLeases(data) == DataLeases(old(data)) + multiset{reserved.value}
                && route !in closes && revokeAll.None?
      ensures !r.Accepted? ==> reserved == old(reserved) && data == old(data)
      ensures old(reserved).Some? && LengthFits(route, bytes) ==> r.Full?
      ensures nextAdmission == old(nextAdmission)
           || (old(nextAdmission) != 0 && nextAdmission == if old(nextAdmission) == MAX_ADMISSION then 0 else old(nextAdmission) + 1)
      ensures forall l :: old(Issued(l)) ==> Issued(l)
    {
      hide DataLeases, LengthFits, Session.RouteValid;
      if !LengthFits(route, bytes) { return BadArgument; }
      if revokeAll.Some? || failClosed || ClosePending(route) { return Full; }
      if reserved.Some? { return Full; }
      if nextAdmission == 0 {
        failClosed := true;
        return Full;
      }
      var lease := Lease(route, nextAdmission);
      nextAdmission := if nextAdmission == MAX_ADMISSION then 0 else nextAdmission + 1;
      if !Session.RouteValid(route) { return BadArgument; }
      if |data| >= DATA_CAPACITY { return Full; }
      var record := FrameRecord(lease, receivedMs, bytes);
      DataLeasesAppend(data, record);
      NoneQueued(data);
      data := data + [record];
      reserved := Some(lease);
      r := Accepted;
    }

    /** Closes first; the global close before everything. */
    method TakeNext() returns (record: Option<Record>)
      requires Valid()
      modifies this`data, this`closes, this`revokeAll
      ensures Valid()
      ensures old(revokeAll).Some? ==> record == Some(CloseAllRecord(old(revokeAll).value))
      ensures old(revokeAll).None? && old(closes) != [] ==>
                record == Some(CloseRecord(old(closes)[0])) && closes == old(closes)[1..] && data == old(data)
      ensures old(revokeAll).None? && old(closes) == [] && old(data) != [] ==>
                record == Some(old(data)[0]) && data == old(data)[1..] && closes == []
      ensures record.Some? && record.value.CloseAllRecord? ==> old(revokeAll).Some? && data == old(data) && reserved.None?
      ensures revokeAll.None?
      ensures record.Some? && record.value.CloseRecord? ==> record.value.route in closedRoutes
      ensures record.Some? && record.value.CloseRecord? && reserved.Some? ==> record.value.route != reserved.value.route
      ensures record.Some? && record.value.FrameRecord? ==> FrameFits(record.value)
      ensures DataLeases(old(data)) ==
                DataLeases(data) + (if record.Some? && record.value.FrameRecord? then multiset{record.value.lease} else multiset{})
      ensures record.None? ==> data == old(data) == []
    {
      hide FrameFits, DataLeases;
      if revokeAll.Some? {
        record := Some(CloseAllRecord(revokeAll.value));
        revokeAll := None;
        return;
      }
      if closes != [] {
        record := Some(CloseRecord(closes[0]));
        assert closes[0] in closes && forall route | route in closes[1..] :: route in closes;
        closes := closes[1..];
        return;
      }
      if data == [] { return None; }
      var first := PopData();
      record := Some(first);
    }

    method PopData() returns (first: Record)
      requires Valid() && data != []
      modifies this`data
      ensures Valid() && data == old(data)[1..] && first == old(data)[0] && first in old(data)
      ensures DataLeases(old(data)) ==
                DataLeases(data) + (if first.FrameRecord? then multiset{first.lease} else multiset{})
    {
      hide FrameFits;
      first := data[0];
      assert data[0] in data && forall other | other in data[1..] :: other in data;
      HeadLease(data);
      hide DataLeases;
      data := data[1..];
    }

    /** Compare and release: a stale lease changes nothing. */
    method Release(lease: Lease) returns (released: bool)
      requires Valid()
      modifies this`data, this`reserved
      ensures Valid()
      ensures released <==> old(reserved) == Some(lease)
      ensures reserved == if released then None else old(reserved)
      ensures data == if released then WithoutAdmission(old(data), lease.id) else old(data)
      ensures nextAdmission == old(nextAdmission) && closedRoutes == old(closedRoutes)
      ensures released ==> DataLeases(data) == multiset{}
    {
      hide DataLeases, FrameFits;
      if reserved != Some(lease) { return false; }
      OnlyThisAdmission(data, lease);
      data := WithoutAdmission(data, lease.id);
      reserved := None;
      released := true;
    }
  }

  lemma HeadLease(data: seq<Record>)
    requires data != []
    ensures DataLeases(data) == DataLeases(data[1..]) + (if data[0].FrameRecord? then multiset{data[0].lease} else multiset{})
    ensures forall l :: DataLeases(data[1..])[l] <= DataLeases(data)[l]
  {
  }

  lemma OnlyThisAdmission(data: seq<Record>, lease: Lease)
    requires forall l :: DataLeases(data)[l] > 0 ==> l == lease
    ensures DataLeases(WithoutAdmission(data, lease.id)) == multiset{}
  {
    hide DataLeases;
    var after := WithoutAdmission(data, lease.id);
    assert forall l :: DataLeases(after)[l] == 0;
  }

  lemma NoneQueued(data: seq<Record>)
    ensures (forall l :: DataLeases(data)[l] == 0) ==> DataLeases(data) == multiset{}
  {
  }

  function Without(slots: seq<Option<Route>>, route: Route): (r: seq<Option<Route>>)
    ensures |r| == |slots|
    ensures forall i | 0 <= i < |slots| :: r[i] == if slots[i] == Some(route) then None else slots[i]
  {
    seq(|slots|, i requires 0 <= i < |slots| => if slots[i] == Some(route) then None else slots[i])
  }

  // ---------- The owner side ----------

  datatype Ingress = Ingress(lease: Lease, receivedMs: u32, bytes: seq<byte>)
  datatype Lifecycle = Lifecycle(closing: bool, route: Route)
  datatype RuntimeReply = RuntimeReply(sequence: u32, lease: Lease, reply: Session.Reply)

  datatype Execution = StillPending | Rejected | Completed(completion: Session.Completion)

  datatype StepResult =
    | StepIdle | LifecycleApplied | RouteCapacityExceeded | FrameConsumed | ReplyQueued | ActionQueued
    | ActionExecutionPending | ActionCompleted | Paused | ReplyBackpressure | PartialExpired | SessionLeaseExpired
    | InvalidFrameDropped | StaleRouteDropped | ExecutorUnavailable | ExecutorRejected | SessionRejected

  function IngressLeases(q: seq<Ingress>): multiset<Lease> {
    if q == [] then multiset{} else multiset{q[0].lease} + IngressLeases(q[1..])
  }

  function ReplyLeases(q: seq<RuntimeReply>): multiset<Lease> {
    if q == [] then multiset{} else multiset{q[0].lease} + ReplyLeases(q[1..])
  }

  lemma {:induction false} IngressAppend(q: seq<Ingress>, last: Ingress)
    ensures IngressLeases(q + [last]) == IngressLeases(q) + multiset{last.lease}
  {
    if q == [] { assert [last][1..] == []; }
    else {
      IngressAppend(q[1..], last);
      assert (q + [last])[1..] == q[1..] + [last];
    }
  }

  lemma {:induction false} ReplyAppend(q: seq<RuntimeReply>, last: RuntimeReply)
    ensures ReplyLeases(q + [last]) == ReplyLeases(q) + multiset{last.lease}
  {
    if q == [] { assert [last][1..] == []; }
    else {
      ReplyAppend(q[1..], last);
      assert (q + [last])[1..] == q[1..] + [last];
    }
  }

  function IngressWithoutRoute(q: seq<Ingress>, route: Route): (r: seq<Ingress>)
    ensures |r| <= |q|
    ensures forall l :: IngressLeases(r)[l] == if l.route == route then 0 else IngressLeases(q)[l]
  {
    if q == [] then []
    else
      var rest := IngressWithoutRoute(q[1..], route);
      assert ([q[0]] + rest)[1..] == rest;
      if q[0].lease.route == route then rest else [q[0]] + rest
  }

  function IngressWithoutAdmission(q: seq<Ingress>, id: u64): (r: seq<Ingress>)
    ensures |r| <= |q|
    ensures forall l :: IngressLeases(r)[l] == if l.id == id then 0 else IngressLeases(q)[l]
  {
    if q == [] then []
    else
      var rest := IngressWithoutAdmission(q[1..], id);
      assert ([q[0]] + rest)[1..] == rest;
      if q[0].lease.id == id then rest else [q[0]] + rest
  }

  function RepliesWithoutRoute(q: seq<RuntimeReply>, route: Route): (r: seq<RuntimeReply>)
    ensures |r| <= |q|
    ensures forall l :: ReplyLeases(r)[l] == if l.route == route then 0 else ReplyLeases(q)[l]
  {
    if q == [] then []
    else
      var rest := RepliesWithoutRoute(q[1..], route);
      assert ([q[0]] + rest)[1..] == rest;
      if q[0].lease.route == route then rest else [q[0]] + rest
  }

  datatype Timer = Timer(route: Route, since: u32)

  predicate Elapsed(now: u32, since: u32, interval: u32) { (now - since) % 0x1_0000_0000 >= interval }

  class RuntimeCore {
    const session: Session.SpeakerAssetsSession
    /** The frame decoder of a route, and the bits a route sets in the closed-route filter. */
    const decode: (Route, seq<byte>) -> Option<Session.Frame>
    const filterBits: Route -> set<nat>
    const partialTimeout: u32
    const sessionTimeout: u32

    var ingress: seq<Ingress>
    var lifecycle: seq<Lifecycle>
    var replies: seq<RuntimeReply>
    var nextReply: u32
    var active: seq<Option<Route>>
    var closedFilter: set<nat>
    var pendingAction: Option<Session.Action>
    var pendingLease: Lease
    var partialTimer: Option<Timer>
    var sessionTimer: Option<Timer>
    /** Every route closed here so far. */
    ghost var everClosed: set<Route>

    ghost predicate Valid()
      reads this, session
    {
      && session.Valid()
      && |ingress| <= DATA_CAPACITY && |lifecycle| <= LIFECYCLE_CAPACITY && |replies| <= REPLY_CAPACITY
      && |active| == ACTIVE_ROUTES && nextReply != 0
      && (pendingAction.Some? <==> session.pending.Some?)
      && (pendingAction.Some? ==> pendingAction.value.token == session.pending.value.token)
      && (forall route | route in everClosed :: filterBits(route) <= closedFilter)
      && forall i | 0 <= i < |active| && active[i].Some? :: active[i].value !in everClosed
    }

    /** Where leases are on this side: queued frames, queued replies, the pending action. */
    function Leases(): multiset<Lease>
      reads this`ingress, this`replies, this`pendingAction, this`pendingLease
    {
      IngressLeases(ingress) + ReplyLeases(replies) + (if pendingAction.Some? then multiset{pendingLease} else multiset{})
    }

    /** Those in queues, where a close of their route removes them. */
    function Queued(): multiset<Lease>
      reads this`ingress, this`replies
    {
      IngressLeases(ingress) + ReplyLeases(replies)
    }

    constructor (decode: (Route, seq<byte>) -> Option<Session.Frame>, filterBits: Route -> set<nat>,
                 digest: Session.Content -> SoundFormat.Digest, cookieSeed: u32, tokenSeed: u32,
                 partialTimeout: u32, sessionTimeout: u32)
      ensures Valid() && fresh(session) && Leases() == multiset{} && lifecycle == [] && ingress == []
    {
      session := new Session.SpeakerAssetsSession(digest, cookieSeed, tokenSeed);
      this.decode, this.filterBits := decode, filterBits;
      this.partialTimeout := if partialTimeout == 0 then 5000 else partialTimeout;
      this.sessionTimeout := if sessionTimeout == 0 then 10000 else sessionTimeout;
      ingress, lifecycle, replies, nextReply := [], [], [], 1;
      active, closedFilter := seq(ACTIVE_ROUTES, _ => None), {};
      pendingAction, pendingLease := None, Lease(Session.Route(Session.Usb, 0, 0), 0);
      partialTimer, sessionTimer, everClosed := None, None, {};
    }

    predicate RouteIsActive(route: Route)
      reads this
    {
      Some(route) in active
    }

    predicate Announced(route: Route)
      reads this`lifecycle
    {
      exists i | 0 <= i < |lifecycle| :: lifecycle[i].route == route
    }

    /** A close dominates an open of the same lifetime, in either order. */
    method EnqueueLifecycle(closing: bool, route: Route) returns (r: EnqueueResult)
      requires Valid()
      modifies this`lifecycle
      ensures Valid()
      ensures r.BadArgument? <==> !Session.RouteValid(route)
      ensures (r.Accepted? || r.Coalesced?) && closing ==> Lifecycle(true, route) in lifecycle
      ensures old(Announced(route)) && !r.BadArgument? ==>
                (r.Accepted? || r.Coalesced?) && |lifecycle| == |old(lifecycle)| && (!closing ==> lifecycle == old(lifecycle))
      ensures !old(Announced(route)) && !r.BadArgument? ==>
                && (r.Full? <==> |old(lifecycle)| >= if closing then LIFECYCLE_CAPACITY else LIFECYCLE_CAPACITY - ACTIVE_ROUTES)
                && (!r.Full? ==> r.Accepted? && lifecycle == old(lifecycle) + [Lifecycle(closing, route)])
      ensures forall event | event in old(lifecycle) && event.route != route :: event in lifecycle
      ensures Lifecycle(true, route) in old(lifecycle) ==> Lifecycle(true, route) in lifecycle
      ensures forall event | event in lifecycle && event.closing :: event in old(lifecycle) || (closing && event.route == route)
      ensures r.Full? ==> lifecycle == old(lifecycle) != []
    {
      if !Session.RouteValid(route) { return BadArgument; }
      for i := 0 to |lifecycle|
        invariant lifecycle == old(lifecycle)
        invariant forall k | 0 <= k < i :: lifecycle[k].route != route
      {
        if lifecycle[i].route == route {
          if lifecycle[i].closing { return Coalesced; }
          if closing {
            var was := lifecycle;
            lifecycle := lifecycle[i := Lifecycle(true, route)];
            assert lifecycle[i] in lifecycle;
            forall event | event in was && event.route != route ensures event in lifecycle {
              var k :| 0 <= k < |was| && was[k] == event;
              assert lifecycle[k] == event;
            }
            return Accepted;
          }
          return Coalesced;
        }
      }
      if |lifecycle| >= LIFECYCLE_CAPACITY { return Full; }
      if !closing && |lifecycle| >= LIFECYCLE_CAPACITY - ACTIVE_ROUTES { return Full; }
      lifecycle := lifecycle + [Lifecycle(closing, route)];
      assert lifecycle[|lifecycle| - 1] == Lifecycle(closing, route);
      r := Accepted;
    }

    method Import(record: Record) returns (r: EnqueueResult)
      requires Valid()
      modifies this, session
      ensures Valid()
      ensures record.FrameRecord? ==>
                && (r.BadArgument? <==> !FrameFits(record)) && (r.Full? <==> FrameFits(record) && |old(ingress)| >= DATA_CAPACITY)
                && Leases() == (if r.Accepted? then old(Leases()) + multiset{record.lease} else old(Leases()))
                && lifecycle == old(lifecycle) && (r.Accepted? || r.BadArgument? || r.Full?)
      ensures record.OpenRecord? || record.CloseRecord? ==> Leases() == old(Leases())
      ensures record.CloseRecord? ==>
                && (forall event | event in lifecycle && event.closing :: event in old(lifecycle) || event.route == record.route)
                && (old(lifecycle) == [] && Session.RouteValid(record.route) ==> lifecycle == [Lifecycle(true, record.route)])
                && ingress == old(ingress)
      ensures record.OpenRecord? ==>
                forall event | event in lifecycle && event.closing :: event in old(lifecycle)
      ensures record.CloseAllRecord? ==> r.Accepted? && lifecycle == [] && forall l :: Leases()[l] <= old(Leases())[l]
      ensures r.Full? ==> !record.CloseAllRecord?
      ensures pendingAction == old(pendingAction)
    {
      hide RuntimeCore.Leases, Session.SpeakerAssetsSession.Valid, FrameFits;
      match record
      case OpenRecord(route) => r := EnqueueLifecycle(false, route);
      case CloseRecord(route) => r := EnqueueLifecycle(true, route);
      case CloseAllRecord(route) =>
        RevokeAll(route);
        r := Accepted;
      case FrameRecord(lease, receivedMs, bytes) => r := EnqueueIngress(record);
    }

    method EnqueueIngress(record: Record) returns (r: EnqueueResult)
      requires Valid() && record.FrameRecord?
      modifies this`ingress
      ensures Valid()
      ensures r == if !FrameFits(record) then BadArgument else if |old(ingress)| >= DATA_CAPACITY then Full else Accepted
      ensures Leases() == if r.Accepted? then old(Leases()) + multiset{record.lease} else old(Leases())
    {
      hide IngressLeases, ReplyLeases, Session.SpeakerAssetsSession.Valid;
      if !FrameFits(record) { return BadArgument; }
      if |ingress| >= DATA_CAPACITY { return Full; }
      var item := Ingress(record.lease, record.receivedMs, record.bytes);
      IngressAppend(ingress, item);
      ingress := ingress + [item];
      r := Accepted;
    }

    method RememberClosed(routes: set<Route>)
      modifies this`closedFilter, this`everClosed
      ensures everClosed == old(everClosed) + routes
      ensures old(closedFilter) <= closedFilter && forall route | route in routes :: filterBits(route) <= closedFilter
    {
      closedFilter := closedFilter + BitsOf(routes);
      everClosed := everClosed + routes;
    }

    function BitsOf(routes: set<Route>): (bits: set<nat>)
      ensures forall route | route in routes :: filterBits(route) <= bits
    {
      set route, bit | route in routes && bit in filterBits(route) :: bit
    }

    /** The sentinel of a close overflow: nothing of any route survives but a pending action. */
    method RevokeAll(overflow: Route)
      requires Valid()
      modifies this, session
      ensures Valid() && lifecycle == [] && replies == [] && ingress == [] && pendingAction == old(pendingAction)
      ensures forall l :: Leases()[l] <= old(Leases())[l]
      ensures forall i | 0 <= i < |active| :: active[i].None?
      ensures Session.LosesAllRoutes(old(session.Now()), session.Now())
    {
      hide IngressLeases, ReplyLeases, Session.PhaseSound, Session.PendingSound, Session.ReplaySound, Session.RoutesSound, AdvanceBy;
      hide Session.SpeakerAssetsSession.Valid, KnownRoutes, Session.LosesAllRoutes;
      RememberClosed(KnownRoutes(overflow));
      RevokeAllInSession();
      lifecycle, ingress, replies := [], [], [];
      active := seq(ACTIVE_ROUTES, _ => None);
      partialTimer, sessionTimer := None, None;
      NothingLeft();
    }

    method RevokeAllInSession()
      requires session.Valid()
      modifies session
      ensures session.Valid() && Session.LosesAllRoutes(old(session.Now()), session.Now())
      ensures session.pending.Some? <==> old(session.pending).Some?
      ensures session.pending.Some? ==> session.pending.value.token == old(session.pending).value.token
    {
      hide Session.SpeakerAssetsSession.Valid;
      session.AllRoutesClosed();
    }

    /** Taken only by the transport that was looking at exactly this reply. */
    method PopReplyIfSequence(sequence: u32) returns (popped: Option<Lease>)
      requires Valid()
      modifies this`replies
      ensures Valid()
      ensures popped.Some? <==> old(replies) != [] && old(replies)[0].sequence == sequence
      ensures popped.Some? ==> replies == old(replies)[1..] && popped.value == old(replies)[0].lease
      ensures popped.None? ==> replies == old(replies)
      ensures old(Leases()) == Leases() + (if popped.Some? then multiset{popped.value} else multiset{})
    {
      hide IngressLeases, Session.SpeakerAssetsSession.Valid;
      if replies == [] || replies[0].sequence != sequence { return None; }
      popped := Some(replies[0].lease);
      replies := replies[1..];
    }

    // ---------- One step ----------

    /** At most one lifecycle, protocol or executor unit. Closes come first; otherwise every
        lease stays where the owner can find it or is handed back. */
    method Step(now: u32, allowed: bool, executor: Option<Execution>) returns (r: StepResult, release: Option<Lease>)
      requires Valid()
      modifies this, session
      ensures Valid()
      ensures old(lifecycle) != [] ==>
                && release.None? && lifecycle == old(lifecycle)[1..]
                && (if old(lifecycle)[0].closing then Closes(old(Leases()), Leases(), old(lifecycle)[0].route) else Leases() == old(Leases()))
                && (old(lifecycle)[0].closing ==> Purged(old(lifecycle)[0].route))
                && pendingAction == old(pendingAction) && pendingLease == old(pendingLease)
                && (if old(lifecycle)[0].closing then Session.LosesRoute(old(session.Now()), old(lifecycle)[0].route, session.Now())
                    else session.Now() == old(session.Now()))
      ensures old(lifecycle) == [] && |ingress| == |old(ingress)| && pendingAction == old(pendingAction) ==>
                OnlyTimeouts(old(session.Now()), old(partialTimer), old(sessionTimer), session.Now())
      ensures old(lifecycle) == [] ==> lifecycle == [] && Conserves(old(Leases()), Leases(), release)
      ensures old(lifecycle) == [] && old(pendingAction).None? && old(ingress) != [] && |old(replies)| < REPLY_CAPACITY ==>
                |ingress| < |old(ingress)| || r.PartialExpired? || r.SessionLeaseExpired?
      ensures old(lifecycle) == [] && |ingress| < |old(ingress)| && old(pendingAction).None? ==>
                FrameLed(session.digest, old(session.Now()), old(ingress)[0].lease, Readable(old(ingress)[0], old(active)), allowed,
                         old(replies), replies, pendingAction, pendingLease, release, session.Now())
      ensures (r.ActionCompleted? || r.ExecutorRejected?) ==>
                && old(pendingAction).Some? && pendingAction.None? && executor.Some? && !executor.value.StillPending?
                && (r.ExecutorRejected? ==> executor.value.Rejected?)
                && Answered(old(session.Now()), CompletionOf(old(pendingAction).value, executor.value), session.Now(), old(pendingLease),
                            old(replies), replies, release)
    {
      hide IngressLeases, ReplyLeases, Session.SpeakerAssetsSession.Valid, Answered, FrameLed, Session.LosesRoute, Session.Expires;
      release := None;
      if lifecycle != [] {
        r := ProcessLifecycle();
        return;
      }
      var expired := ExpirePartials(now);
      if expired { return PartialExpired, None; }
      if pendingAction.Some? {
        r, release := ProcessPendingAction(now, allowed, executor);
        return;
      }
      expired := ExpireSessionLease(now);
      if expired { return SessionLeaseExpired, None; }
      if |replies| >= REPLY_CAPACITY { return ReplyBackpressure, None; }
      if ingress != [] {
        r, release := FrameStep(now, allowed);
        return;
      }
      r := StepIdle;
    }

    /** One frame, after which an assembly that it did not move may be overdue. */
    method FrameStep(now: u32, allowed: bool) returns (r: StepResult, release: Option<Lease>)
      requires Valid() && pendingAction.None? && ingress != [] && |replies| < REPLY_CAPACITY
      modifies this, session
      ensures Valid() && lifecycle == old(lifecycle) && |ingress| < |old(ingress)|
      ensures Conserves(old(Leases()), Leases(), release)
      ensures FrameLed(session.digest, old(session.Now()), old(ingress)[0].lease, Readable(old(ingress)[0], old(active)), allowed,
                       old(replies), replies, pendingAction, pendingLease, release, session.Now())
      ensures !r.ActionCompleted? && !r.ExecutorRejected?
    {
      hide ReplyLeases, IngressLeases, Session.SpeakerAssetsSession.Valid, Conserves, Retired, FrameLed, Aged;
      ghost var s := session.Now();
      r, release := ProcessIngress(now, allowed);
      if r.InvalidFrameDropped? || r.StaleRouteDropped? || r.SessionRejected? {
        var expired := ExpireAfterFrame(now);
        if expired { r := PartialExpired; }
        LedAged(session.digest, s, old(ingress)[0].lease, Readable(old(ingress)[0], old(active)), allowed, old(replies), replies,
                pendingAction, pendingLease, release, session.Now());
      }
    }

    method ProcessLifecycle() returns (r: StepResult)
      requires Valid() && lifecycle != []
      modifies this, session
      ensures Valid() && lifecycle == old(lifecycle)[1..]
      ensures r.LifecycleApplied? || r.RouteCapacityExceeded?
      ensures if old(lifecycle)[0].closing then Closes(old(Leases()), Leases(), old(lifecycle)[0].route) else Leases() == old(Leases())
      ensures old(lifecycle)[0].closing ==> Purged(old(lifecycle)[0].route)
      ensures pendingAction == old(pendingAction) && pendingLease == old(pendingLease)
      ensures if old(lifecycle)[0].closing then Session.LosesRoute(old(session.Now()), old(lifecycle)[0].route, session.Now())
              else session.Now() == old(session.Now())
    {
      hide IngressLeases, ReplyLeases, Session.SpeakerAssetsSession.Valid, Closes, Session.LosesRoute;
      var event := lifecycle[0];
      lifecycle := lifecycle[1..];
      if event.closing {
        CloseRoute(event.route);
        r := LifecycleApplied;
      } else {
        var ok := ActivateRoute(event.route);
        r := if ok then LifecycleApplied else RouteCapacityExceeded;
      }
    }

    /** A closed lifetime never comes back, however late a duplicate open arrives. */
    method ActivateRoute(route: Route) returns (ok: bool)
      requires Valid()
      modifies this`active
      ensures Valid()
      ensures ok <==> !(filterBits(route) <= closedFilter) && (old(RouteIsActive(route)) || None in old(active))
      ensures route in everClosed ==> !ok
      ensures ok ==> RouteIsActive(route) && forall other | Some(other) in old(active) :: Some(other) in active
      ensures !ok ==> active == old(active)
    {
      if filterBits(route) <= closedFilter { return false; }
      if RouteIsActive(route) { return true; }
      for i := 0 to |active|
        invariant active == old(active)
        invariant forall k | 0 <= k < i :: active[k].Some?
      {
        if active[i].None? {
          assert active[i] in active;
          active := active[i := Some(route)];
          assert active[i] in active;
          forall other | Some(other) in old(active) ensures Some(other) in active {
            var k :| 0 <= k < |old(active)| && old(active)[k] == Some(other);
            assert active[k] == Some(other);
          }
          return true;
        }
      }
      ok := false;
    }

    /** No queued frame or reply of this route is left. */
    ghost predicate Purged(route: Route)
      reads this`ingress, this`replies
    {
      forall x: Lease | x.route == route :: IngressLeases(ingress)[x] == 0 && ReplyLeases(replies)[x] == 0
    }

    method CloseRoute(route: Route)
      requires Valid()
      modifies this`closedFilter, this`everClosed, this`active, this`ingress, this`replies, this`partialTimer, this`sessionTimer, session
      ensures Valid() && !RouteIsActive(route) && route in everClosed
      ensures Closes(old(Leases()), Leases(), route)
      ensures Purged(route)
      ensures session.pending.Some? && session.pending.value.request.route == route ==> session.pending.value.orphaned
      ensures Session.LosesRoute(old(session.Now()), route, session.Now())
    {
      hide IngressLeases, ReplyLeases, RuntimeCore.Leases, Session.SpeakerAssetsSession.Valid, Closes, Session.LosesRoute;
      Deactivate(route);
      RevokeInSession(route);
      if sessionTimer.Some? && sessionTimer.value.route == route { sessionTimer := None; }
      if partialTimer.Some? && partialTimer.value.route == route { partialTimer := None; }
      PurgeRoute(route);
    }

    method PurgeRoute(route: Route)
      modifies this`ingress, this`replies
      ensures |ingress| <= |old(ingress)| && |replies| <= |old(replies)|
      ensures Closes(old(Leases()), Leases(), route)
      ensures Purged(route)
    {
      hide IngressLeases, ReplyLeases;
      ingress := IngressWithoutRoute(ingress, route);
      replies := RepliesWithoutRoute(replies, route);
    }

    method RevokeInSession(route: Route)
      requires session.Valid()
      modifies session
      ensures session.Valid()
      ensures session.pending.Some? <==> old(session.pending).Some?
      ensures session.pending.Some? ==> session.pending.value.token == old(session.pending).value.token
      ensures session.pending.Some? && session.pending.value.request.route == route ==> session.pending.value.orphaned
      ensures Session.LosesRoute(old(session.Now()), route, session.Now())
    {
      hide Session.SpeakerAssetsSession.Valid;
      session.RouteClosed(route);
    }

    method Deactivate(route: Route)
      requires Valid()
      modifies this`closedFilter, this`everClosed, this`active
      ensures Valid() && !RouteIsActive(route) && route in everClosed
    {
      hide IngressLeases, ReplyLeases, Session.SpeakerAssetsSession.Valid;
      RememberClosed({route});
      active := Without(active, route);
    }

    method ExpirePartials(now: u32) returns (expired: bool)
      requires Valid()
      modifies this`partialTimer, session
      ensures Valid() && session.pending == old(session.pending)
      ensures expired <==>
                && old(partialTimer).Some? && (forall item | item in ingress :: item.lease.route != old(partialTimer).value.route)
                && Elapsed(now, old(partialTimer).value.since, partialTimeout)
      ensures expired ==>
                && partialTimer.None?
                && !(session.phase.BeginAssembly? && session.plan.Some? && session.plan.value.owner == old(partialTimer).value.route)
                && !(session.phase.UnitAssembly? && session.binding.Some? && session.binding.value.route == old(partialTimer).value.route)
      ensures !expired ==> partialTimer == old(partialTimer) && session.Now() == old(session.Now())
      ensures expired ==> Session.Expires(old(session.Now()), old(partialTimer).value.route, session.Now())
    {
      hide IngressLeases, ReplyLeases, Session.SpeakerAssetsSession.Valid;
      if partialTimer.Some? && (forall item | item in ingress :: item.lease.route != partialTimer.value.route)
         && Elapsed(now, partialTimer.value.since, partialTimeout) {
        var _ := session.ExpirePartial(partialTimer.value.route);
        partialTimer := None;
        return true;
      }
      expired := false;
    }

    method ExpireAfterFrame(now: u32) returns (expired: bool)
      requires session.Valid()
      modifies this`partialTimer, session
      ensures session.Valid() && session.pending == old(session.pending)
      ensures old(partialTimer).None? ==> !expired && partialTimer.None?
      ensures Aged(old(session.Now()), session.Now()) && (!expired ==> session.Now() == old(session.Now()))
    {
      hide IngressLeases, ReplyLeases, Session.SpeakerAssetsSession.Valid;
      if partialTimer.None? || !Elapsed(now, partialTimer.value.since, partialTimeout) { return false; }
      expired := session.ExpirePartial(partialTimer.value.route);
      partialTimer := None;
      assert Session.Expires(old(session.Now()), old(partialTimer).value.route, session.Now());
    }

    method UpdatePartialTimer(route: Route, now: u32, progressed: bool)
      modifies this`partialTimer
      ensures session.phase.ActionPending? ==> partialTimer.None?
      ensures !session.phase.BeginAssembly? && !session.phase.UnitAssembly? ==> partialTimer.None?
      ensures partialTimer == old(partialTimer) || partialTimer.None? || (progressed && partialTimer == Some(Timer(route, now)))
      ensures session.phase.BeginAssembly? && progressed ==>
                partialTimer == if old(partialTimer).None? || old(partialTimer).value.route == route then Some(Timer(route, now)) else old(partialTimer)
      ensures session.phase.UnitAssembly? && progressed && session.binding.Some? && session.binding.value.route == route ==>
                partialTimer == Some(Timer(route, now))
    {
      if session.phase.BeginAssembly? {
        if progressed && (partialTimer.None? || partialTimer.value.route == route) { partialTimer := Some(Timer(route, now)); }
      } else if !session.phase.UnitAssembly? {
        partialTimer := None;
      } else if session.binding.Some? && session.binding.value.route == route && progressed {
        partialTimer := Some(Timer(route, now));
      }
    }

    /** Inactivity ends the binding, never a running action and never a route. */
    method ExpireSessionLease(now: u32) returns (expired: bool)
      requires Valid() && pendingAction.None?
      modifies this`partialTimer, this`sessionTimer, session
      ensures Valid() && session.pending.None?
      ensures expired <==>
                && old(sessionTimer).Some? && old(session.binding).Some?
                && old(session.binding).value.route == old(sessionTimer).value.route
                && (forall item | item in ingress :: item.lease.route != old(sessionTimer).value.route)
                && Elapsed(now, old(sessionTimer).value.since, sessionTimeout)
      ensures session.binding == if expired then None else old(session.binding)
      ensures expired ==> sessionTimer.None?
      ensures if expired then Session.LosesRoute(old(session.Now()), old(sessionTimer).value.route, session.Now())
              else session.Now() == old(session.Now())
    {
      hide IngressLeases, ReplyLeases, Session.SpeakerAssetsSession.Valid;
      if sessionTimer.None? { return false; }
      var route := sessionTimer.value.route;
      if session.binding.None? || session.binding.value.route != route {
        sessionTimer := None;
        return false;
      }
      if (exists item | item in ingress :: item.lease.route == route) || !Elapsed(now, sessionTimer.value.since, sessionTimeout) {
        return false;
      }
      session.RouteClosed(route);
      if partialTimer.Some? && partialTimer.value.route == route { partialTimer := None; }
      sessionTimer := None;
      assert old(session.binding).value.route == route;
      expired := true;
    }

    method RefreshSessionTimer(route: Route, cookie: u32, now: u32)
      modifies this`sessionTimer
      ensures sessionTimer == if session.binding.Some? && session.binding.value.cookie == cookie != 0 && session.binding.value.route == route
                              then Some(Timer(route, now)) else old(sessionTimer)
    {
      if cookie != 0 && session.binding.Some? && session.binding.value.cookie == cookie && session.binding.value.route == route {
        sessionTimer := Some(Timer(route, now));
      }
    }

    /** A queued action always finds room for its answer: nothing else is consumed meanwhile. */
    method ProcessPendingAction(now: u32, allowed: bool, executor: Option<Execution>) returns (r: StepResult, release: Option<Lease>)
      requires Valid() && pendingAction.Some?
      modifies this, session
      ensures Valid() && lifecycle == old(lifecycle)
      ensures Conserves(old(Leases()), Leases(), release)
      ensures r.Paused? <==> !allowed
      ensures r.ReplyBackpressure? <==> allowed && |old(replies)| >= REPLY_CAPACITY
      ensures r.ActionCompleted? <==>
                && allowed && |old(replies)| < REPLY_CAPACITY && executor.Some? && executor.value.Completed?
                && executor.value.completion.token == old(session.pending).value.token
                && executor.value.completion.kind == old(session.pending).value.kind
      ensures !r.ActionCompleted? && !r.ExecutorRejected? ==>
                pendingAction == old(pendingAction) && release.None? && replies == old(replies) && session.Now() == old(session.Now())
      ensures (r.ActionCompleted? || r.ExecutorRejected?) ==>
                && pendingAction.None? && executor.Some? && !executor.value.StillPending?
                && Answered(old(session.Now()), CompletionOf(old(pendingAction).value, executor.value), session.Now(), old(pendingLease),
                            old(replies), replies, release)
      ensures r.ExecutorRejected? ==> executor.value.Rejected?
    {
      hide IngressLeases, ReplyLeases, Session.SpeakerAssetsSession.Valid, Retired, Answered;
      release := None;
      if !allowed { return Paused, None; }
      if |replies| >= REPLY_CAPACITY { return ReplyBackpressure, None; }
      if executor.None? { return ExecutorUnavailable, None; }
      if executor.value.StillPending? { return ActionExecutionPending, None; }
      var ok;
      ok, release := CompleteAction(CompletionOf(pendingAction.value, executor.value), now);
      r := if !ok then SessionRejected else if executor.value.Rejected? then ExecutorRejected else ActionCompleted;
    }

    /** The session decides whether the completion is the one it waits for. */
    method CompleteAction(completion: Session.Completion, now: u32) returns (ok: bool, release: Option<Lease>)
      requires Valid() && pendingAction.Some? && |replies| < REPLY_CAPACITY
      modifies this`ingress, this`replies, this`nextReply, this`pendingAction, this`partialTimer, this`sessionTimer, session
      ensures Valid()
      ensures Conserves(old(Leases()), Leases(), release)
      ensures ok <==> completion.token == old(session.pending).value.token && completion.kind == old(session.pending).value.kind
      ensures !ok ==> release.None? && pendingAction == old(pendingAction) && replies == old(replies) && session.Now() == old(session.Now())
      ensures ok ==>
                && pendingAction.None?
                && Answered(old(session.Now()), completion, session.Now(), old(pendingLease), old(replies), replies, release)
    {
      hide Leases, Session.SpeakerAssetsSession.Valid, Conserves, Retired, Session.Completes;
      release := None;
      var lease := pendingLease;
      var reply;
      ok, reply := FinishPending(completion, now);
      if !ok {
        ConservedByMove(old(Leases()), Leases());
        return;
      }
      release := Deliver(lease, reply);
      if release.None? { ConservedByMove(old(Leases()), Leases()); }
      else { ConservedByRetire(old(Leases()), Leases(), lease); }
    }

    method FinishPending(completion: Session.Completion, now: u32) returns (ok: bool, reply: Option<Session.Reply>)
      requires Valid() && pendingAction.Some?
      modifies this`pendingAction, this`partialTimer, this`sessionTimer, session
      ensures Valid()
      ensures ok <==> completion.token == old(session.pending).value.token && completion.kind == old(session.pending).value.kind
      ensures !ok ==> Leases() == old(Leases()) && reply.None? && pendingAction == old(pendingAction) && session.Now() == old(session.Now())
      ensures ok ==> pendingAction.None? && Leases() == old(Leases()) - multiset{pendingLease} && pendingLease in old(Leases())
      ensures ok ==> (reply.None? <==> old(session.pending).value.orphaned)
      ensures Session.Completes(old(session.Now()), completion, Said(reply), session.Now())
    {
      hide IngressLeases, ReplyLeases, Session.SpeakerAssetsSession.Valid, Session.Completes;
      var route := pendingAction.value.route;
      ok, reply := CompleteInSession(completion);
      if !ok { return; }
      pendingAction := None;
      RestartTimers(route, now);
    }

    method Deliver(lease: Lease, reply: Option<Session.Reply>) returns (release: Option<Lease>)
      requires |replies| < REPLY_CAPACITY && nextReply != 0 && pendingAction.None?
      modifies this`ingress, this`replies, this`nextReply
      ensures |ingress| <= |old(ingress)| && nextReply != 0
      ensures reply.Some? ==>
                && release.None? && Leases() == old(Leases()) + multiset{lease}
                && replies == old(replies) + [RuntimeReply(old(nextReply), lease, reply.value)]
      ensures reply.None? ==> release == Some(lease) && replies == old(replies) && Retired(old(Leases()), Leases(), lease)
    {
      hide IngressLeases, ReplyLeases;
      release := None;
      if reply.Some? { PushReply(lease, reply.value); }
      else { release := Retire(lease); }
    }

    function Said(reply: Option<Session.Reply>): Session.Emission { if reply.Some? then Session.Replied(reply.value) else Session.Nothing }

    /** A live request gets an answer, an orphaned one none. */
    method CompleteInSession(completion: Session.Completion) returns (ok: bool, reply: Option<Session.Reply>)
      requires session.Valid() && session.pending.Some?
      modifies session
      ensures session.Valid()
      ensures ok <==> completion.token == old(session.pending).value.token && completion.kind == old(session.pending).value.kind
      ensures !ok ==> session.Now() == old(session.Now()) && reply.None?
      ensures ok ==> session.pending.None? && (reply.None? <==> old(session.pending).value.orphaned)
      ensures Session.Completes(old(session.Now()), completion, Said(reply), session.Now())
    {
      hide Session.SpeakerAssetsSession.Valid, Session.LookupReplay, Session.ContractMet, Session.Succeeds;
      var result, out := session.Complete(completion);
      ok := result.Ok?;
      reply := if out.Replied? then Some(out.reply) else None;
    }

    method RestartTimers(route: Route, now: u32)
      modifies this`partialTimer, this`sessionTimer
      ensures partialTimer.None? && (session.binding.None? ==> sessionTimer.None?)
      ensures session.binding.Some? && session.binding.value.route == route && session.binding.value.cookie != 0 ==>
                sessionTimer == Some(Timer(route, now))
    {
      partialTimer := None;
      if session.binding.Some? && session.binding.value.route == route {
        RefreshSessionTimer(route, session.binding.value.cookie, now);
      } else if session.binding.None? {
        sessionTimer := None;
      }
    }

    method PushReply(lease: Lease, reply: Session.Reply)
      requires |replies| < REPLY_CAPACITY && nextReply != 0
      modifies this`replies, this`nextReply
      ensures replies == old(replies) + [RuntimeReply(old(nextReply), lease, reply)] && nextReply == Advance(old(nextReply))
      ensures ReplyLeases(replies) == ReplyLeases(old(replies)) + multiset{lease}
    {
      ReplyAppend(replies, RuntimeReply(nextReply, lease, reply));
      replies := replies + [RuntimeReply(nextReply, lease, reply)];
      nextReply := Advance(nextReply);
    }

    /** No answer will come: whatever is queued under the same admission goes too. */
    method Retire(lease: Lease) returns (release: Option<Lease>)
      modifies this`ingress
      ensures release == Some(lease) && |ingress| <= |old(ingress)|
      ensures Retired(old(Leases()), Leases(), lease)
      ensures forall l :: IngressLeases(ingress)[l] == if l.id == lease.id then 0 else IngressLeases(old(ingress))[l]
    {
      ingress := IngressWithoutAdmission(ingress, lease.id);
      release := Some(lease);
    }

    method ProcessIngress(now: u32, allowed: bool) returns (r: StepResult, release: Option<Lease>)
      requires Valid() && pendingAction.None? && ingress != [] && |replies| < REPLY_CAPACITY
      modifies this, session
      ensures Valid() && lifecycle == old(lifecycle) && |ingress| < |old(ingress)|
      ensures Conserves(old(Leases()), Leases(), release)
      ensures FrameLed(session.digest, old(session.Now()), old(ingress)[0].lease, Readable(old(ingress)[0], old(active)), allowed,
                       old(replies), replies, pendingAction, pendingLease, release, session.Now())
      ensures release.Some? ==> session.Now() == old(session.Now())
      ensures r.InvalidFrameDropped? || r.StaleRouteDropped? || r.SessionRejected? ==> release.Some?
      ensures !r.ActionCompleted? && !r.ExecutorRejected?
    {
      hide ReplyLeases, IngressLeases, Session.SpeakerAssetsSession.Valid, Conserves, Retired, Handled;
      SameAge(session.Now());
      var item := PopIngress();
      assert Leases() == old(Leases()) - multiset{item.lease};
      r, release := HandleFrame(item, now, allowed);
      if release.Some? { ConservedByRetire(old(Leases()), Leases(), item.lease); }
      else { ConservedByMove(old(Leases()), Leases()); }
    }

    /** The frame in these bytes, if their route is open. */
    function Readable(item: Ingress, open: seq<Option<Route>>): Option<Session.Frame> {
      if Some(item.lease.route) in open then decode(item.lease.route, item.bytes) else None
    }

    method PopIngress() returns (item: Ingress)
      requires Valid() && ingress != []
      modifies this`ingress
      ensures Valid() && item == old(ingress)[0] && ingress == old(ingress)[1..]
      ensures old(Leases()) == Leases() + multiset{item.lease}
    {
      hide ReplyLeases, Session.SpeakerAssetsSession.Valid;
      item := ingress[0];
      ingress := ingress[1..];
    }

    method HandleFrame(item: Ingress, now: u32, allowed: bool) returns (r: StepResult, release: Option<Lease>)
      requires Valid() && pendingAction.None? && |replies| < REPLY_CAPACITY
      modifies this, session
      ensures Valid() && lifecycle == old(lifecycle)
      ensures |ingress| <= |old(ingress)|
      ensures release.None? ==> Leases() == old(Leases()) + multiset{item.lease}
      ensures release.Some? ==> release == Some(item.lease) && Retired(old(Leases()), Leases(), item.lease)
      ensures r.StaleRouteDropped? <==> !old(RouteIsActive(item.lease.route))
      ensures r.InvalidFrameDropped? <==> old(RouteIsActive(item.lease.route)) && decode(item.lease.route, item.bytes).None?
      ensures r.StaleRouteDropped? || r.InvalidFrameDropped? ==>
                release.Some? && replies == old(replies) && pendingAction.None?
      ensures r.SessionRejected? ==> release.Some?
      ensures release.Some? ==> session.Now() == old(session.Now())
      ensures var frame := decode(item.lease.route, item.bytes);
              !r.StaleRouteDropped? && frame.Some? ==>
                Handled(session.digest, old(session.Now()), item.lease, frame.value, allowed, old(replies), replies, pendingAction, pendingLease,
                        release, session.Now())
      ensures !r.ActionCompleted? && !r.ExecutorRejected?
    {
      hide ReplyLeases, IngressLeases, Session.SpeakerAssetsSession.Valid, Handled;
      if !RouteIsActive(item.lease.route) {
        release := Retire(item.lease);
        return StaleRouteDropped, release;
      }
      var frame := decode(item.lease.route, item.bytes);
      if frame.None? {
        release := Retire(item.lease);
        return InvalidFrameDropped, release;
      }
      r, release := ConsumeFrame(item.lease, frame.value, now, allowed);
    }

    /** The popped frame's lease moves to a reply or to the pending action, or is retired. */
    method ConsumeFrame(lease: Lease, frame: Session.Frame, now: u32, allowed: bool) returns (r: StepResult, release: Option<Lease>)
      requires Valid() && pendingAction.None? && |replies| < REPLY_CAPACITY
      modifies this, session
      ensures Valid() && lifecycle == old(lifecycle) && |ingress| <= |old(ingress)|
      ensures release.None? ==> Leases() == old(Leases()) + multiset{lease}
      ensures release.None? ==>
                if pendingAction.Some? then pendingLease == lease && replies == old(replies)
                else
                  && |replies| == |old(replies)| + 1 && old(replies) <= replies && replies[|old(replies)|].lease == lease
                  && replies[|old(replies)|].reply.requestId == frame.requestId
      ensures release.None? ==> (r.ActionQueued? <==> pendingAction.Some?)
      ensures release.Some? ==> release == Some(lease) && Retired(old(Leases()), Leases(), lease)
      ensures release.Some? ==> replies == old(replies) && pendingAction.None?
      ensures HeldBack(frame, allowed) ==> release.None? && pendingAction.None? && replies[|old(replies)|].reply.status.PausedForInput?
      ensures Handled(session.digest, old(session.Now()), lease, frame, allowed, old(replies), replies, pendingAction, pendingLease, release, session.Now())
      ensures release.Some? ==> session.Now() == old(session.Now())
      ensures r.SessionRejected? ==> release.Some?
      ensures !HeldBack(frame, allowed) ==>
                (release.Some? <==> !Session.RouteValid(lease.route) || frame.requestId == 0 || |frame.body| > Session.WIFI_BODY)
      ensures !r.ActionCompleted? && !r.ExecutorRejected? && !r.StaleRouteDropped? && !r.InvalidFrameDropped?
    {
      hide RuntimeCore.Leases, IngressLeases, ReplyLeases, Session.SpeakerAssetsSession.Valid, Session.RouteValid, Retired, Takes, Aged, Session.TakesFrame,
           HeldBack;
      SameAge(session.Now());
      RefreshSessionTimer(lease.route, frame.cookie, now);
      if HeldBack(frame, allowed) {
        r := HoldBack(lease, frame, now);
        return r, None;
      }
      r, release := AnswerFrame(lease, frame, now);
    }

    /** The session's answer, or its action, takes the lease over. */
    method AnswerFrame(lease: Lease, frame: Session.Frame, now: u32) returns (r: StepResult, release: Option<Lease>)
      requires Valid() && pendingAction.None? && |replies| < REPLY_CAPACITY
      modifies this, session
      ensures Valid() && lifecycle == old(lifecycle) && |ingress| <= |old(ingress)|
      ensures release.None? ==> Leases() == old(Leases()) + multiset{lease} && (r.ActionQueued? <==> pendingAction.Some?)
      ensures release.None? ==>
                && Takes(session.digest, old(session.Now()), lease.route, frame, Led(old(replies), replies, pendingAction), session.Now())
                && if pendingAction.Some? then pendingLease == lease && replies == old(replies)
                   else Queues(old(replies), replies, lease) && replies[|old(replies)|].reply.requestId == frame.requestId
      ensures release.Some? ==>
                && release == Some(lease) && Retired(old(Leases()), Leases(), lease)
                && replies == old(replies) && pendingAction.None? && session.Now() == old(session.Now())
      ensures release.Some? <==> r.SessionRejected?
      ensures release.Some? <==> !Session.RouteValid(lease.route) || frame.requestId == 0 || |frame.body| > Session.WIFI_BODY
      ensures !r.ActionCompleted? && !r.ExecutorRejected? && !r.StaleRouteDropped? && !r.InvalidFrameDropped?
    {
      hide RuntimeCore.Leases, IngressLeases, ReplyLeases, Session.SpeakerAssetsSession.Valid, Session.RouteValid, Retired, Takes,
           Session.TakesFrame;
      release := None;
      var result, out, expired := ConsumeTwice(lease.route, frame, now);
      if !result.Ok? {
        release := Retire(lease);
        return SessionRejected, release;
      }
      Place(lease, out);
      assert Led(old(replies), replies, pendingAction) == out;
      r := if out.Acted? then ActionQueued else if expired then PartialExpired else ReplyQueued;
    }

    /** The lease goes where the answer will come from. */
    method Place(lease: Lease, out: Session.Emission)
      requires pendingAction.None? && |replies| < REPLY_CAPACITY && nextReply != 0 && !out.Nothing?
      modifies this`replies, this`nextReply, this`pendingAction, this`pendingLease
      ensures Leases() == old(Leases()) + multiset{lease} && nextReply != 0
      ensures pendingAction == if out.Acted? then Some(out.action) else None
      ensures out.Acted? ==> pendingLease == lease && replies == old(replies)
      ensures out.Replied? ==> replies == old(replies) + [RuntimeReply(old(nextReply), lease, out.reply)]
    {
      hide IngressLeases, ReplyLeases;
      if out.Replied? { PushReply(lease, out.reply); } else { PlaceAction(lease, out.action); }
    }

    method PlaceAction(lease: Lease, action: Session.Action)
      requires pendingAction.None?
      modifies this`pendingAction, this`pendingLease
      ensures pendingAction == Some(action) && pendingLease == lease
      ensures Leases() == old(Leases()) + multiset{lease}
    {
      hide IngressLeases, ReplyLeases;
      ghost var others := IngressLeases(ingress) + ReplyLeases(replies);
      assert Leases() == others;
      pendingAction, pendingLease := Some(action), lease;
      assert Leases() == others + multiset{lease};
    }

    method HoldBack(lease: Lease, frame: Session.Frame, now: u32) returns (r: StepResult)
      requires Valid() && pendingAction.None? && |replies| < REPLY_CAPACITY
      modifies this`partialTimer, this`replies, this`nextReply, session
      ensures Valid()
      ensures Leases() == old(Leases()) + multiset{lease}
      ensures |replies| == |old(replies)| + 1 && old(replies) <= replies
      ensures replies[|old(replies)|].lease == lease && replies[|old(replies)|].reply.status.PausedForInput?
      ensures replies[|old(replies)|].reply == Session.Reply(frame.opcode, Session.PausedForInput, frame.requestId, frame.cookie, frame.offset, Session.NoBody)
      ensures Aged(old(session.Now()), session.Now()) && nextReply != 0
      ensures r.PartialExpired? || r.ReplyQueued?
    {
      hide IngressLeases, ReplyLeases, Session.SpeakerAssetsSession.Valid, Aged;
      if partialTimer.Some? && partialTimer.value.route == lease.route { partialTimer := Some(Timer(lease.route, now)); }
      PushReply(lease, Session.StatusReply(frame.opcode, frame.requestId, frame.offset, Session.PausedForInput, frame.cookie));
      var late := ExpireAfterFrame(now);
      r := if late then PartialExpired else ReplyQueued;
    }

    /** A frame that finds an overdue assembly is answered from the state after its expiry. */
    method ConsumeTwice(route: Route, frame: Session.Frame, now: u32)
      returns (result: Session.SessionResult, out: Session.Emission, expired: bool)
      requires Valid() && pendingAction.None?
      modifies this`partialTimer, this`sessionTimer, session
      ensures session.Valid()
      ensures result.Ok? <==> Session.RouteValid(route) && frame.requestId != 0 && |frame.body| <= Session.WIFI_BODY
      ensures result.Ok? || session.pending.None?
      ensures result.Ok? ==> !out.Nothing? && Takes(session.digest, old(session.Now()), route, frame, out, session.Now())
      ensures !result.Ok? ==> session.Now() == old(session.Now())
      ensures result.Ok? && out.Replied? ==> session.pending.None? && out.reply.requestId == frame.requestId
      ensures result.Ok? && out.Acted? ==> session.pending.Some? && session.pending.value.token == out.action.token && out.action.route == route
    {
      hide IngressLeases, ReplyLeases, Session.SpeakerAssetsSession.Valid, AdvanceBy, Aged, Session.TakesFrame, Takes;
      expired := false;
      ghost var s := session.Now();
      var before := session.activity;
      result, out := session.Consume(route, frame);
      ghost var u := session.Now();
      TakenOnce(session.digest, s, route, frame, out, u);
      if !result.Ok? { return; }
      session.PhaseTellsPending();
      if session.binding.None? { sessionTimer := None; }
      var progressed := session.activity != before;
      UpdatePartialTimer(route, now, progressed);
      if progressed { return; }
      ghost var first := out;
      expired := ExpireAfterFrame(now);
      if !expired { return; }
      before := session.activity;
      ghost var v := session.Now();
      result, out := session.Consume(route, frame);
      TakenTwice(session.digest, s, route, frame, first, u, v, out, session.Now());
      UpdatePartialTimer(route, now, session.activity != before);
    }

    /** Every route anything here still belongs to. */
    function KnownRoutes(overflow: Route): set<Route>
      reads this, session
    {
      (if Session.RouteValid(overflow) then {overflow} else {})
      + (set event | event in lifecycle :: event.route) + (set item | item in ingress :: item.lease.route)
      + (set reply | reply in replies :: reply.lease.route)
      + (set slot: Option<Route> | slot in active && slot.Some? :: slot.value)
      + (if session.binding.Some? then {session.binding.value.route} else {})
      + (if pendingAction.Some? then {pendingAction.value.route} else {})
      + (if partialTimer.Some? then {partialTimer.value.route} else {})
    }
  }

  /** The session took the completion. What it says to a live request is queued under the
      lease of that request; an orphaned one gave its lease back. */
  predicate Answered(s: Session.State, c: Session.Completion, t: Session.State, lease: Lease,
                     before: seq<RuntimeReply>, after: seq<RuntimeReply>, release: Option<Lease>) {
    && s.pending.Some? && c.token == s.pending.value.token && c.kind == s.pending.value.kind
    && if s.pending.value.orphaned then
         release == Some(lease) && after == before && Session.Completes(s, c, Session.Nothing, t)
       else release.None? && Queues(before, after, lease) && Session.Completes(s, c, Session.Replied(after[|before|].reply), t)
  }

  /** Without a frame or a completion time alone changes the session, and only by the timer
      that ran out. */
  predicate OnlyTimeouts(s: Session.State, partial: Option<Timer>, idle: Option<Timer>, t: Session.State) {
    || t == s
    || (partial.Some? && Session.Expires(s, partial.value.route, t))
    || (idle.Some? && Session.LosesRoute(s, idle.value.route, t))
  }

  /** One reply more, under this lease. */
  predicate Queues(before: seq<RuntimeReply>, after: seq<RuntimeReply>, lease: Lease) {
    |after| == |before| + 1 && before <= after && after[|before|].lease == lease
  }

  /** What a client finds queued after a completion: a success exactly when the store had one
      and it was believed, under the request it had sent; otherwise the class of the error. */
  lemma QueuedMeans(s: Session.State, c: Session.Completion, t: Session.State, lease: Lease,
                    before: seq<RuntimeReply>, after: seq<RuntimeReply>, release: Option<Lease>)
    requires Answered(s, c, t, lease, before, after, release) && !s.pending.value.orphaned
    ensures var p, reply := s.pending.value, after[|before|].reply;
            && reply.requestId == p.request.requestId && reply.opcode == p.request.opcode
            && (reply.status.Fine? <==> c.result.Ok? && Session.ContractMet(c, p, s.decodedPlan, s.ProgressNow()))
            && (!c.result.Ok? ==> reply.status == Session.StatusOf(c.result))
            && (c.result.HashMismatch? ==> reply.status.IntegrityError?)
  {
    hide Session.ContractMet, Session.Succeeds;
  }

  /** What the executor's outcome is to the session: its completion, or an unavailable store. */
  function CompletionOf(action: Session.Action, execution: Execution): Session.Completion
    requires !execution.StillPending?
  {
    if execution.Completed? then execution.completion
    else Session.Completion(action.token, action.kind, SoundFormat.StoreResult.Unavailable, None, None, None, 0, 0, None)
  }

  /** What the session said to a frame, seen from where its lease went. */
  function Led(before: seq<RuntimeReply>, after: seq<RuntimeReply>, action: Option<Session.Action>): Session.Emission {
    if action.Some? then Session.Acted(action.value)
    else if |after| > |before| then Session.Replied(after[|before|].reply)
    else Session.Nothing
  }

  /** Nothing happened but, perhaps, the expiry of an overdue assembly. */
  ghost predicate Aged(s: Session.State, t: Session.State) { s == t || exists route :: Session.Expires(s, route, t) }

  /** The frame was taken, or taken once more after an assembly it did not move had expired. */
  ghost predicate Takes(digest: Session.Fingerprint, s: Session.State, route: Route, frame: Session.Frame, out: Session.Emission, t: Session.State) {
    || Session.TakesFrame(digest, s, route, frame, out, t)
    || exists first, u, v ::
         Session.TakesFrame(digest, s, route, frame, first, u) && Aged(u, v) && Session.TakesFrame(digest, v, route, frame, out, t)
  }

  lemma TakenOnce(digest: Session.Fingerprint, s: Session.State, route: Route, frame: Session.Frame, out: Session.Emission, t: Session.State)
    requires Session.TakesFrame(digest, s, route, frame, out, t)
    ensures Takes(digest, s, route, frame, out, t)
    ensures !Session.FrameAdmissible(route, frame) ==> out.Nothing? && t == s && Aged(s, t)
  {
    hide Session.Expires, Session.Consumes, Session.Serves, Session.FrameAdmissible;
  }

  lemma TakenTwice(digest: Session.Fingerprint, s: Session.State, route: Route, frame: Session.Frame, first: Session.Emission,
                   u: Session.State, v: Session.State, out: Session.Emission, t: Session.State)
    requires Session.TakesFrame(digest, s, route, frame, first, u) && Aged(u, v) && Session.TakesFrame(digest, v, route, frame, out, t)
    ensures Takes(digest, s, route, frame, out, t)
  {
    hide Session.TakesFrame, Aged;
  }

  /** Where one frame of an open route leads while no action runs: to exactly the reply or
      the action of the session, under the lease it came with, or back out with that lease. */
  ghost predicate Handled(digest: Session.Fingerprint, s: Session.State, lease: Lease, frame: Session.Frame, allowed: bool,
                          before: seq<RuntimeReply>, after: seq<RuntimeReply>, action: Option<Session.Action>, actionLease: Lease,
                          release: Option<Lease>, t: Session.State) {
    if HeldBack(frame, allowed) then
      && release.None? && action.None? && Queues(before, after, lease) && Aged(s, t)
      && after[|before|].reply == Session.Reply(frame.opcode, Session.PausedForInput, frame.requestId, frame.cookie, frame.offset, Session.NoBody)
    else
      && (if action.Some? then actionLease == lease && after == before && release.None?
          else if release.Some? then release == Some(lease) && after == before
          else Queues(before, after, lease))
      && if release.Some? then !Session.FrameAdmissible(lease.route, frame) && Aged(s, t)
         else Takes(digest, s, lease.route, frame, Led(before, after, action), t)
  }

  /** A frame of a closed route or of no meaning leaves with its lease; any other leads where
      the session says. */
  ghost predicate FrameLed(digest: Session.Fingerprint, s: Session.State, lease: Lease, frame: Option<Session.Frame>, allowed: bool,
                           before: seq<RuntimeReply>, after: seq<RuntimeReply>, action: Option<Session.Action>, actionLease: Lease,
                           release: Option<Lease>, t: Session.State) {
    if frame.None? then release == Some(lease) && after == before && action.None? && Aged(s, t)
    else Handled(digest, s, lease, frame.value, allowed, before, after, action, actionLease, release, t)
  }

  lemma LedAged(digest: Session.Fingerprint, s: Session.State, lease: Lease, frame: Option<Session.Frame>, allowed: bool,
                before: seq<RuntimeReply>, after: seq<RuntimeReply>, action: Option<Session.Action>, actionLease: Lease,
                release: Option<Lease>, t: Session.State)
    requires FrameLed(digest, s, lease, frame, allowed, before, after, action, actionLease, release, s)
    requires release.Some? && Aged(s, t)
    ensures FrameLed(digest, s, lease, frame, allowed, before, after, action, actionLease, release, t)
  {
    hide Aged, Takes, Session.FrameAdmissible;
  }

  lemma SameAge(s: Session.State)
    ensures Aged(s, s)
  {
  }

  /** While the owner is paused only a capability query is looked at. */
  predicate HeldBack(frame: Session.Frame, allowed: bool) { !allowed && !frame.opcode.Capabilities? && !frame.opcode.UnknownOpcode? }

  /** A paused owner answers capability queries and unknown requests; every other request is
      told to wait, whatever the session is doing, and acts on nothing. A permitted one goes
      to the session. */
  lemma PausedMeans(digest: Session.Fingerprint, s: Session.State, lease: Lease, frame: Session.Frame, allowed: bool,
                    before: seq<RuntimeReply>, after: seq<RuntimeReply>, action: Option<Session.Action>, actionLease: Lease,
                    release: Option<Lease>, t: Session.State)
    requires Handled(digest, s, lease, frame, allowed, before, after, action, actionLease, release, t)
    ensures match frame.opcode
            case Capabilities => true
            case UnknownOpcode => true
            case _ => !allowed ==>
                        && action.None? && release.None? && |after| == |before| + 1 && t.pending == s.pending && t.replay == s.replay
                        && after[|before|].reply.status.PausedForInput? && after[|before|].reply.requestId == frame.requestId
    ensures allowed && release.None? ==> Takes(digest, s, lease.route, frame, Led(before, after, action), t)
  {
    hide Takes, Session.FrameAdmissible;
  }

  /** The millisecond counter may wrap between two readings. */
  lemma ElapsedAcrossWrap(since: u32, passed: nat, interval: u32)
    requires passed < 0x1_0000_0000
    ensures Elapsed((since + passed) % 0x1_0000_0000, since, interval) <==> passed >= interval
  {
  }

  /** Leases stay, except the one handed back, which leaves with its whole admission. */
  ghost predicate Conserves(before: multiset<Lease>, after: multiset<Lease>, release: Option<Lease>) {
    match release
    case None => after == before
    case Some(l) => l in before && Retired(before - multiset{l}, after, l) && after[l] < before[l]
  }

  ghost predicate Retired(before: multiset<Lease>, after: multiset<Lease>, l: Lease) {
    forall x :: after[x] <= before[x] && (x.id != l.id ==> after[x] == before[x])
  }

  /** Only leases of the closed route disappear. */
  ghost predicate Closes(before: multiset<Lease>, after: multiset<Lease>, route: Route) {
    forall x :: after[x] <= before[x] && (x.route != route ==> after[x] == before[x])
  }

  lemma ConservedByRetire(before: multiset<Lease>, after: multiset<Lease>, l: Lease)
    requires l in before && Retired(before - multiset{l}, after, l)
    ensures Conserves(before, after, Some(l))
  {
    assert after[l] <= (before - multiset{l})[l];
  }

  lemma ConservedByMove(before: multiset<Lease>, after: multiset<Lease>)
    requires before == after
    ensures Conserves(before, after, None)
  {
  }

  lemma NothingLeft()
    ensures IngressLeases([]) == multiset{} && ReplyLeases([]) == multiset{}
  {
  }
}
