/** Mailbox, owner and transport workers together: where the one admission lease is. */
module Supervisor {
  import opened Bytes
  import opened Runtime
  import Session
  import SoundFormat

  predicate IssuedBelow(l: Lease, next: u64) { l.id != 0 && (next == 0 || l.id < next) }

  /** Every lease is in one place only, and ids never repeat. */
  ghost predicate PlacesSound(places: multiset<Lease>, next: u64) {
    && (forall l | l in places :: places[l] == 1 && IssuedBelow(l, next))
    && forall a, b | a in places && b in places && a.id == b.id :: a == b
  }

  /** The reservation is held in exactly one place, unless it was lost. */
  ghost predicate Held(places: multiset<Lease>, reserved: Option<Lease>, lost: bool, next: u64) {
    reserved.Some? ==>
      && IssuedBelow(reserved.value, next)
      && (forall l | l in places && l.id == reserved.value.id :: l == reserved.value)
      && (reserved.value in places <==> !lost)
  }

  /** What the mailbox says about the reservation, whether a close of its route was on its way
      to the owner when it was admitted, and whether its lease has been lost since. */
  datatype Desk = Desk(data: multiset<Lease>, reserved: Option<Lease>, next: u64, exposed: bool, lost: bool)

  /** Leases on the owner's side, closes it still has to apply, and the record in its hand. */
  datatype Owner = Owner(places: multiset<Lease>, lifecycle: seq<Lifecycle>, hand: Option<Record>)

  /** A close of this route has left the mailbox and is not applied yet. */
  predicate CloseUnderWay(owner: Owner, route: Route) {
    owner.hand == Some(CloseRecord(route)) || Lifecycle(true, route) in owner.lifecycle
  }

  ghost predicate Sound(desk: Desk, owner: Owner) {
    && PlacesSound(desk.data + owner.places, desk.next)
    && Held(desk.data + owner.places, desk.reserved, desk.lost, desk.next)
    && (desk.reserved.Some? && (desk.lost || CloseUnderWay(owner, desk.reserved.value.route)) ==> desk.exposed)
    && (owner.hand.Some? && owner.hand.value.FrameRecord? ==> FrameFits(owner.hand.value))
    && (owner.hand.Some? && owner.hand.value.CloseAllRecord? && desk.reserved.Some? ==> desk.reserved.value !in owner.places)
  }

  lemma NothingInHand()
    ensures HandLease(None) == multiset{}
  {
  }

  lemma NothingIsSound()
    ensures Sound(Desk(multiset{}, None, 1, false, false), Owner(multiset{}, [], None))
  {
  }

  function HandLease(hand: Option<Record>): multiset<Lease> {
    if hand.Some? && hand.value.FrameRecord? then multiset{hand.value.lease} else multiset{}
  }

  /** Fewer places are still sound. */
  lemma Fewer(desk: Desk, owner: Owner, desk2: Desk, owner2: Owner)
    requires Sound(desk, owner) && desk2.next == desk.next
    requires desk2.reserved == desk.reserved || desk2.reserved.None?
    requires forall l :: (desk2.data + owner2.places)[l] <= (desk.data + owner.places)[l]
    requires desk2.reserved.Some? ==> (desk2.lost <==> desk2.reserved.value !in desk2.data + owner2.places)
    ensures PlacesSound(desk2.data + owner2.places, desk2.next)
    ensures Held(desk2.data + owner2.places, desk2.reserved, desk2.lost, desk2.next)
  {
    var before, after := desk.data + owner.places, desk2.data + owner2.places;
    forall l | l in after ensures l in before && after[l] == 1 { assert after[l] <= before[l]; }
  }

  // ---------- What each event does to the picture ----------

  lemma FrameAdmitted(desk: Desk, owner: Owner, lease: Lease)
    requires Sound(desk, owner) && desk.reserved.None? && desk.next != 0 && lease.id == desk.next
    ensures lease !in desk.data + owner.places
    ensures Sound(Desk(desk.data + multiset{lease}, Some(lease), if desk.next == MAX_ADMISSION then 0 else desk.next + 1,
                       CloseUnderWay(owner, lease.route), false), owner)
  {
    var before := desk.data + owner.places;
    var after := desk.data + multiset{lease} + owner.places;
    assert lease !in before;
    assert after == before + multiset{lease};
  }

  lemma LaterIds(desk: Desk, owner: Owner, later: u64)
    requires Sound(desk, owner)
    requires later == desk.next || (desk.next != 0 && later == if desk.next == MAX_ADMISSION then 0 else desk.next + 1)
    ensures Sound(desk.(next := later), owner)
  {
  }

  lemma RouteClosed(desk: Desk, owner: Owner, desk2: Desk)
    requires Sound(desk, owner) && desk2.next == desk.next && desk2.exposed == desk.exposed && desk2.lost == desk.lost
    requires desk2.reserved == desk.reserved || desk2.reserved.None?
    requires forall l :: desk2.data[l] <= desk.data[l]
    requires desk2.reserved.Some? ==> forall l :: desk2.data[l] == desk.data[l]
    ensures Sound(desk2, owner)
  {
    if desk2.reserved.Some? { assert desk2.data + owner.places == desk.data + owner.places; }
    Fewer(desk, owner, desk2, owner);
  }

  lemma RecordTaken(desk: Desk, owner: Owner, data: multiset<Lease>, record: Record, due: seq<Lease>, core: multiset<Lease>)
    requires Sound(desk, owner) && owner.hand.None? && owner.places == HandLease(None) + multiset(due) + core
    requires desk.data == data + HandLease(Some(record))
    requires record.CloseRecord? && desk.reserved.Some? ==> record.route != desk.reserved.value.route
    requires record.FrameRecord? ==> FrameFits(record)
    requires record.CloseAllRecord? ==> desk.reserved.None?
    ensures Sound(desk.(data := data), Owner(HandLease(Some(record)) + multiset(due) + core, owner.lifecycle, Some(record)))
    ensures data + (HandLease(Some(record)) + multiset(due) + core) == desk.data + owner.places
  {
    assert data + (HandLease(Some(record)) + multiset(due) + core) == desk.data + owner.places;
  }

  lemma HandFits(desk: Desk, owner: Owner)
    requires Sound(desk, owner) && owner.hand.Some?
    ensures owner.hand.value.FrameRecord? ==> FrameFits(owner.hand.value)
  {
  }

  /** Importing moves a frame, adds a lifecycle event, or applies the global close. */
  lemma RecordImported(desk: Desk, owner: Owner, owner2: Owner)
    requires Sound(desk, owner) && owner.hand.Some?
    requires owner2.hand == owner.hand || owner2.hand.None?
    requires !owner.hand.value.CloseAllRecord? ==> owner2.places == owner.places
    requires owner.hand.value.CloseAllRecord? ==> owner2.hand.None? && forall l :: owner2.places[l] <= owner.places[l]
    requires forall event | event in owner2.lifecycle && event.closing ::
               event in owner.lifecycle || (owner.hand.value.CloseRecord? && event.route == owner.hand.value.route)
    ensures Sound(desk, owner2)
    ensures desk.reserved.Some? ==> (desk.reserved.value in desk.data + owner.places <==> desk.reserved.value in desk.data + owner2.places)
  {
    if desk.reserved.Some? {
      assert desk.reserved.value in desk.data + owner.places <==> desk.reserved.value in desk.data + owner2.places by {
        assert owner2.places[desk.reserved.value] <= owner.places[desk.reserved.value];
      }
    }
    Fewer(desk, owner, desk, owner2);
  }

  /** The close of a route removes the leases of that route that are in queues. */
  function AfterClose(owned: multiset<Lease>, queued: multiset<Lease>, route: Option<Route>, l: Lease): int {
    var had: int, gone: int := owned[l], queued[l];
    if route == Some(l.route) then had - gone else had
  }

  /** A step moves leases or hands one back; what it loses are the queued leases of the route
      it closes. */
  lemma OwnerStepped(desk: Desk, owner: Owner, lifecycle: seq<Lifecycle>, was: seq<Lease>, queued: multiset<Lease>,
                     owned: multiset<Lease>, core: multiset<Lease>, release: Option<Lease>, route: Option<Route>)
    requires Sound(desk, owner) && owner.places == HandLease(owner.hand) + multiset(was) + owned && queued <= owned
    requires forall event | event in lifecycle :: event in owner.lifecycle
    requires route.Some? ==> release.None? && Lifecycle(true, route.value) in owner.lifecycle
    requires route.Some? ==> forall l :: core[l] == AfterClose(owned, queued, route, l)
    requires route.None? ==> Conserves(owned, core, release)
    ensures var before, after := desk.data + owner.places, desk.data + (HandLease(owner.hand) + multiset(AfterDue(was, release)) + core);
            && var lost := desk.lost || (desk.reserved.Some? && route == Some(desk.reserved.value.route) && desk.reserved.value in queued);
            && Sound(desk.(lost := lost), Owner(HandLease(owner.hand) + multiset(AfterDue(was, release)) + core, lifecycle, owner.hand))
            && forall l :: after[l] == if route == Some(l.route) && l in queued then 0 else before[l]
  {
    var others := HandLease(owner.hand) + multiset(was);
    if release.Some? { HandedBack(desk, owner, others, owned, core, release.value); }
    var before, after := desk.data + owner.places, desk.data + (HandLease(owner.hand) + multiset(AfterDue(was, release)) + core);
    forall l ensures after[l] == if route == Some(l.route) && l in queued then 0 else before[l] {
      if l in queued {
        assert owned[l] >= queued[l] >= 1;
        assert l in before && before[l] == 1;
      }
    }
    var lost := desk.lost || (desk.reserved.Some? && route == Some(desk.reserved.value.route) && desk.reserved.value in queued);
    Fewer(desk, owner, desk.(lost := lost), Owner(HandLease(owner.hand) + multiset(AfterDue(was, release)) + core, lifecycle, owner.hand));
  }

  function AfterDue(was: seq<Lease>, release: Option<Lease>): seq<Lease> {
    if release.Some? then was + [release.value] else was
  }

  lemma HandedBack(desk: Desk, owner: Owner, others: multiset<Lease>, owned: multiset<Lease>, core: multiset<Lease>, r: Lease)
    requires Sound(desk, owner) && owner.places == others + owned
    requires Conserves(owned, core, Some(r))
    ensures core + multiset{r} == owned
  {
    var all := desk.data + owner.places;
    assert r in all;
    assert owned[r] <= all[r] == 1;
    forall l ensures (core + multiset{r})[l] == owned[l] {
      if l != r && l.id == r.id { assert l !in all; }
    }
  }

  /** Compare and release. */
  lemma LeaseReturned(desk: Desk, owner: Owner, was: seq<Lease>, core: multiset<Lease>, desk2: Desk)
    requires Sound(desk, owner) && was != [] && owner.places == HandLease(owner.hand) + multiset(was) + core
    requires desk2 == if desk.reserved == Some(was[0]) then desk.(reserved := None, data := multiset{}) else desk
    ensures Sound(desk2, owner.(places := HandLease(owner.hand) + multiset(was[1..]) + core))
  {
    assert was == [was[0]] + was[1..];
    var all, places := desk.data + owner.places, HandLease(owner.hand) + multiset(was[1..]) + core;
    assert owner.places == places + multiset{was[0]};
    assert was[0] in all;
    Fewer(desk, owner, desk2, owner.(places := places));
  }

  class ResourceSupervisor {
    const mailbox: RuntimeMailbox
    const core: RuntimeCore
    /** A record taken from the mailbox and not yet imported; leases still to be handed back. */
    var hand: Option<Record>
    var toRelease: seq<Lease>
    /** Of the latest admission: a close of its route was under way; its lease is lost. */
    ghost var exposed: bool
    ghost var lost: bool

    ghost function DeskNow(): Desk
      reads this, mailbox
    {
      Desk(DataLeases(mailbox.data), mailbox.reserved, mailbox.nextAdmission, exposed, lost)
    }

    ghost function OwnerNow(): Owner
      reads this`hand, this`toRelease, core
    {
      Owner(HandLease(hand) + multiset(toRelease) + core.Leases(), core.lifecycle, hand)
    }

    ghost function Places(): multiset<Lease>
      reads this, mailbox, core
    {
      DeskNow().data + OwnerNow().places
    }

    ghost predicate Valid()
      reads this, mailbox, core, core.session
    {
      mailbox.Valid() && core.Valid() && Sound(DeskNow(), OwnerNow())
    }

    constructor (decode: (Route, seq<byte>) -> Option<Session.Frame>, filterBits: Route -> set<nat>,
                 digest: Session.Content -> SoundFormat.Digest)
      ensures Valid() && fresh(mailbox) && fresh(core) && fresh(core.session)
      ensures mailbox.reserved.None? && Places() == multiset{}
    {
      hide RuntimeCore.Leases, RuntimeCore.Valid, RuntimeMailbox.Valid, Sound;
      mailbox := new RuntimeMailbox();
      core := new RuntimeCore(decode, filterBits, digest, 1, 1, 5000, 10000);
      hand, toRelease, exposed, lost := None, [], false, false;
      new;
      assert DeskNow() == Desk(multiset{}, None, 1, false, false);
      assert OwnerNow() == Owner(multiset{}, [], None);
      NothingIsSound();
    }

    /** At most one request is in flight, and unless its lease was lost it is in exactly one
        place. It can only have been lost if a close of its route was under way to the owner
        when it was admitted. */
    lemma OneLeaseInOnePlace()
      requires Valid() && mailbox.reserved.Some?
      ensures Places()[mailbox.reserved.value] == if lost then 0 else 1
      ensures forall l | l in Places() && l.id == mailbox.reserved.value.id :: l == mailbox.reserved.value
      ensures lost || CloseUnderWay(OwnerNow(), mailbox.reserved.value.route) ==> exposed
    {
      hide DataLeases, RuntimeCore.Leases, RuntimeCore.Valid, RuntimeMailbox.Valid;
    }

    /** A reservation whose lease is nowhere is a lost one, and only a frame that was admitted
        while a close of its route was under way can end like that. */
    lemma NoStuckReservation()
      requires Valid() && mailbox.reserved.Some?
      ensures mailbox.reserved.value !in Places() <==> lost
      ensures !exposed ==> mailbox.reserved.value in Places()
    {
      hide DataLeases, RuntimeCore.Leases, RuntimeCore.Valid, RuntimeMailbox.Valid;
    }

    /** The next step closes the route of this lease and finds it queued. */
    predicate ClosedNext(l: Lease)
      reads core
    {
      core.lifecycle != [] && core.lifecycle[0] == Lifecycle(true, l.route) && l in core.Queued()
    }

    // ---------- Callbacks ----------

    method FrameArrives(route: Route, bytes: seq<byte>, now: u32) returns (r: EnqueueResult)
      requires Valid()
      modifies this`exposed, this`lost, mailbox
      ensures Valid()
      ensures r.Accepted? ==> old(mailbox.reserved).None? && mailbox.reserved.Some? && mailbox.reserved.value !in old(Places())
      ensures r.Accepted? ==> mailbox.reserved.value in Places() && !lost && (exposed <==> CloseUnderWay(OwnerNow(), route))
      ensures !r.Accepted? ==> mailbox.reserved == old(mailbox.reserved) && lost == old(lost) && exposed == old(exposed)
    {
      hide DataLeases, RuntimeCore.Leases, RuntimeCore.Valid, RuntimeMailbox.Valid, Sound;
      ghost var desk, owner := DeskNow(), OwnerNow();
      r := mailbox.EnqueueFrame(route, bytes, now);
      if r.Accepted? {
        exposed, lost := CloseUnderWay(owner, route), false;
        FrameAdmitted(desk, owner, mailbox.reserved.value);
      }
      else { LaterIds(desk, owner, mailbox.nextAdmission); }
    }

    method RouteOpens(route: Route) returns (r: EnqueueResult)
      requires Valid()
      modifies mailbox
      ensures Valid() && mailbox.reserved == old(mailbox.reserved)
    {
      hide DataLeases, RuntimeCore.Leases, RuntimeCore.Valid, RuntimeMailbox.Valid, Sound;
      ghost var desk, owner := DeskNow(), OwnerNow();
      r := mailbox.EnqueueOpened(route);
      assert DeskNow() == desk;
    }

    /** Closing a route frees the reservation it holds, whatever the owner is doing. */
    method RouteCloses(route: Route) returns (r: EnqueueResult)
      requires Valid()
      modifies mailbox
      ensures Valid()
      ensures Session.RouteValid(route) && mailbox.reserved.Some? ==> mailbox.reserved.value.route != route
    {
      hide DataLeases, RuntimeCore.Leases, RuntimeCore.Valid, RuntimeMailbox.Valid, Sound;
      ghost var desk, owner := DeskNow(), OwnerNow();
      r := mailbox.EnqueueClosed(route);
      RouteClosed(desk, owner, DeskNow());
    }

    // ---------- The owner ----------

    /** The next record, as the mailbox sees it go. */
    method Fetch() returns (record: Option<Record>)
      requires mailbox.Valid()
      modifies mailbox
      ensures mailbox.Valid()
      ensures DeskNow() == old(DeskNow()).(data := DeskNow().data)
      ensures old(DeskNow()).data == DeskNow().data + HandLease(record)
      ensures record.Some? && record.value.CloseRecord? && DeskNow().reserved.Some? ==> record.value.route != DeskNow().reserved.value.route
      ensures record.Some? && record.value.FrameRecord? ==> FrameFits(record.value)
      ensures record.Some? && record.value.CloseAllRecord? ==> DeskNow().reserved.None?
    {
      hide DataLeases, RuntimeMailbox.Valid, FrameFits;
      record := mailbox.TakeNext();
    }

    method Take()
      requires Valid() && hand.None?
      modifies this`hand, mailbox
      ensures Valid() && mailbox.reserved == old(mailbox.reserved)
      ensures Places() == old(Places())
    {
      hide DataLeases, RuntimeCore.Leases, RuntimeCore.Valid, RuntimeMailbox.Valid, Sound, HandLease, FrameFits;
      ghost var desk, owner := DeskNow(), OwnerNow();
      var record := Fetch();
      NothingInHand();
      if record.Some? {
        RecordTaken(desk, owner, DeskNow().data, record.value, toRelease, core.Leases());
      } else {
        assert DeskNow() == desk;
      }
      hand := record;
    }

    /** A full queue keeps the record in hand. */
    method Import()
      requires Valid() && hand.Some?
      modifies this`hand, core, core.session
      ensures Valid() && (hand.None? || hand == old(hand))
      ensures old(hand).value.CloseAllRecord? || Places() == old(Places())
      ensures forall l :: Places()[l] <= old(Places())[l]
      ensures mailbox.reserved.Some? ==> (mailbox.reserved.value in Places() <==> mailbox.reserved.value in old(Places()))
    {
      hide DataLeases, RuntimeCore.Leases, RuntimeCore.Valid, RuntimeMailbox.Valid, Sound, Session.RouteValid, HandLease, FrameFits;
      ghost var desk, owner := DeskNow(), OwnerNow();
      HandFits(desk, owner);
      ImportHand();
      assert DeskNow() == desk;
      RecordImported(desk, owner, OwnerNow());
    }

    /** The same on the owner's side. */
    method ImportHand()
      requires core.Valid() && hand.Some? && (hand.value.FrameRecord? ==> FrameFits(hand.value))
      modifies this`hand, core, core.session
      ensures core.Valid() && (hand == old(hand) || hand.None?)
      ensures !old(hand).value.CloseAllRecord? ==> OwnerNow().places == old(OwnerNow()).places
      ensures old(hand).value.CloseAllRecord? ==> hand.None? && forall l :: OwnerNow().places[l] <= old(OwnerNow()).places[l]
      ensures forall event | event in OwnerNow().lifecycle && event.closing ::
                event in old(OwnerNow()).lifecycle || (old(hand).value.CloseRecord? && event.route == old(hand).value.route)
    {
      hide RuntimeCore.Leases, RuntimeCore.Valid, Session.RouteValid;
      var r := core.Import(hand.value);
      if !r.Full? { hand := None; }
    }

    /** A lease leaves the picture exactly when the close at the head of the queue finds it
        among the queued frames or replies; that is how a reservation gets lost. */
    method Step(now: u32, allowed: bool, executor: Option<Execution>) returns (r: StepResult)
      requires Valid()
      modifies this`toRelease, this`lost, core, core.session
      ensures Valid()
      ensures forall l :: Places()[l] == if old(ClosedNext(l)) then 0 else old(Places())[l]
      ensures lost <==> old(lost) || (mailbox.reserved.Some? && old(ClosedNext(mailbox.reserved.value)))
    {
      hide RuntimeCore.Valid, RuntimeMailbox.Valid, Sound, DataLeases, OwnerNow, ClosedNext;
      ghost var hit := mailbox.reserved.Some? && ClosedNext(mailbox.reserved.value);
      r := Advance(now, allowed, executor);
      lost := lost || hit;
    }

    /** The owner's step, with the lease it is done with put aside to be handed back. */
    method Advance(now: u32, allowed: bool, executor: Option<Execution>) returns (r: StepResult)
      requires Valid()
      modifies this`toRelease, core, core.session
      ensures core.Valid()
      ensures Sound(DeskNow().(lost := lost || (mailbox.reserved.Some? && old(ClosedNext(mailbox.reserved.value)))), OwnerNow())
      ensures forall l :: (DeskNow().data + OwnerNow().places)[l] == if old(ClosedNext(l)) then 0 else old(Places())[l]
    {
      hide DataLeases, RuntimeCore.Leases, RuntimeCore.Valid, RuntimeMailbox.Valid, Sound, Closes, Conserves, HandLease, AfterDue,
           RuntimeCore.Queued;
      ghost var desk, owner, owned, queued, was := DeskNow(), OwnerNow(), core.Leases(), core.Queued(), toRelease;
      var release;
      ghost var route;
      r, release, route := OwnerStep(now, allowed, executor);
      OwnerStepped(desk, owner, core.lifecycle, was, queued, owned, core.Leases(), release, route);
      assert forall l :: old(ClosedNext(l)) <==> (route == Some(l.route) && l in queued);
      hide ClosedNext;
      toRelease := AfterDue(toRelease, release);
    }

    method OwnerStep(now: u32, allowed: bool, executor: Option<Execution>)
      returns (r: StepResult, release: Option<Lease>, ghost route: Option<Route>)
      requires core.Valid()
      modifies core, core.session
      ensures core.Valid() && old(core.Queued()) <= old(core.Leases())
      ensures forall event | event in core.lifecycle :: event in old(core.lifecycle)
      ensures route == (if old(core.lifecycle) != [] && old(core.lifecycle)[0].closing then Some(old(core.lifecycle)[0].route) else None)
      ensures route.Some? ==> Lifecycle(true, route.value) in old(core.lifecycle)
      ensures route.Some? ==> release.None?
      ensures route.Some? ==> forall l :: core.Leases()[l] == AfterClose(old(core.Leases()), old(core.Queued()), route, l)
      ensures route.None? ==> Conserves(old(core.Leases()), core.Leases(), release)
    {
      hide RuntimeCore.Valid, Answered, FrameLed, OnlyTimeouts, Session.LosesRoute, CompletionOf, RuntimeCore.Readable, IngressLeases, ReplyLeases;
      ghost var events := core.lifecycle;
      r, release := core.Step(now, allowed, executor);
      route := if events != [] && events[0].closing then Some(events[0].route) else None;
      if events != [] {
        assert events[0] in events && forall event | event in events[1..] :: event in events;
      }
    }

    /** A reply leaves with its transport; only then its lease is due. */
    method SendReply()
      requires Valid()
      modifies this`toRelease, core`replies
      ensures Valid() && Places() == old(Places())
    {
      hide DataLeases, RuntimeCore.Leases, RuntimeCore.Valid, RuntimeMailbox.Valid, Sound;
      if core.replies == [] { return; }
      ghost var owner := OwnerNow();
      var sent := core.PopReplyIfSequence(core.replies[0].sequence);
      toRelease := toRelease + [sent.value];
      assert OwnerNow().places == owner.places;
    }

    /** A stale lease releases nothing. */
    method HandBack() returns (released: bool)
      requires Valid() && toRelease != []
      modifies this`toRelease, mailbox
      ensures Valid()
      ensures released <==> old(mailbox.reserved) == Some(old(toRelease)[0])
      ensures !released ==> mailbox.reserved == old(mailbox.reserved)
      ensures released ==> mailbox.reserved.None?
    {
      hide DataLeases, RuntimeCore.Leases, RuntimeCore.Valid, RuntimeMailbox.Valid, Sound;
      hide HandLease;
      ghost var desk, owner, was := DeskNow(), OwnerNow(), toRelease;
      released := mailbox.Release(toRelease[0]);
      toRelease := toRelease[1..];
      LeaseReturned(desk, owner, was, core.Leases(), DeskNow());
    }
  }

  /** A close that has left the mailbox no longer keeps frames of its route out. */
  method AdmittedAfterClose(route: Route, bytes: seq<byte>, now: u32)
    returns (mailbox: RuntimeMailbox, closing: Record, frame: Record)
    requires Session.RouteValid(route) && LengthFits(route, bytes)
    ensures fresh(mailbox) && mailbox.Valid() && mailbox.reserved.Some? && mailbox.reserved.value.route == route
    ensures route in mailbox.closedRoutes && DataLeases(mailbox.data) == multiset{}
    ensures closing == CloseRecord(route)
    ensures frame.FrameRecord? && FrameFits(frame) && Some(frame.lease) == mailbox.reserved
  {
    hide RuntimeMailbox.Valid, Session.RouteValid, LengthFits;
    mailbox := new RuntimeMailbox();
    var r := mailbox.EnqueueClosed(route);
    var first := mailbox.TakeNext();
    r := mailbox.EnqueueFrame(route, bytes, now);
    var second := mailbox.TakeNext();
    closing, frame := first.value, second.value;
  }

  /** The exception is real: such a frame is admitted, purged when the owner applies the
      close, and leaves a reservation whose lease is nowhere. Closing the route once more
      frees it. */
  method LeaseLost(core: RuntimeCore, route: Route, bytes: seq<byte>, now: u32) returns (mailbox: RuntimeMailbox)
    requires core.Valid() && core.lifecycle == [] && core.ingress == [] && core.pendingAction.None?
    requires Session.RouteValid(route) && LengthFits(route, bytes)
    modifies core, core.session
    ensures mailbox.Valid() && core.Valid()
    ensures mailbox.reserved.Some? && mailbox.reserved.value.route == route && route in mailbox.closedRoutes
    ensures DataLeases(mailbox.data)[mailbox.reserved.value] == 0 && core.Leases()[mailbox.reserved.value] == 0
  {
    hide RuntimeCore.Valid, RuntimeMailbox.Valid, Session.RouteValid, LengthFits, FrameFits, IngressLeases, ReplyLeases,
         DataLeases, Closes, Conserves, Answered, FrameLed, OnlyTimeouts, Session.LosesRoute;
    var closing, frame;
    mailbox, closing, frame := AdmittedAfterClose(route, bytes, now);
    var r := core.Import(closing);
    r := core.Import(frame);
    var _, _ := core.Step(now, true, None);
    assert core.Purged(route);
  }
}
