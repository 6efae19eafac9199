/** A client's fragments through the session: what is acted upon is what was sent. */
module SessionUploads {
  import opened Bytes
  import opened Flash
  import opened Generations
  import opened SoundFormat
  import PlanWire
  import opened Assemblers
  import S = Session

  function Fragments(frames: seq<S.Frame>, base: nat): (fragments: seq<Fragment>)
    requires forall k | 0 <= k < |frames| :: base <= frames[k].offset
    ensures |fragments| == |frames|
    ensures forall k | 0 <= k < |frames| :: fragments[k] == Fragment(frames[k].offset - base, frames[k].body)
  {
    seq(|frames|, k requires 0 <= k < |frames| => Fragment(frames[k].offset - base, frames[k].body))
  }

  predicate KeyFree(replay: seq<Option<S.ReplayEntry>>, route: S.Route, cookie: u32, requestId: u32) {
    forall i | 0 <= i < |replay| && replay[i].Some? ::
      var known := replay[i].value.request; known.route != route || known.cookie != cookie || known.requestId != requestId
  }

  /** Frames of one unit: parts of one message, flagged at both ends. */
  predicate PartsOf(frames: seq<S.Frame>, base: nat, message: seq<byte>) {
    forall k | 0 <= k < |frames| ::
      && base <= frames[k].offset
      && PartOf(message, Fragment(frames[k].offset - base, frames[k].body))
      && (frames[k].flags.first <==> frames[k].offset == base)
      && (frames[k].flags.last <==> frames[k].offset - base + |frames[k].body| == |message|)
      && frames[k].flags.ack && !S.Rejected(frames[k])
  }

  predicate Covering(frames: seq<S.Frame>, base: nat, message: seq<byte>)
    requires PartsOf(frames, base, message)
  {
    forall i | 0 <= i < |message| :: Covered(Fragments(frames, base), i)
  }

  predicate Covered(fragments: seq<Fragment>, i: nat) { exists k | 0 <= k < |fragments| :: Covers(fragments[k], i) }

  predicate SawLast(frames: seq<S.Frame>) { exists k | 0 <= k < |frames| :: frames[k].flags.last }

  /** Covering frames leave nothing open. */
  lemma CoveredIsWhole(frames: seq<S.Frame>, base: nat, message: seq<byte>)
    requires PartsOf(frames, base, message) && Covering(frames, base, message) && message != []
    ensures Whole(Rebuilt(|message|, Fragments(frames, base))) && SawLast(frames)
  {
    hide Rebuilt, Covers, PartOf, AllAccepted, Covered;
    var fragments := Fragments(frames, base);
    PartsRebuildMessage(message, fragments);
    forall i | 0 <= i < |message| ensures Rebuilt(|message|, fragments)[i].Some? {
      CoveredIsKnown(message, fragments, i);
    }
    assert Covered(fragments, |message| - 1);
    LastIsFlagged(frames, base, message);
  }

  lemma CoveredIsKnown(message: seq<byte>, fragments: seq<Fragment>, i: nat)
    requires AllAccepted(|message|, fragments) && i < |message| && Covered(fragments, i)
    ensures Rebuilt(|message|, fragments)[i].Some?
  {
    hide Rebuilt, AllAccepted;
    RebuiltMeaning(|message|, fragments, i);
  }

  lemma LastIsFlagged(frames: seq<S.Frame>, base: nat, message: seq<byte>)
    requires PartsOf(frames, base, message) && message != [] && Covered(Fragments(frames, base), |message| - 1)
    ensures SawLast(frames)
  {
    var k :| 0 <= k < |frames| && Covers(Fragments(frames, base)[k], |message| - 1);
    assert frames[k].flags.last;
  }

  /** The next fragment is accepted, and what is known afterwards is part of the message. */
  lemma NextPart(frames: seq<S.Frame>, base: nat, message: seq<byte>, i: nat)
    requires PartsOf(frames, base, message) && i < |frames|
    ensures PartsOf(frames[..i], base, message) && PartsOf(frames[..i + 1], base, message)
    ensures var before := Rebuilt(|message|, Fragments(frames[..i], base));
            var after := Rebuilt(|message|, Fragments(frames[..i + 1], base));
            var f := Fragment(frames[i].offset - base, frames[i].body);
            && Verdict(before, f).Accepted? && after == Step(before, f)
            && (Whole(after) ==> Known(after) == message)
    ensures SawLast(frames[..i + 1]) <==> SawLast(frames[..i]) || frames[i].flags.last
  {
    hide Verdict, Step, AllAccepted, PartsOf, Known, Rebuilt, Whole;
    PrefixParts(frames, base, message, i);
    PrefixParts(frames, base, message, i + 1);
    PrefixFragments(frames, base, message, i);
    var more := Fragments(frames[..i + 1], base);
    PartsRebuildMessage(message, more);
    LastAccepted(|message|, more);
    SawLastGrows(frames, i);
  }

  lemma PrefixParts(frames: seq<S.Frame>, base: nat, message: seq<byte>, n: nat)
    requires PartsOf(frames, base, message) && n <= |frames|
    ensures PartsOf(frames[..n], base, message)
    ensures forall k | 0 <= k < n :: base <= frames[k].offset && PartOf(message, Fragments(frames[..n], base)[k])
  {
    hide PartOf, S.Rejected;
  }

  lemma PrefixFragments(frames: seq<S.Frame>, base: nat, message: seq<byte>, i: nat)
    requires PartsOf(frames, base, message) && i < |frames|
    requires forall k | 0 <= k <= i :: base <= frames[k].offset
    ensures var more := Fragments(frames[..i + 1], base);
            && more[..|more| - 1] == Fragments(frames[..i], base)
            && more[|more| - 1] == Fragment(frames[i].offset - base, frames[i].body)
  {
    hide PartOf, S.Rejected;
  }

  lemma LastAccepted(n: nat, fragments: seq<Fragment>)
    requires AllAccepted(n, fragments) && fragments != []
    ensures var before, f := Rebuilt(n, fragments[..|fragments| - 1]), fragments[|fragments| - 1];
            Verdict(before, f).Accepted? && Rebuilt(n, fragments) == Step(before, f)
  {
    hide Verdict, Step;
  }

  lemma SawLastGrows(frames: seq<S.Frame>, i: nat)
    requires i < |frames|
    ensures SawLast(frames[..i + 1]) <==> SawLast(frames[..i]) || frames[i].flags.last
  {
    if SawLast(frames[..i]) {
      var k :| 0 <= k < i && frames[..i][k].flags.last;
      assert frames[..i + 1][k].flags.last;
    }
    if frames[i].flags.last { assert frames[..i + 1][i].flags.last; }
    if SawLast(frames[..i + 1]) && !frames[i].flags.last {
      var k :| 0 <= k < i + 1 && frames[..i + 1][k].flags.last;
      assert frames[..i][k].flags.last;
    }
  }

  // ---------- A plan ----------

  /** The assembly after the first `i` frames of a plan. */
  ghost predicate Assembling(session: S.SpeakerAssetsSession, route: S.Route, requestId: u32, frames: seq<S.Frame>, i: nat, message: seq<byte>)
    requires i <= |frames| && PartsOf(frames, 0, message)
    reads session
  {
    if i == 0 then session.phase.Idle?
    else
      && session.phase.BeginAssembly? && session.planKind.DoBegin? && !session.fromReady
      && session.plan == Some(S.PlanParts(route, requestId, Rebuilt(|message|, Fragments(frames[..i], 0)), true, SawLast(frames[..i])))
      && !S.PlanWhole(session.plan.value)
  }

  /** However a valid plan is cut, ordered, repeated or overlapped, once its frames cover it
      the store is asked to begin exactly that plan. */
  method SendPlan(session: S.SpeakerAssetsSession, route: S.Route, requestId: u32, plan: Plan, message: seq<byte>, frames: seq<S.Frame>)
    returns (out: S.Emission)
    requires session.Valid() && session.phase.Idle? && KeyFree(session.replay, route, 0, requestId)
    requires PlanValid(plan) && PlanWire.EncodePlan(plan) == Some(message)
    requires S.RouteValid(route) && requestId != 0
    requires PlanFrames(frames, requestId, message) && Covering(frames, 0, message)
    modifies session
    ensures session.Valid()
    ensures out.Acted? && out.action.kind.DoBegin? && out.action.plan == Some(plan) && out.action.route == route
  {
    hide PlanWire.EncodePlan, PlanWire.DecodePlan, PlanValid, AdvanceBy, S.ReplaySound, S.RoutesSound, S.PendingSound,
         S.ProgressWellFormed, PartOf;
    PlanWire.PlanRoundTrip(plan);
    out := S.Nothing;
    var i := 0;
    while !out.Acted?
      invariant i <= |frames| && session.Valid()
      invariant out.Acted? ==> out.action.kind.DoBegin? && out.action.plan == Some(plan) && out.action.route == route
      invariant !out.Acted? ==> session.pending.None? && Assembling(session, route, requestId, frames, i, message)
      invariant session.replay == old(session.replay)
      decreases |frames| - i
    {
      NotYetCovered(session, route, requestId, frames, i, message);
      out := PlanFrame(session, route, requestId, plan, message, frames, i);
      i := i + 1;
    }
  }

  /** Frames of one begin request. */
  predicate PlanFrames(frames: seq<S.Frame>, requestId: u32, message: seq<byte>) {
    && PartsOf(frames, 0, message) && |message| == PlanWire.PLAN_BYTES
    && frames != [] && frames[0].offset == 0
    && forall k | 0 <= k < |frames| ::
         frames[k].opcode.Begin? && frames[k].requestId == requestId && frames[k].cookie == 0 && !frames[k].flags.payload
  }

  lemma NotYetCovered(session: S.SpeakerAssetsSession, route: S.Route, requestId: u32, frames: seq<S.Frame>, i: nat, message: seq<byte>)
    requires i <= |frames| && PlanFrames(frames, requestId, message) && Covering(frames, 0, message)
    requires Assembling(session, route, requestId, frames, i, message)
    ensures i < |frames|
  {
    if i == |frames| {
      assert frames[..i] == frames;
      CoveredIsWhole(frames, 0, message);
      assert false;
    }
  }

  lemma JoinsPlan(session: S.SpeakerAssetsSession, route: S.Route, requestId: u32, frames: seq<S.Frame>, i: nat, message: seq<byte>)
    requires session.Valid() && session.pending.None?
    requires i < |frames| && PlanFrames(frames, requestId, message)
    requires Assembling(session, route, requestId, frames, i, message)
    ensures session.Now().PlanJoins(route, frames[i], S.DoBegin) && !session.Now().Reopening()
    ensures session.Now().PlanAfter(route, frames[i])
         == S.PlanParts(route, requestId, Rebuilt(|message|, Fragments(frames[..i + 1], 0)), true, SawLast(frames[..i + 1]))
  {
    hide AdvanceBy, S.ReplaySound, S.RoutesSound, S.PendingSound, S.ProgressWellFormed, Verdict, Step, Rebuilt, Whole;
    NextPart(frames, 0, message, i);
    if i == 0 {
      NothingYetAt(|message|, frames, 0);
      assert session.plan.None?;
    }
  }

  /** One frame: it finishes the plan, or it is one more piece of it. */
  method PlanFrame(session: S.SpeakerAssetsSession, route: S.Route, requestId: u32, plan: Plan, message: seq<byte>,
                   frames: seq<S.Frame>, i: nat) returns (out: S.Emission)
    requires session.Valid() && session.pending.None? && KeyFree(session.replay, route, 0, requestId)
    requires PlanWire.DecodePlan(message) == PlanWire.Decoded(plan)
    requires S.RouteValid(route) && requestId != 0
    requires i < |frames| && PlanFrames(frames, requestId, message)
    requires Assembling(session, route, requestId, frames, i, message)
    modifies session
    ensures session.Valid() && session.replay == old(session.replay)
    ensures out.Acted? ==> out.action.kind.DoBegin? && out.action.plan == Some(plan) && out.action.route == route
    ensures !out.Acted? ==> session.pending.None? && Assembling(session, route, requestId, frames, i + 1, message)
  {
    hide PlanWire.DecodePlan, AdvanceBy, S.ReplaySound, S.RoutesSound, S.PendingSound, S.ProgressWellFormed, S.PhaseSound;
    JoinsPlan(session, route, requestId, frames, i, message);
    NextPart(frames, 0, message, i);
    hide S.State.PlanJoins, S.State.PlanAfter, PartOf;
    var r;
    r, out := session.Consume(route, frames[i]);
  }

  // ---------- A manifest or a block ----------

  function BaseOf(region: S.Region, index: nat): nat { if region.ManifestRegion? then 0 else index * SECTOR }

  function UnitBytes(progress: S.Progress, region: S.Region, index: nat): nat {
    if region.ManifestRegion? then progress.manifestBytes else BlockLength(progress.payloadBytes, index)
  }

  /** Frames of one write request of the open session. */
  predicate UnitFrames(frames: seq<S.Frame>, requestId: u32, cookie: u32, progress: S.Progress, region: S.Region, index: nat, message: seq<byte>) {
    && PartsOf(frames, BaseOf(region, index), message) && message != []
    && |message| == UnitBytes(progress, region, index) && (region.ManifestRegion? ==> index == 0)
    && frames != [] && frames[0].offset == BaseOf(region, index)
    && forall k | 0 <= k < |frames| ::
         && frames[k].opcode.Data? && frames[k].requestId == requestId && frames[k].cookie == cookie
         && (frames[k].flags.payload <==> region.PayloadRegion?)
  }

  /** Every one of these frames addresses that unit. */
  lemma PlaceOfPart(progress: S.Progress, region: S.Region, index: nat, offset: nat)
    requires S.ProgressWellFormed(progress) && (region.ManifestRegion? ==> index == 0)
    requires BaseOf(region, index) <= offset < BaseOf(region, index) + UnitBytes(progress, region, index)
    ensures S.PlaceOf(progress, region.PayloadRegion?, offset)
         == Some(S.UnitPlace(region, index, BaseOf(region, index), UnitBytes(progress, region, index), offset - BaseOf(region, index)))
    ensures UnitBytes(progress, region, index) <= SECTOR && index < 128
  {
    if region.PayloadRegion? { assert offset / SECTOR == index; }
  }

  function PlaceIn(region: S.Region, index: nat, length: nat, frame: S.Frame): S.UnitPlace
    requires BaseOf(region, index) <= frame.offset
  {
    S.UnitPlace(region, index, BaseOf(region, index), length, frame.offset - BaseOf(region, index))
  }

  /** The assembly after the first `i` frames of a unit. */
  ghost predicate Collecting(session: S.SpeakerAssetsSession, requestId: u32, region: S.Region, index: nat,
                             frames: seq<S.Frame>, i: nat, message: seq<byte>)
    requires i <= |frames| && PartsOf(frames, BaseOf(region, index), message)
    reads session
  {
    if i == 0 then session.phase.Ready?
    else
      && session.phase.UnitAssembly?
      && session.unit == Some(S.UnitParts(region, index, requestId, BaseOf(region, index),
           Rebuilt(|message|, Fragments(frames[..i], BaseOf(region, index))), true, SawLast(frames[..i])))
      && !S.UnitWhole(session.unit.value)
  }

  lemma NotYetCollected(session: S.SpeakerAssetsSession, requestId: u32, region: S.Region, index: nat,
                        frames: seq<S.Frame>, i: nat, message: seq<byte>)
    requires i <= |frames| && frames != [] && message != []
    requires PartsOf(frames, BaseOf(region, index), message) && Covering(frames, BaseOf(region, index), message)
    requires Collecting(session, requestId, region, index, frames, i, message)
    ensures i < |frames|
  {
    if i == |frames| {
      assert frames[..i] == frames;
      CoveredIsWhole(frames, BaseOf(region, index), message);
      assert false;
    }
  }

  lemma JoinsUnit(session: S.SpeakerAssetsSession, route: S.Route, requestId: u32, cookie: u32, progress: S.Progress,
                  region: S.Region, index: nat, frames: seq<S.Frame>, i: nat, message: seq<byte>)
    requires session.binding == Some(S.Binding(route, cookie, progress)) && S.ProgressWellFormed(progress)
    requires i < |frames| && UnitFrames(frames, requestId, cookie, progress, region, index, message)
    requires Collecting(session, requestId, region, index, frames, i, message)
    ensures session.Now().DataJoins(route, frames[i])
    ensures session.Now().PlaceNow(frames[i]) == Some(PlaceIn(region, index, |message|, frames[i]))
    ensures session.Now().UnitAfter(session.Now().PlaceNow(frames[i]).value, frames[i])
         == S.UnitParts(region, index, requestId, BaseOf(region, index),
                        Rebuilt(|message|, Fragments(frames[..i + 1], BaseOf(region, index))), true, SawLast(frames[..i + 1]))
  {
    hide Verdict, Step, Rebuilt, Whole, S.ProgressWellFormed, S.PlaceOf, BlockLength, UnitFrames, PartsOf, PartOf, UnitBytes, BaseOf;
    FrameOfUnit(requestId, cookie, progress, region, index, frames, i, message);
    NextPart(frames, BaseOf(region, index), message, i);
    PlaceOfPart(progress, region, index, frames[i].offset);
    if i == 0 { NothingYetAt(|message|, frames, BaseOf(region, index)); }
  }

  /** What is known of one frame of a unit. */
  lemma FrameOfUnit(requestId: u32, cookie: u32, progress: S.Progress, region: S.Region, index: nat, frames: seq<S.Frame>, i: nat, message: seq<byte>)
    requires i < |frames| && UnitFrames(frames, requestId, cookie, progress, region, index, message)
    ensures var frame, base := frames[i], BaseOf(region, index);
            && PartsOf(frames, base, message) && |message| == UnitBytes(progress, region, index) && |message| > 0
            && (region.ManifestRegion? ==> index == 0)
            && frame.requestId == requestId && frame.cookie == cookie && frame.flags.payload == region.PayloadRegion?
            && base <= frame.offset && frame.offset - base + |frame.body| <= |message| && frame.body != [] && frame.flags.ack
            && (frame.flags.first <==> frame.offset == base)
            && (frame.flags.last <==> frame.offset - base + |frame.body| == |message|)
            && (i == 0 ==> frame.flags.first)
  {
    hide Fragments, S.Rejected, UnitBytes, BaseOf;
    assert PartOf(message, Fragment(frames[i].offset - BaseOf(region, index), frames[i].body));
  }

  lemma NothingYetAt(n: nat, frames: seq<S.Frame>, base: nat)
    ensures Rebuilt(n, Fragments(frames[..0], base)) == Unknown(n) && !SawLast(frames[..0])
  {
  }

  /** One frame: it finishes the unit, or it is one more piece of it. */
  method UnitFrame(session: S.SpeakerAssetsSession, route: S.Route, requestId: u32, cookie: u32, progress: S.Progress,
                   region: S.Region, index: nat, message: seq<byte>, frames: seq<S.Frame>, i: nat) returns (out: S.Emission)
    requires session.Valid() && session.pending.None? && KeyFree(session.replay, route, cookie, requestId)
    requires session.binding == Some(S.Binding(route, cookie, progress)) && S.ProgressWellFormed(progress)
    requires S.RouteValid(route) && requestId != 0
    requires i < |frames| && UnitFrames(frames, requestId, cookie, progress, region, index, message)
    requires Collecting(session, requestId, region, index, frames, i, message)
    modifies session
    ensures session.Valid() && session.replay == old(session.replay) && session.binding == old(session.binding)
    ensures out.Acted? ==> Writes(out.action, progress, region, index, message)
    ensures !out.Acted? ==> session.pending.None? && Collecting(session, requestId, region, index, frames, i + 1, message)
  {
    hide AdvanceBy, S.ReplaySound, S.RoutesSound, S.PendingSound, S.ProgressWellFormed, S.PhaseSound;
    JoinsUnit(session, route, requestId, cookie, progress, region, index, frames, i, message);
    NextPart(frames, BaseOf(region, index), message, i);
    hide S.State.DataJoins, S.State.UnitAfter, S.State.PlaceNow, PartOf, Fragments;
    var r;
    r, out := session.Consume(route, frames[i]);
  }

  predicate Writes(action: S.Action, progress: S.Progress, region: S.Region, index: nat, message: seq<byte>) {
    && action.kind == (if region.ManifestRegion? then S.DoWriteManifest else S.DoWriteBlock)
    && action.expected == progress.identity && action.blockIndex == index && action.bytes == message
  }

  /** The same for a manifest or a block of the open session: exactly the client's bytes are
      handed to the store, for exactly the unit they were sent for. */
  method SendUnit(session: S.SpeakerAssetsSession, route: S.Route, requestId: u32, cookie: u32, progress: S.Progress,
                  region: S.Region, index: nat, message: seq<byte>, frames: seq<S.Frame>) returns (out: S.Emission)
    requires session.Valid() && session.phase.Ready? && KeyFree(session.replay, route, cookie, requestId)
    requires session.binding == Some(S.Binding(route, cookie, progress))
    requires S.RouteValid(route) && requestId != 0
    requires UnitFrames(frames, requestId, cookie, progress, region, index, message)
    requires Covering(frames, BaseOf(region, index), message)
    modifies session
    ensures session.Valid() && session.binding == old(session.binding)
    ensures out.Acted? && Writes(out.action, progress, region, index, message)
  {
    hide AdvanceBy, S.ReplaySound, S.RoutesSound, S.PendingSound, S.ProgressWellFormed, PartOf, Writes;
    out := S.Nothing;
    var i := 0;
    while !out.Acted?
      invariant i <= |frames| && session.Valid() && session.binding == old(session.binding)
      invariant S.ProgressWellFormed(progress)
      invariant out.Acted? ==> Writes(out.action, progress, region, index, message)
      invariant !out.Acted? ==> session.pending.None? && Collecting(session, requestId, region, index, frames, i, message)
      invariant session.replay == old(session.replay)
      decreases |frames| - i
    {
      NotYetCollected(session, requestId, region, index, frames, i, message);
      out := UnitFrame(session, route, requestId, cookie, progress, region, index, message, frames, i);
      i := i + 1;
    }
  }
}
