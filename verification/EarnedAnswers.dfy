/** Over whole lifetimes of the device: a client never hears of a success that did not happen. */
module EarnedAnswers {
  import opened Bytes
  import opened PlanWire
  import opened Assemblers
  import opened SoundFormat
  import opened SoundBanks
  import opened StoreView
  import opened StoreAnswers
  import opened StoreExecutor
  import opened SessionAnswers
  import opened UploadService
  import S = Session

  /** At this moment the worker's success was told to the client of this request. */
  predicate ToldAt(moment: Moment, request: S.Request, reply: S.Reply) {
    && moment.event.WorkerReports? && moment.out == S.Replied(reply) && reply.status.Fine?
    && moment.before.session.pending.Some? && moment.before.session.pending.value.request == request
    && KindFits(moment.before.session)
  }

  /** Every success the session remembers was told once by the worker, earlier in this life. */
  predicate Earned(moments: seq<Moment>, n: nat, s: S.State)
    requires n <= |moments|
  {
    && KindFits(s)
    && forall i | 0 <= i < |s.replay| && s.replay[i].Some? ::
         exists m | 0 <= m < n :: ToldAt(moments[m], s.replay[i].value.request, s.replay[i].value.reply)
  }

  lemma {:induction false} MemoryIsEarned(h: Hashes, digest: S.Fingerprint, moments: seq<Moment>, events: seq<Event>, first: Device, n: nat)
    requires Linked(h, digest, moments, events, first) && S.Fresh(first.session) && n <= |moments|
    ensures Earned(moments, n, StateAt(moments, first, n).session)
  {
    hide Lawful;
    if n > 0 {
      MemoryIsEarned(h, digest, moments, events, first, n - 1);
      StaysEarned(h, digest, moments, n - 1);
    }
  }

  lemma StaysEarned(h: Hashes, digest: S.Fingerprint, moments: seq<Moment>, n: nat)
    requires n < |moments| && Lawful(h, digest, moments[n]) && Earned(moments, n, moments[n].before.session)
    ensures Earned(moments, n + 1, moments[n].after.session)
  {
    hide S.TakesFrame, S.Completes, S.LosesRoute, Truthful, Worked, Rebooted, ToldAt;
    var s, t := moments[n].before.session, moments[n].after.session;
    match moments[n].event
    case FrameIn(route, frame) => FrameKeeps(digest, s, route, frame, moments[n].out, t);
    case WorkerReports =>
      if t != s {
        CompletionAdds(s, moments[n].before.executed.value, moments[n].out, t);
        if moments[n].out.Replied? && moments[n].out.reply.status.Fine? && s.pending.Some? {
          assert ToldAt(moments[n], s.pending.value.request, moments[n].out.reply) by { IsTold(moments[n]); }
        }
      }
    case Closes(route) => RouteKeeps(s, route, t);
    case _ =>
  }

  lemma IsTold(moment: Moment)
    requires moment.event.WorkerReports? && moment.out.Replied? && moment.out.reply.status.Fine?
    requires moment.before.session.pending.Some? && KindFits(moment.before.session)
    ensures ToldAt(moment, moment.before.session.pending.value.request, moment.out.reply)
  {
  }

  /** A frame is answered Fine at once only if it asks for the capabilities or brings bytes
      that are taken; every other Fine was told before, by a completed action of the very same
      request. */
  lemma FineIsEarned(h: Hashes, digest: S.Fingerprint, moments: seq<Moment>, events: seq<Event>, first: Device, n: nat)
    requires Linked(h, digest, moments, events, first) && S.Fresh(first.session) && n < |moments| && moments[n].event.FrameIn?
    requires moments[n].out.Replied? && moments[n].out.reply.status.Fine?
    ensures var frame := moments[n].event.frame;
            || frame.opcode.Capabilities?
            || ((frame.opcode.Begin? || frame.opcode.Recover? || frame.opcode.Data?) && moments[n].out.reply.body.Missing?)
            || exists m, request | 0 <= m < n && SameRequest(request, moments[n].event.route, frame) :: ToldAt(moments[m], request, moments[n].out.reply)
  {
    hide Lawful, ToldAt, S.TakesFrame;
    var s, route, frame, reply := moments[n].before.session, moments[n].event.route, moments[n].event.frame, moments[n].out.reply;
    MemoryIsEarned(h, digest, moments, events, first, n);
    FrameIsLawful(h, digest, moments[n]);
    FineMeans(digest, s, route, frame, moments[n].out, moments[n].after.session);
    if Retained(s, route, frame, reply) {
      var i :| 0 <= i < |s.replay| && s.replay[i].Some? && s.replay[i].value.reply == reply
               && SameRequest(s.replay[i].value.request, route, frame);
      var m :| 0 <= m < n && ToldAt(moments[m], s.replay[i].value.request, s.replay[i].value.reply);
      assert SameRequest(s.replay[i].value.request, route, frame);
    }
  }

  lemma FrameIsLawful(h: Hashes, digest: S.Fingerprint, moment: Moment)
    requires Lawful(h, digest, moment) && moment.event.FrameIn?
    ensures S.TakesFrame(digest, moment.before.session, moment.event.route, moment.event.frame, moment.out, moment.after.session)
  {
    hide S.TakesFrame;
  }

  /** Over every lifetime: a client that hears Fine to a commit hears of a commit that the
      worker had performed by then, with the transaction of its action as the served one. */
  lemma CommitIsEarned(h: Hashes, digest: S.Fingerprint, moments: seq<Moment>, events: seq<Event>, first: Device, n: nat)
    requires Linked(h, digest, moments, events, first) && S.Fresh(first.session) && n < |moments|
    requires moments[n].event.FrameIn? && moments[n].event.frame.opcode.Commit?
    requires moments[n].out.Replied? && moments[n].out.reply.status.Fine?
    ensures exists m | 0 <= m < n :: CommittedAt(h, moments[m]) && moments[m].out == moments[n].out
  {
    hide Lawful, ToldAt, Linked, CommittedAt;
    FineIsEarned(h, digest, moments, events, first, n);
    var m, request :| 0 <= m < n && SameRequest(request, moments[n].event.route, moments[n].event.frame)
                      && ToldAt(moments[m], request, moments[n].out.reply);
    LinkedAt(h, digest, moments, events, first, m);
    ToldIsCommitted(h, digest, moments[m], request, moments[n].out.reply);
  }

  /** The worker reports the success of a commit, and its transaction is what is served. */
  ghost predicate CommittedAt(h: Hashes, moment: Moment) {
    && moment.event.WorkerReports? && moment.before.action.Some? && moment.before.executed.Some?
    && moment.before.executed.value.kind.DoCommit? && moment.before.executed.value.result.Ok?
    && Published(h, moment.before.memory.image, moment.before.action.value.expected)
  }

  lemma LinkedAt(h: Hashes, digest: S.Fingerprint, moments: seq<Moment>, events: seq<Event>, first: Device, m: nat)
    requires Linked(h, digest, moments, events, first) && m < |moments|
    ensures Lawful(h, digest, moments[m])
  {
    hide Lawful;
  }

  lemma ToldIsCommitted(h: Hashes, digest: S.Fingerprint, moment: Moment, request: S.Request, reply: S.Reply)
    requires Lawful(h, digest, moment) && ToldAt(moment, request, reply) && request.opcode.Commit?
    ensures CommittedAt(h, moment) && moment.out == S.Replied(reply)
  {
    hide S.Succeeds, S.ContractMet, Published, TracksIn;
  }
}
