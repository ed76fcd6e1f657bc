/** Which final status the result callback of a request sees, said by the events of the run: whatever
    happened before, whatever other requests do in between, and whatever comes after. */
module RequestStatus {
  import Counters
  import opened Request

  function After(es: seq<Event>): Platform { Execute(Start(), es) }

  /** The request is on its way and nothing has ended it: no completion is to come or has begun. */
  predicate Waiting(es: seq<Event>, i: nat) {
    var s := After(es);
    i < |s.proxies| && s.proxies[i].phase == Sent && !s.proxies[i].claimed && s.proxies[i].posted == 0
  }

  /** The events leave request `i`, numbered `sn`, alone. */
  predicate Elsewhere(es: seq<Event>, i: nat, sn: int) {
    forall k :: 0 <= k < |es| ==>
      match es[k]
      case Create(_, _) => true
      case Respond(n, _) => n != sn
      case _ => es[k].id != i
  }

  predicate Sees(es: seq<Event>, i: nat, status: Status) {
    i < |After(es).proxies| && After(es).proxies[i].seen == [status]
  }

  // ----- runs around one request -----

  lemma ElsewhereNext(s: Platform, e: Event, i: nat)
    requires Consistent(s) && i < |s.proxies| && Elsewhere([e], i, s.proxies[i].sn)
    ensures i < |Next(s, e).proxies| && Next(s, e).proxies[i] == s.proxies[i]
  {
    hide OwnStep, ResponseStep, Once, MapStep;
    assert e == [e][0];
  }

  lemma {:induction false} ElsewhereKeeps(es: seq<Event>, mid: seq<Event>, i: nat)
    requires i < |After(es).proxies| && Elsewhere(mid, i, After(es).proxies[i].sn)
    ensures i < |After(es + mid).proxies| && After(es + mid).proxies[i] == After(es).proxies[i]
    decreases |mid|
  {
    hide Next, Consistent;
    if mid == [] {
      assert es + mid == es;
    } else {
      var n := |mid| - 1;
      ElsewhereKeeps(es, mid[..n], i);
      assert (es + mid)[..|es| + n] == es + mid[..n];
      ConsistentRun(es + mid[..n]);
      ElsewhereNext(After(es + mid[..n]), mid[n], i);
    }
  }

  lemma OneNext(s: Platform, e: Event)
    requires HasId(e) && e.id < |s.proxies|
    ensures |Next(s, e).proxies| == |s.proxies| && Next(s, e).proxies[e.id] == OwnStep(s.proxies[e.id], e)
    ensures OwnStep(s.proxies[e.id], e).sn == s.proxies[e.id].sn && OwnStep(s.proxies[e.id], e).kind == s.proxies[e.id].kind
  {
    SamePhase(s.proxies[e.id], e);
    hide OwnStep, MapStep;
  }

  /** One event of the request, then events of others. */
  lemma {:induction false} OneStep(es: seq<Event>, e: Event, mid: seq<Event>)
    requires HasId(e) && e.id < |After(es).proxies| && Elsewhere(mid, e.id, After(es).proxies[e.id].sn)
    ensures e.id < |After(es + [e] + mid).proxies|
    ensures After(es + [e] + mid).proxies[e.id] == OwnStep(After(es).proxies[e.id], e)
    ensures After(es + [e] + mid).proxies[e.id].sn == After(es).proxies[e.id].sn
  {
    hide Next, OwnStep;
    assert (es + [e])[..|es|] == es;
    OneNext(After(es), e);
    ElsewhereKeeps(es + [e], mid, e.id);
  }

  lemma ResponseNext(s: Platform, r: Response, i: nat)
    requires Consistent(s) && i < |s.proxies| && Listed(s, i)
    ensures |Next(s, Respond(s.proxies[i].sn, r)).proxies| == |s.proxies|
    ensures Next(s, Respond(s.proxies[i].sn, r)).proxies[i] == ResponseStep(s.proxies[i], r)
    ensures ResponseStep(s.proxies[i], r).sn == s.proxies[i].sn
  {
    hide Once;
    assert Frame(s.proxies[i], ResponseStep(s.proxies[i], r));
    hide ResponseStep;
  }

  /** A response to the request, then events of others. */
  lemma {:induction false} OneResponseStep(es: seq<Event>, i: nat, r: Response, mid: seq<Event>)
    requires i < |After(es).proxies| && Listed(After(es), i) && Elsewhere(mid, i, After(es).proxies[i].sn)
    ensures var run := es + [Respond(After(es).proxies[i].sn, r)] + mid;
            && i < |After(run).proxies| && After(run).proxies[i] == ResponseStep(After(es).proxies[i], r)
            && After(run).proxies[i].sn == After(es).proxies[i].sn
  {
    hide Next, ResponseStep, Listed, Consistent;
    var e := Respond(After(es).proxies[i].sn, r);
    assert (es + [e])[..|es|] == es;
    ConsistentRun(es);
    ResponseNext(After(es), r, i);
    ElsewhereKeeps(es + [e], mid, i);
  }

  // ----- what has been seen stays -----

  lemma SeenGrows(p: Proxy, e: Event)
    ensures p.seen <= OwnStep(p, e).seen
  {
    if e.Send? { SeenSend(p, e); }
    else if e.Reply? || e.Decide? { SeenReply(p, e); }
    else if e.BaseTimer? || e.OwnTimer? || e.SendFailed? { SeenTimer(p, e); }
    else { SeenEnd(p, e); }
  }

  lemma EndedKeeps(p: Proxy, status: Status)
    ensures var q := Ended(p, status);
            q.seen == p.seen && q.callback == p.callback && q.calling == p.calling
            && q.baseTimer == p.baseTimer && q.ownTimer == p.ownTimer
  {}

  lemma QuietKeeps(p: Proxy, ends: bool)
    ensures var q := Quiet(p, ends);
            q.seen == p.seen && q.callback == p.callback && q.calling == p.calling
            && !q.baseTimer && q.ownTimer == (p.ownTimer && !ends)
  {}

  lemma RefuseKeeps(p: Proxy, callback: bool)
    ensures Refuse(p, callback).seen == p.seen
  {}

  lemma SeenSend(p: Proxy, e: Event)
    requires e.Send?
    ensures OwnStep(p, e).seen == p.seen
  {
    hide Ended, Refuse;
    RefuseKeeps(p, p.callback);
    RefuseKeeps(p, true);
    EndedKeeps(Refuse(p, p.callback), Failed);
    EndedKeeps(Refuse(p, true), Failed);
  }

  lemma SeenReply(p: Proxy, e: Event)
    requires e.Reply? || e.Decide?
    ensures OwnStep(p, e).seen == p.seen
  {
    hide Ended, ReplyStatus;
    EndedKeeps(p.(deciding := false), p.status);
  }

  lemma SeenTimer(p: Proxy, e: Event)
    requires e.BaseTimer? || e.OwnTimer? || e.SendFailed?
    ensures OwnStep(p, e).seen == p.seen
  {
    hide Ended;
    EndedKeeps(p, Failed);
    EndedKeeps(p.(baseTimer := false), Timeout);
    EndedKeeps(p.(ownTimer := false), Timeout);
    EndedKeeps(p.(ownTimer := false), p.status);
  }

  lemma SeenEnd(p: Proxy, e: Event)
    requires e.Posted? || e.Call? || e.Remove? || !HasId(e)
    ensures p.seen <= OwnStep(p, e).seen
  {}

  /** What a response leaves alone, and the timers it cancels. */
  lemma ResponseKeeps(p: Proxy, r: Response)
    ensures var q := ResponseStep(p, r);
            && q.seen == p.seen && q.callback == p.callback && q.calling == p.calling && q.phase == p.phase
            && !q.baseTimer
            && (r.Loaded? && p.kind == ListRequest && r.ends ==> !q.ownTimer)
            && (r.Loaded? && p.kind == ConfigRequest && (r.ends || r.refused) ==> !q.ownTimer)
            && (r == BadXml || p.kind == OneResponse || p.kind == NoResponse ==> q.ownTimer == p.ownTimer)
  {
    assert Frame(p, ResponseStep(p, r));
    hide Ended, Quiet;
    QuietKeeps(p, false);
    QuietKeeps(p, true);
    EndedKeeps(Quiet(p, false), Failed);
    EndedKeeps(Quiet(p, false), Succeeded);
    EndedKeeps(Quiet(p, true), Failed);
    EndedKeeps(Quiet(p, true), Succeeded);
  }

  lemma SeenNext(s: Platform, e: Event, i: nat)
    requires i < |s.proxies|
    ensures i < |Next(s, e).proxies| && s.proxies[i].seen <= Next(s, e).proxies[i].seen
  {
    hide OwnStep, ResponseStep, MapStep;
    if e.Respond? {
      if e.sn in s.requests && s.requests[e.sn] < |s.proxies| { ResponseKeeps(s.proxies[s.requests[e.sn]], e.response); }
    } else if HasId(e) && e.id < |s.proxies| {
      SeenGrows(s.proxies[e.id], e);
    }
  }

  /** A status once reported is never changed or followed by another. */
  lemma {:induction false} SeenStays(es: seq<Event>, later: seq<Event>, i: nat, status: Status)
    requires Sees(es, i, status)
    ensures Sees(es + later, i, status)
    decreases |later|
  {
    hide Next;
    if later == [] {
      assert es + later == es;
    } else {
      var n := |later| - 1;
      SeenStays(es, later[..n], i, status);
      assert (es + later)[..|es| + n] == es + later[..n];
      SeenNext(After(es + later[..n]), later[n], i);
      CallbackOnce(es + later, i);
    }
  }

  /** The rest of a completion: whatever others do in between and anyone does after, the callback sees the
      status as it stands. */
  lemma {:induction false} Completes(es: seq<Event>, i: nat, mid: seq<Event>, later: seq<Event>)
    requires i < |After(es).proxies| && Elsewhere(mid, i, After(es).proxies[i].sn)
    requires var p := After(es).proxies[i]; p.posted > 0 && !p.claimed && p.callback && p.seen == []
    ensures Sees(es + [Posted(i)] + mid + [Call(i)] + later, i, After(es).proxies[i].status)
  {
    hide Next;
    OneStep(es, Posted(i), mid);
    var run := es + [Posted(i)] + mid;
    OneStep(run, Call(i), []);
    assert run + [Call(i)] + [] == run + [Call(i)];
    SeenStays(run + [Call(i)], later, i, After(es).proxies[i].status);
  }

  /** What is known of a request that waits. */
  lemma {:induction false} WaitingFacts(es: seq<Event>, i: nat)
    requires Waiting(es, i)
    ensures After(es).proxies[i].seen == [] && !After(es).proxies[i].calling && After(es).proxies[i].callback
  {
    hide Next;
    ConsistentRun(es);
    CallableRun(es);
    assert Callable(After(es).proxies[i]);
    assert Once(After(es).proxies[i]);
  }

  // ----- responses -----

  /** A response that ends the request. */
  lemma {:induction false} ResponseReports(es: seq<Event>, i: nat, r: Response, mid: seq<Event>, mid': seq<Event>, later: seq<Event>)
    requires Waiting(es, i) && Listed(After(es), i)
    requires Elsewhere(mid, i, After(es).proxies[i].sn) && Elsewhere(mid', i, After(es).proxies[i].sn)
    ensures var p := After(es).proxies[i];
            var run := es + [Respond(p.sn, r)] + mid + [Posted(i)] + mid' + [Call(i)] + later;
            && (r == BadXml ==> Sees(run, i, Failed))
            && (p.kind == OneResponse && r != BadXml ==> Sees(run, i, Succeeded))
            && (p.kind == ListRequest && r.Loaded? && r.ends ==> Sees(run, i, Succeeded))
            && (p.kind == ConfigRequest && r.Loaded? && r.ends && !r.refused ==> Sees(run, i, Succeeded))
            && (p.kind == ConfigRequest && r.Loaded? && r.refused ==> Sees(run, i, Failed))
  {
    hide Next, Listed, Sees, Elsewhere;
    WaitingFacts(es, i);
    var p := After(es).proxies[i];
    OneResponseStep(es, i, r, mid);
    var run := es + [Respond(p.sn, r)] + mid;
    if After(run).proxies[i].posted > 0 { Completes(run, i, mid', later); }
  }

  /** One that does not: the request waits as before, its first timer cancelled. */
  lemma {:induction false} ResponseWaits(es: seq<Event>, i: nat, r: Response)
    requires Waiting(es, i) && Listed(After(es), i) && r.Loaded?
    requires var k := After(es).proxies[i].kind;
             k == NoResponse || (k == ListRequest && !r.ends) || (k == ConfigRequest && !r.ends && !r.refused)
    ensures var run := es + [Respond(After(es).proxies[i].sn, r)];
            Waiting(run, i) && After(run).proxies[i] == After(es).proxies[i].(baseTimer := false)
  {
    hide Next, Listed;
    OneResponseStep(es, i, r, []);
    var run := es + [Respond(After(es).proxies[i].sn, r)];
    assert run + [] == run;
  }

  /** After a response the first timer no longer has an effect, after an ending batch or download neither has
      the other, which any other response leaves as it was. */
  lemma {:induction false} ResponseCancels(es: seq<Event>, i: nat, r: Response)
    requires Waiting(es, i) && Listed(After(es), i)
    ensures var run := es + [Respond(After(es).proxies[i].sn, r)];
            && After(run + [BaseTimer(i)]).proxies == After(run).proxies
            && (r.Loaded? && After(es).proxies[i].kind == ListRequest && r.ends ==>
                  After(run + [OwnTimer(i)]).proxies == After(run).proxies)
            && (r.Loaded? && After(es).proxies[i].kind == ConfigRequest && (r.ends || r.refused) ==>
                  After(run + [OwnTimer(i)]).proxies == After(run).proxies)
            && (r == BadXml || After(es).proxies[i].kind == OneResponse || After(es).proxies[i].kind == NoResponse ==>
                  After(run).proxies[i].ownTimer == After(es).proxies[i].ownTimer)
  {
    hide Next, Listed, ResponseStep;
    OneResponseStep(es, i, r, []);
    var run := es + [Respond(After(es).proxies[i].sn, r)];
    assert run + [] == run;
    assert (run + [BaseTimer(i)])[..|run|] == run && (run + [OwnTimer(i)])[..|run|] == run;
    ResponseKeeps(After(es).proxies[i], r);
    NoTimer(After(run), i);
  }

  lemma NoTimer(s: Platform, i: nat)
    requires i < |s.proxies|
    ensures !s.proxies[i].baseTimer ==> Next(s, BaseTimer(i)).proxies == s.proxies
    ensures !s.proxies[i].ownTimer ==> Next(s, OwnTimer(i)).proxies == s.proxies
  {
    hide BaseTimerStep, OwnTimerStep;
  }

  // ----- replies and timers -----

  /** A reply that ends the request, its decision, and the completion. */
  lemma {:induction false} ReplyReports(es: seq<Event>, i: nat, code: int, hasMessage: bool,
                     mid: seq<Event>, mid': seq<Event>, mid'': seq<Event>, later: seq<Event>)
    requires Waiting(es, i)
    requires var sn := After(es).proxies[i].sn; Elsewhere(mid, i, sn) && Elsewhere(mid', i, sn) && Elsewhere(mid'', i, sn)
    ensures var p := After(es).proxies[i];
            var run := es + [Reply(i, code, hasMessage)] + mid + [Decide(i)] + mid' + [Posted(i)] + mid'' + [Call(i)] + later;
            && (200 <= code < 300 && p.kind == NoResponse ==> Sees(run, i, Succeeded))
            && (code < 200 || code >= 300 ==>
                  Sees(run, i, if code == 408 || !hasMessage then Timeout else Failed))
  {
    hide Next, Sees, Elsewhere;
    WaitingFacts(es, i);
    OneStep(es, Reply(i, code, hasMessage), mid);
    var run := es + [Reply(i, code, hasMessage)] + mid;
    OneStep(run, Decide(i), mid');
    var run' := run + [Decide(i)] + mid';
    if After(run').proxies[i].posted > 0 { Completes(run', i, mid'', later); }
  }

  /** Which replies arm the own timer: a success for a list request, any for a download, none otherwise. */
  lemma ReplyArms(es: seq<Event>, i: nat, code: int, hasMessage: bool)
    requires i < |After(es).proxies| && After(es).proxies[i].phase == Sent
    ensures var p, run := After(es).proxies[i], es + [Reply(i, code, hasMessage)];
            i < |After(run).proxies| &&
            (After(run).proxies[i].ownTimer <==>
              p.ownTimer || p.kind == ConfigRequest || (p.kind == ListRequest && 200 <= code < 300))
  {
    hide Next;
    OneStep(es, Reply(i, code, hasMessage), []);
    assert es + [Reply(i, code, hasMessage)] + [] == es + [Reply(i, code, hasMessage)];
  }

  /** The last step of a completion drops the callback and the own timer. */
  lemma RemovalQuiets(es: seq<Event>, i: nat)
    requires i < |After(es).proxies|
    requires var p := After(es).proxies[i]; p.claimed && !p.calling && !p.finished
    ensures var run := es + [Remove(i)];
            && i < |After(run).proxies|
            && After(run).proxies[i] == After(es).proxies[i].(finished := true, callback := false, ownTimer := false)
  {
    hide Next;
    OneStep(es, Remove(i), []);
    assert es + [Remove(i)] + [] == es + [Remove(i)];
  }

  /** A success reply to a request that waits for a response leaves it waiting, with its first timer armed;
      that timer, or the own one of a list request or a download, then reports a timeout. */
  lemma {:induction false} RepliedThenTimer(es: seq<Event>, i: nat, code: int, hasMessage: bool, own: bool,
                         mid: seq<Event>, mid': seq<Event>, mid'': seq<Event>, later: seq<Event>)
    requires Waiting(es, i) && 200 <= code < 300 && After(es).proxies[i].kind != NoResponse
    requires own ==> After(es).proxies[i].kind != OneResponse
    requires var sn := After(es).proxies[i].sn; Elsewhere(mid, i, sn) && Elsewhere(mid', i, sn) && Elsewhere(mid'', i, sn)
    ensures var run := es + [Reply(i, code, hasMessage)] + mid + [Decide(i)] + mid';
            Waiting(run, i) &&
            Sees(run + [if own then OwnTimer(i) else BaseTimer(i)] + mid'' + [Posted(i)] + mid'' + [Call(i)] + later, i, Timeout)
  {
    hide Next, Sees, Elsewhere;
    WaitingFacts(es, i);
    OneStep(es, Reply(i, code, hasMessage), mid);
    var run := es + [Reply(i, code, hasMessage)] + mid;
    OneStep(run, Decide(i), mid');
    var run' := run + [Decide(i)] + mid';
    var timer := if own then OwnTimer(i) else BaseTimer(i);
    OneStep(run', timer, mid'');
    Completes(run' + [timer] + mid'', i, mid'', later);
  }

  /** Any armed timer that finds the status Replied reports a timeout. Otherwise the one of a list request
      does so too, the one of a download reports the status it finds, and the first one does nothing. */
  lemma {:induction false} TimerReports(es: seq<Event>, i: nat, own: bool, mid: seq<Event>, mid': seq<Event>, later: seq<Event>)
    requires Waiting(es, i) && Elsewhere(mid, i, After(es).proxies[i].sn) && Elsewhere(mid', i, After(es).proxies[i].sn)
    requires var p := After(es).proxies[i]; if own then p.ownTimer else p.baseTimer
    ensures var p := After(es).proxies[i];
            var timer := if own then OwnTimer(i) else BaseTimer(i);
            && (p.status == Replied || (own && p.kind == ListRequest) ==>
                  Sees(es + [timer] + mid + [Posted(i)] + mid' + [Call(i)] + later, i, Timeout))
            && (own && p.kind != ListRequest && p.status != Replied ==>
                  Sees(es + [timer] + mid + [Posted(i)] + mid' + [Call(i)] + later, i, p.status))
            && (!own && p.status != Replied ==> Waiting(es + [timer] + mid, i))
  {
    hide Next, Sees, Elsewhere;
    WaitingFacts(es, i);
    var timer := if own then OwnTimer(i) else BaseTimer(i);
    OneStep(es, timer, mid);
    var run := es + [timer] + mid;
    if After(run).proxies[i].posted > 0 { Completes(run, i, mid', later); }
  }

  // ----- sending -----

  lemma {:induction false} UnsentFacts(es: seq<Event>, i: nat)
    requires i < |After(es).proxies| && After(es).proxies[i].phase == Unsent
    ensures var p := After(es).proxies[i]; !p.claimed && p.seen == [] && p.posted == 0
  {
    hide Next;
    ConsistentRun(es);
  }

  /** A request whose payload cannot be made fails at once. */
  lemma {:induction false} BadPayloadReports(es: seq<Event>, i: nat, mid: seq<Event>, mid': seq<Event>, later: seq<Event>)
    requires i < |After(es).proxies| && After(es).proxies[i].phase == Unsent
    requires Elsewhere(mid, i, After(es).proxies[i].sn) && Elsewhere(mid', i, After(es).proxies[i].sn)
    ensures Sees(es + [Send(i, BadPayload)] + mid + [Posted(i)] + mid' + [Call(i)] + later, i, Failed)
  {
    hide Next, Sees, Elsewhere;
    UnsentFacts(es, i);
    OneStep(es, Send(i, BadPayload), mid);
    Completes(es + [Send(i, BadPayload)] + mid, i, mid', later);
  }

  /** One that can be sent is listed under its number and waits. */
  lemma {:induction false} SentWaits(es: seq<Event>, i: nat)
    requires i < |After(es).proxies| && After(es).proxies[i].phase == Unsent
    ensures Waiting(es + [Send(i, Accepted)], i) && Listed(After(es + [Send(i, Accepted)]), i)
  {
    UnsentFacts(es, i);
    assert (es + [Send(i, Accepted)])[..|es|] == es;
  }

  /** A failed transport of a request nothing has ended. */
  lemma {:induction false} SendFailureReports(es: seq<Event>, i: nat, mid: seq<Event>, mid': seq<Event>, later: seq<Event>)
    requires Waiting(es, i) && Elsewhere(mid, i, After(es).proxies[i].sn) && Elsewhere(mid', i, After(es).proxies[i].sn)
    ensures Sees(es + [SendFailed(i)] + mid + [Posted(i)] + mid' + [Call(i)] + later, i, Failed)
  {
    hide Next, Sees, Elsewhere;
    WaitingFacts(es, i);
    OneStep(es, SendFailed(i), mid);
    Completes(es + [SendFailed(i)] + mid, i, mid', later);
  }

  /** Refused before its callback was stored. */
  predicate Mute(p: Proxy) { !p.callback && !p.calling && p.seen == [] }

  lemma MuteStep(p: Proxy, e: Event)
    requires Mute(p) && (p.phase == Unsent ==> !e.Send? || e.outcome == NoMessage)
    ensures Mute(OwnStep(p, e))
  {}

  lemma MuteResponse(p: Proxy, r: Response)
    requires Mute(p)
    ensures Mute(ResponseStep(p, r)) && ResponseStep(p, r).phase == p.phase
  {
    hide ResponseStep;
    ResponseKeeps(p, r);
  }

  lemma MuteNext(s: Platform, e: Event, i: nat)
    requires i < |s.proxies| && Mute(s.proxies[i])
    requires s.proxies[i].phase == Unsent ==> !(e.Send? && e.id == i && e.outcome != NoMessage)
    ensures i < |Next(s, e).proxies| && Mute(Next(s, e).proxies[i])
    ensures s.proxies[i].phase != Unsent ==> Next(s, e).proxies[i].phase == s.proxies[i].phase
  {
    hide OwnStep, ResponseStep, MapStep, Mute;
    if e.Respond? {
      if e.sn in s.requests && s.requests[e.sn] == i { MuteResponse(s.proxies[i], e.response); }
    } else if HasId(e) && e.id == i {
      MuteStep(s.proxies[i], e);
      SamePhase(s.proxies[i], e);
    }
  }

  lemma {:induction false} UnsentMute(es: seq<Event>, i: nat)
    requires i < |After(es).proxies| && After(es).proxies[i].phase == Unsent
    ensures Mute(After(es).proxies[i])
  {
    hide Mute;
    if es != [] {
      var before, e := es[..|es| - 1], es[|es| - 1];
      SizeNext(After(before), e);
      if i < |After(before).proxies| {
        SentStays(After(before), e, i);
        UnsentMute(before, i);
        MuteNext(After(before), e, i);
      } else {
        NewMute(e.kind, if e.sn != 0 then e.sn else Counters.SnAt(After(before).issued));
      }
    }
  }

  lemma NewMute(kind: Kind, sn: int)
    ensures Mute(NewProxy(kind, sn))
  {}

  lemma SentStays(s: Platform, e: Event, i: nat)
    requires i < |s.proxies|
    ensures i < |Next(s, e).proxies|
    ensures Next(s, e).proxies[i].phase == Unsent ==> s.proxies[i].phase == Unsent && !(e.Send? && e.id == i)
  {
    hide OwnStep, ResponseStep, MapStep;
    if e.Respond? {
      if e.sn in s.requests && s.requests[e.sn] == i { assert Frame(s.proxies[i], ResponseStep(s.proxies[i], e.response)); }
    } else if HasId(e) && e.id == i {
      SamePhase(s.proxies[i], e);
      if e.Send? && s.proxies[i].phase == Unsent { SendLeaves(s.proxies[i], e.id, e.outcome); }
    }
  }

  lemma SendLeaves(p: Proxy, id: nat, o: SendOutcome)
    requires p.phase == Unsent
    ensures OwnStep(p, Send(id, o)).phase != Unsent
  {
    hide Ended, Refuse;
  }

  /** Without a message nobody is told, whatever comes after. */
  lemma {:induction false} NoMessageIsMute(es: seq<Event>, i: nat, later: seq<Event>)
    requires i < |After(es).proxies| && After(es).proxies[i].phase == Unsent
    ensures var run := es + [Send(i, NoMessage)] + later;
            && i < |After(run).proxies| && Mute(After(run).proxies[i]) && After(run).proxies[i].seen == []
            && After(run).proxies[i].phase == Refused
    decreases |later|
  {
    hide Next, Mute;
    var first := es + [Send(i, NoMessage)];
    if later == [] {
      assert first[..|es|] == es && first + [] == first;
      UnsentMute(es, i);
      NoMessageNext(After(es), i);
    } else {
      var n := |later| - 1;
      NoMessageIsMute(es, i, later[..n]);
      assert (first + later)[..|first| + n] == first + later[..n];
      MuteNext(After(first + later[..n]), later[n], i);
    }
    assert forall p: Proxy {:trigger Mute(p)} :: Mute(p) ==> p.seen == [] by { SeenNone(); }
  }

  lemma SeenNone()
    ensures forall p: Proxy {:trigger Mute(p)} :: Mute(p) ==> p.seen == []
  {}

  lemma NoMessageNext(s: Platform, i: nat)
    requires i < |s.proxies| && s.proxies[i].phase == Unsent && Mute(s.proxies[i])
    ensures var t := Next(s, Send(i, NoMessage)); i < |t.proxies| && Mute(t.proxies[i]) && t.proxies[i].phase == Refused
  {}
}
