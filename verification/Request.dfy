/** The life of a request (`RequestProxyImpl` and the map of pending requests in `PlatformHelper`):
    replies, responses, timers and failures race to complete it.

    `on_completed` is three steps, as other threads see it: claiming the result flag, calling the result
    callback, and removing the request from the map. What leads up to it is a step of its own: storing
    a reply, deciding on the stored status, and the status write of a response, a timer or a send
    failure, after which user callbacks may run before the completion. */
module Request {
  import Counters

  datatype Kind = NoResponse | OneResponse | ListRequest | ConfigRequest
  datatype Status = Init | Sending | Replied | Succeeded | Timeout | Failed

  /** Where `send` has got: not called, refused before sending, or in the map and on its way. */
  datatype Phase = Unsent | Refused | Sent

  /** `posted` counts the completions still to come, in the thread that wrote the status or on a poller;
      `calling` is the time between winning the result flag and calling the callback. */
  datatype Proxy = Proxy(
    kind: Kind, sn: int, phase: Phase, status: Status,
    claimed: bool, calling: bool, finished: bool, callback: bool, seen: seq<Status>,
    replied: bool, deciding: bool, posted: nat, baseTimer: bool, ownTimer: bool)

  datatype SendOutcome = NoMessage | BadPayload | Accepted

  /** A response message: its XML may not load; otherwise whether it ends the request, and for a
      config download whether it refuses it. */
  datatype Response = BadXml | Loaded(ends: bool, refused: bool)

  /** What most steps leave alone. */
  predicate Frame(p: Proxy, q: Proxy) {
    q.sn == p.sn && q.kind == p.kind && q.phase == p.phase && q.finished == p.finished
  }

  function NewProxy(kind: Kind, sn: int): Proxy {
    Proxy(kind, sn, Unsent, Init, false, false, false, false, [], false, false, 0, false, false)
  }

  // ----- one request -----

  /** The first step of `on_completed`: only the first caller passes. */
  function Claim(p: Proxy): (q: Proxy)
    ensures Frame(p, q) && q.claimed && q.seen == p.seen
  {
    if p.claimed then p else p.(claimed := true, calling := p.callback)
  }

  /** The second: the callback sees the status of that moment. */
  function CallStep(p: Proxy): (q: Proxy)
    ensures Frame(p, q)
  {
    p.(calling := false, seen := p.seen + [p.status])
  }

  /** The third: the callbacks are dropped and the map entry removed. */
  function Finish(p: Proxy): Proxy {
    p.(finished := true, callback := false, ownTimer := false)
  }

  /** A status is written, and the completion is to come. */
  function Ended(p: Proxy, status: Status): (q: Proxy)
    ensures Frame(p, q) && q.posted == p.posted + 1 && q.status == status
  {
    p.(status := status, posted := p.posted + 1)
  }

  function Refuse(p: Proxy, callback: bool): (q: Proxy)
    ensures q.sn == p.sn && q.kind == p.kind && q.finished == p.finished && q.phase == Refused && q.posted == p.posted
  {
    p.(phase := Refused, callback := callback)
  }

  function SendStep(p: Proxy, o: SendOutcome): Proxy {
    match o
    case NoMessage => Ended(Refuse(p, p.callback), Failed)
    case BadPayload => Ended(Refuse(p, true), Failed)
    case Accepted => p.(phase := Sent, callback := true)
  }

  function SendFailedStep(p: Proxy): (q: Proxy)
    ensures Frame(p, q)
  {
    Ended(p, Failed)
  }

  predicate SipSuccess(code: int) { 200 <= code < 300 }

  function ReplyStatus(kind: Kind, code: int, hasMessage: bool): Status {
    if SipSuccess(code) then (if kind == NoResponse then Succeeded else Replied)
    else if code == 408 || !hasMessage then Timeout
    else Failed
  }

  /** The list request starts its timer when the status is Replied, the config download always. */
  function StoreReply(p: Proxy, code: int, hasMessage: bool): (q: Proxy)
    ensures Frame(p, q)
  {
    var status := ReplyStatus(p.kind, code, hasMessage);
    p.(status := status, replied := true, deciding := true,
       ownTimer := p.ownTimer || p.kind == ConfigRequest || (p.kind == ListRequest && status == Replied))
  }

  function DecideReply(p: Proxy): (q: Proxy)
    ensures Frame(p, q)
  {
    var n := p.(deciding := false);
    if p.status != Replied then Ended(n, p.status) else n.(baseTimer := true)
  }

  function BaseTimerStep(p: Proxy): (q: Proxy)
    ensures Frame(p, q)
  {
    var n := p.(baseTimer := false);
    if p.status == Replied then Ended(n, Timeout) else n
  }

  /** The list's timer times out whatever the status; the config download's only a replied one, but
      completes either way. */
  function OwnTimerStep(p: Proxy): (q: Proxy)
    ensures Frame(p, q)
  {
    var n := p.(ownTimer := false);
    Ended(n, if p.kind == ListRequest || p.status == Replied then Timeout else p.status)
  }

  /** The first timer is cancelled by any response, the own one by an ending one. */
  function Quiet(p: Proxy, ends: bool): (q: Proxy)
    ensures Frame(p, q) && q.status == p.status && q.posted == p.posted
  {
    p.(baseTimer := false, ownTimer := p.ownTimer && !ends)
  }

  function ResponseStep(p: Proxy, r: Response): (q: Proxy)
    ensures Frame(p, q)
  {
    match r
    case BadXml => Ended(Quiet(p, false), Failed)
    case Loaded(ends, refused) =>
      match p.kind
      case NoResponse => Quiet(p, false)
      case OneResponse => Ended(Quiet(p, false), Succeeded)
      case ListRequest => if ends then Ended(Quiet(p, true), Succeeded) else Quiet(p, false)
      case ConfigRequest =>
        if refused then Ended(Quiet(p, true), Failed)
        else if ends then Ended(Quiet(p, true), Succeeded)
        else Quiet(p, false)
  }

  function PostedStep(p: Proxy): (q: Proxy)
    requires p.posted > 0
    ensures Frame(p, q)
  {
    Claim(p.(posted := p.posted - 1))
  }

  // ----- the platform -----

  datatype Platform = Platform(issued: nat, proxies: seq<Proxy>, requests: map<int, nat>)

  datatype Event =
    | Create(kind: Kind, sn: int)                     // 0: take a new number
    | Send(id: nat, outcome: SendOutcome)
    | SendFailed(id: nat)
    | Reply(id: nat, code: int, hasMessage: bool)
    | Decide(id: nat)
    | Respond(sn: int, response: Response)
    | BaseTimer(id: nat)
    | OwnTimer(id: nat)
    | Posted(id: nat)                                 // a completion that was to come begins
    | Call(id: nat)
    | Remove(id: nat)

  function Start(): Platform { Platform(0, [], map[]) }

  predicate Removable(p: Proxy) { p.claimed && !p.calling && !p.finished }

  /** The step an event makes on the request it is for, when it is possible there. */
  function OwnStep(p: Proxy, e: Event): Proxy {
    match e
    case Send(_, o) => if p.phase == Unsent then SendStep(p, o) else p
    case SendFailed(_) => if p.phase == Sent then SendFailedStep(p) else p
    case Reply(_, code, m) => if p.phase == Sent then StoreReply(p, code, m) else p
    case Decide(_) => if p.deciding then DecideReply(p) else p
    case BaseTimer(_) => if p.baseTimer then BaseTimerStep(p) else p
    case OwnTimer(_) => if p.ownTimer then OwnTimerStep(p) else p
    case Posted(_) => if p.posted > 0 then PostedStep(p) else p
    case Call(_) => if p.calling then CallStep(p) else p
    case Remove(_) => if Removable(p) then Finish(p) else p
    case _ => p
  }

  function MapStep(requests: map<int, nat>, p: Proxy, e: Event): map<int, nat> {
    match e
    case Send(id, Accepted) => if p.phase == Unsent then requests[p.sn := id] else requests
    case Remove(_) => if Removable(p) then requests - {p.sn} else requests
    case _ => requests
  }

  predicate HasId(e: Event) { !e.Create? && !e.Respond? }

  function Next(s: Platform, e: Event): Platform {
    match e
    case Create(kind, sn) =>
      if sn != 0 then s.(proxies := s.proxies + [NewProxy(kind, sn)])
      else s.(issued := s.issued + 1, proxies := s.proxies + [NewProxy(kind, Counters.SnAt(s.issued))])
    case Respond(sn, r) =>
      if sn in s.requests && s.requests[sn] < |s.proxies|
      then var id := s.requests[sn]; s.(proxies := s.proxies[id := ResponseStep(s.proxies[id], r)])
      else s
    case _ =>
      if e.id >= |s.proxies| then s
      else s.(proxies := s.proxies[e.id := OwnStep(s.proxies[e.id], e)], requests := MapStep(s.requests, s.proxies[e.id], e))
  }

  /** The status code returned to the sender of a response: 404 when nobody waits for it. What a
      waiting request answers with is up to its response callback. */
  predicate Unclaimed(s: Platform, sn: int) { sn !in s.requests }

  function Execute(s: Platform, es: seq<Event>): Platform {
    if es == [] then s else Next(Execute(s, es[..|es| - 1]), es[|es| - 1])
  }

  // ----- the result callback fires once -----

  predicate Once(p: Proxy) {
    && |p.seen| <= 1
    && (!p.claimed ==> p.seen == [] && !p.calling)
    && (p.calling ==> p.seen == [])
    && (p.finished ==> p.claimed)
    && (p.phase == Unsent ==> !p.claimed && p.posted == 0 && !p.baseTimer && !p.ownTimer && !p.deciding)
  }

  lemma OwnStepOnce(p: Proxy, e: Event)
    requires Once(p)
    ensures Once(OwnStep(p, e))
  {
    if e.Send? { SendOnce(p, e); }
    else if e.Reply? || e.Decide? { ReplyOnce(p, e); }
    else if e.BaseTimer? || e.OwnTimer? { TimerOnce(p, e); }
    else { EndOnce(p, e); }
  }

  lemma EndOnce(p: Proxy, e: Event)
    requires Once(p) && !e.Send? && !e.Reply? && !e.Decide? && !e.BaseTimer? && !e.OwnTimer?
    ensures Once(OwnStep(p, e))
  {}

  lemma SendOnce(p: Proxy, e: Event)
    requires Once(p) && e.Send?
    ensures Once(OwnStep(p, e))
  {}

  lemma ReplyOnce(p: Proxy, e: Event)
    requires Once(p) && (e.Reply? || e.Decide?)
    ensures Once(OwnStep(p, e))
  {}

  lemma TimerOnce(p: Proxy, e: Event)
    requires Once(p) && (e.BaseTimer? || e.OwnTimer?)
    ensures Once(OwnStep(p, e))
  {}

  lemma ResponseOnce(p: Proxy, r: Response)
    requires Once(p) && p.phase == Sent
    ensures Once(ResponseStep(p, r))
  {
    hide Ended, Quiet, Once;
    QuietOnce(p, false);
    QuietOnce(p, true);
    EndedOnce(Quiet(p, false), Failed);
    EndedOnce(Quiet(p, false), Succeeded);
    EndedOnce(Quiet(p, true), Failed);
    EndedOnce(Quiet(p, true), Succeeded);
  }

  lemma QuietOnce(p: Proxy, ends: bool)
    requires Once(p)
    ensures Once(Quiet(p, ends))
  {}

  lemma EndedOnce(p: Proxy, status: Status)
    requires Once(p) && p.phase != Unsent
    ensures Once(Ended(p, status))
  {}

  ghost predicate Consistent(s: Platform) {
    && (forall i :: 0 <= i < |s.proxies| ==> Once(s.proxies[i]))
    && (forall sn :: sn in s.requests ==>
          s.requests[sn] < |s.proxies| && s.proxies[s.requests[sn]].sn == sn && s.proxies[s.requests[sn]].phase == Sent)
  }

  lemma SendFrame(p: Proxy, o: SendOutcome)
    ensures var q := SendStep(p, o); q.sn == p.sn && q.kind == p.kind && q.finished == p.finished
  {
    hide Ended, Refuse;
  }

  lemma OtherFrame(p: Proxy, e: Event)
    requires !e.Send? && !e.Remove?
    ensures Frame(p, OwnStep(p, e))
  {
    hide Claim, CallStep, SendFailedStep, StoreReply, DecideReply, BaseTimerStep, OwnTimerStep, PostedStep, Frame;
    SelfFrame(p);
  }

  lemma SelfFrame(p: Proxy)
    ensures Frame(p, p)
  {}

  /** Only sending and removal touch what a step otherwise leaves alone. */
  lemma SamePhase(p: Proxy, e: Event)
    ensures OwnStep(p, e).sn == p.sn && OwnStep(p, e).kind == p.kind
    ensures !(e.Send? && p.phase == Unsent) ==> OwnStep(p, e).phase == p.phase
    ensures !e.Remove? ==> OwnStep(p, e).finished == p.finished
    ensures p.finished ==> OwnStep(p, e).finished
  {
    if e.Send? {
      hide SendStep;
      SendFrame(p, e.outcome);
    } else if !e.Remove? {
      hide OwnStep;
      OtherFrame(p, e);
    }
  }

  lemma ConsistentNext(s: Platform, e: Event)
    requires Consistent(s)
    ensures Consistent(Next(s, e))
  {
    hide Once, OwnStep, ResponseStep;
    if e.Create? {
      FreshOnce(e.kind, if e.sn != 0 then e.sn else Counters.SnAt(s.issued));
    } else if e.Respond? {
      if e.sn in s.requests {
        ResponseOnce(s.proxies[s.requests[e.sn]], e.response);
        assert Frame(s.proxies[s.requests[e.sn]], ResponseStep(s.proxies[s.requests[e.sn]], e.response));
      }
    } else if e.id < |s.proxies| {
      OwnStepOnce(s.proxies[e.id], e);
      SamePhase(s.proxies[e.id], e);
      SentIsSent(s.proxies[e.id], e);
    }
  }

  lemma FreshOnce(kind: Kind, sn: int)
    ensures Once(NewProxy(kind, sn))
  {}

  lemma SentIsSent(p: Proxy, e: Event)
    ensures e.Send? && e.outcome.Accepted? && p.phase == Unsent ==> OwnStep(p, e).phase == Sent
  {}

  lemma {:induction false} ConsistentRun(es: seq<Event>)
    ensures Consistent(Execute(Start(), es))
  {
    hide Next, Consistent;
    if es != [] {
      ConsistentRun(es[..|es| - 1]);
      ConsistentNext(Execute(Start(), es[..|es| - 1]), es[|es| - 1]);
    } else {
      ConsistentStart();
    }
  }

  lemma ConsistentStart()
    ensures Consistent(Start())
  {}

  /** In every run of every number of requests, shared numbers or not: no result callback fires twice. */
  lemma {:induction false} CallbackOnce(es: seq<Event>, i: nat)
    requires i < |Execute(Start(), es).proxies|
    ensures |Execute(Start(), es).proxies[i].seen| <= 1
  {
    ConsistentRun(es);
  }

  // ----- the map -----

  /** No other request carries the number of request `i`. */
  ghost predicate Alone(s: Platform, i: nat)
    requires i < |s.proxies|
  {
    forall j :: 0 <= j < |s.proxies| && j != i ==> s.proxies[j].sn != s.proxies[i].sn
  }

  predicate Listed(s: Platform, i: nat)
    requires i < |s.proxies|
  {
    s.proxies[i].sn in s.requests && s.requests[s.proxies[i].sn] == i
  }

  predicate Pending(p: Proxy) { p.phase == Sent && !p.finished }

  lemma {:induction false} NumbersStay(s: Platform, e: Event)
    ensures |Next(s, e).proxies| >= |s.proxies|
    ensures forall i :: 0 <= i < |s.proxies| ==> Next(s, e).proxies[i].sn == s.proxies[i].sn
    ensures forall i :: 0 <= i < |s.proxies| && s.proxies[i].finished ==> Next(s, e).proxies[i].finished
  {
    hide OwnStep, ResponseStep;
    if e.Respond? {
      if e.sn in s.requests && s.requests[e.sn] < |s.proxies| {
        var id := s.requests[e.sn];
        assert Frame(s.proxies[id], ResponseStep(s.proxies[id], e.response));
      }
    } else if HasId(e) && e.id < |s.proxies| {
      SamePhase(s.proxies[e.id], e);
    }
  }

  /** Another request of the same number enters or leaves the map. */
  predicate Disturbs(s: Platform, e: Event, i: nat)
    requires i < |s.proxies|
  {
    && HasId(e) && e.id != i && e.id < |s.proxies| && s.proxies[e.id].sn == s.proxies[i].sn
    && if e.Remove? then Removable(s.proxies[e.id])
       else e.Send? && e.outcome == Accepted && s.proxies[e.id].phase == Unsent
  }

  predicate Sends(s: Platform, e: Event, i: nat)
    requires i < |s.proxies|
  {
    e.Send? && e.id == i && e.outcome == Accepted && s.proxies[i].phase == Unsent
  }

  /** Since request `i` was last put into the map no other request of its number was sent or removed. */
  predicate Undisturbed(es: seq<Event>, i: nat) {
    es == [] || (
      var s, e := Execute(Start(), es[..|es| - 1]), es[|es| - 1];
      i >= |s.proxies| || Sends(s, e, i) || (Undisturbed(es[..|es| - 1], i) && !Disturbs(s, e, i)))
  }

  lemma SizeNext(s: Platform, e: Event)
    ensures |Next(s, e).proxies| == |s.proxies| + if e.Create? then 1 else 0
  {
    hide OwnStep, ResponseStep;
  }

  /** How a step changes whether its request is pending, beside what it does to the map. */
  lemma StepPending(p: Proxy, e: Event)
    requires Once(p) && HasId(e)
    ensures Pending(OwnStep(p, e)) <==>
            if e.Send? && p.phase == Unsent then e.outcome == Accepted
            else Pending(p) && !(e.Remove? && Removable(p))
  {
    hide Claim, CallStep, SendFailedStep, StoreReply, DecideReply, BaseTimerStep, OwnTimerStep, PostedStep;
    if !e.Send? && !e.Remove? { SamePhase(p, e); }
  }

  lemma ListedOwn(s: Platform, e: Event, i: nat)
    requires Consistent(s) && HasId(e) && e.id < |s.proxies| && i < |s.proxies|
    ensures Listed(Next(s, e), i) <==>
            Sends(s, e, i) || (Listed(s, i) && !Disturbs(s, e, i) && !(e == Remove(i) && Removable(s.proxies[i])))
  {
    hide OwnStep, Once;
    SamePhase(s.proxies[e.id], e);
  }

  lemma PendingOwn(s: Platform, e: Event, i: nat)
    requires Consistent(s) && HasId(e) && e.id < |s.proxies| && i < |s.proxies|
    ensures Pending(Next(s, e).proxies[i]) <==>
            Sends(s, e, i) || (Pending(s.proxies[i]) && !(e == Remove(i) && Removable(s.proxies[i])))
  {
    hide OwnStep;
    StepPending(s.proxies[e.id], e);
  }

  lemma OthersQuiet(s: Platform, e: Event, i: nat)
    requires Consistent(s) && i < |s.proxies| && (!HasId(e) || e.id >= |s.proxies|)
    ensures i < |Next(s, e).proxies| && (Listed(Next(s, e), i) <==> Listed(s, i))
    ensures Pending(Next(s, e).proxies[i]) <==> Pending(s.proxies[i])
    ensures !Sends(s, e, i) && !Disturbs(s, e, i)
  {
    hide OwnStep, ResponseStep, Once;
    if e.Respond? && e.sn in s.requests {
      var id := s.requests[e.sn];
      assert Frame(s.proxies[id], ResponseStep(s.proxies[id], e.response));
    }
  }

  lemma CreatedOutside(s: Platform, e: Event)
    requires Consistent(s) && e.Create?
    ensures var t := Next(s, e); |t.proxies| == |s.proxies| + 1 && !Listed(t, |s.proxies|) && !Pending(t.proxies[|s.proxies|])
  {
    hide Once;
  }

  /** In every run, whatever numbers the requests share: request `i` is in the map exactly while it is
      pending and no other request of its number has been sent or removed since it was sent. */
  lemma {:induction false} MapExactly(es: seq<Event>, i: nat)
    requires i < |Execute(Start(), es).proxies|
    ensures Listed(Execute(Start(), es), i) <==> Pending(Execute(Start(), es).proxies[i]) && Undisturbed(es, i)
  {
    hide Next, Consistent, Listed, Pending, Sends, Disturbs;
    if es != [] {
      var before, e := es[..|es| - 1], es[|es| - 1];
      var s := Execute(Start(), before);
      ConsistentRun(before);
      SizeNext(s, e);
      if i >= |s.proxies| {
        CreatedOutside(s, e);
      } else {
        MapExactly(before, i);
        if HasId(e) && e.id < |s.proxies| {
          ListedOwn(s, e, i);
          PendingOwn(s, e, i);
        } else {
          OthersQuiet(s, e, i);
        }
      }
    }
  }

  lemma AloneBefore(s: Platform, e: Event, i: nat)
    requires i < |s.proxies| && |Next(s, e).proxies| >= |s.proxies| && Alone(Next(s, e), i)
    ensures Alone(s, i) && !Disturbs(s, e, i)
  {
    hide Next;
    NumbersStay(s, e);
    var t := Next(s, e);
    forall j | 0 <= j < |s.proxies| && j != i ensures s.proxies[j].sn != s.proxies[i].sn {
      assert t.proxies[j].sn == s.proxies[j].sn && t.proxies[i].sn == s.proxies[i].sn;
    }
  }

  lemma {:induction false} AloneUndisturbed(es: seq<Event>, i: nat)
    requires i < |Execute(Start(), es).proxies| && Alone(Execute(Start(), es), i)
    ensures Undisturbed(es, i)
  {
    hide Next, Alone, Disturbs, Sends;
    if es != [] {
      var s := Execute(Start(), es[..|es| - 1]);
      SizeNext(s, es[|es| - 1]);
      if i < |s.proxies| {
        AloneBefore(s, es[|es| - 1], i);
        AloneUndisturbed(es[..|es| - 1], i);
      }
    }
  }

  /** A request alone with its number is in the map exactly while it is pending. */
  lemma {:induction false} AgreesRun(es: seq<Event>, i: nat)
    requires i < |Execute(Start(), es).proxies| && Alone(Execute(Start(), es), i)
    ensures Listed(Execute(Start(), es), i) <==> Pending(Execute(Start(), es).proxies[i])
  {
    hide Next, Alone, Listed, Pending;
    MapExactly(es, i);
    AloneUndisturbed(es, i);
  }

  lemma {:induction false} FinishedStays(s: Platform, es: seq<Event>, i: nat)
    requires i < |s.proxies| && s.proxies[i].finished
    ensures var t := Execute(s, es); i < |t.proxies| && t.proxies[i].finished && t.proxies[i].sn == s.proxies[i].sn
  {
    hide Next;
    if es != [] {
      var before := es[..|es| - 1];
      FinishedStays(s, before, i);
      NumbersStay(Execute(s, before), es[|es| - 1]);
    }
  }

  lemma {:induction false} ExecuteAppend(s: Platform, a: seq<Event>, b: seq<Event>)
    ensures Execute(s, a + b) == Execute(Execute(s, a), b)
  {
    hide Next;
    if b == [] {
      assert a + b == a;
    } else {
      var n := |b| - 1;
      assert (a + b)[..|a| + n] == a + b[..n];
      ExecuteAppend(s, a, b[..n]);
    }
  }

  /** A completed request whose number no other request shares is out of the map, and stays out: any
      later response for it is answered with 404. */
  lemma {:induction false} LateResponses(es: seq<Event>, later: seq<Event>, i: nat)
    requires i < |Execute(Start(), es).proxies| && Execute(Start(), es).proxies[i].finished
    requires i < |Execute(Start(), es + later).proxies| && Alone(Execute(Start(), es + later), i)
    ensures Unclaimed(Execute(Start(), es + later), Execute(Start(), es).proxies[i].sn)
  {
    hide Next;
    ExecuteAppend(Start(), es, later);
    FinishedStays(Execute(Start(), es), later, i);
    MapExactly(es + later, i);
    ConsistentRun(es + later);
    assert !Listed(Execute(Start(), es + later), i);
  }

  ghost predicate AllFresh(s: Platform) {
    |s.proxies| == s.issued && forall i :: 0 <= i < |s.proxies| ==> s.proxies[i].sn == Counters.SnAt(i)
  }

  predicate OnlyFresh(es: seq<Event>) {
    forall k :: 0 <= k < |es| && es[k].Create? ==> es[k].sn == 0
  }

  lemma {:induction false} FreshRun(es: seq<Event>)
    requires OnlyFresh(es)
    ensures AllFresh(Execute(Start(), es))
  {
    hide Next;
    if es != [] {
      var before := es[..|es| - 1];
      FreshRun(before);
      NumbersStay(Execute(Start(), before), es[|es| - 1]);
      FreshNext(Execute(Start(), before), es[|es| - 1]);
    }
  }

  lemma FreshNext(s: Platform, e: Event)
    requires AllFresh(s) && (e.Create? ==> e.sn == 0)
    ensures AllFresh(Next(s, e))
  {
    hide OwnStep, ResponseStep;
    NumbersStay(s, e);
  }

  /** Numbers taken from `get_new_sn` are not shared among the first 2^31 - 1 requests. */
  lemma {:induction false} FreshAlone(es: seq<Event>, i: nat)
    requires OnlyFresh(es) && i < |Execute(Start(), es).proxies| <= Counters.SN_LIMIT
    ensures Alone(Execute(Start(), es), i)
  {
    hide Next;
    FreshRun(es);
    var s := Execute(Start(), es);
    forall j | 0 <= j < |s.proxies| && j != i ensures s.proxies[j].sn != s.proxies[i].sn {
      Counters.SnDistinct(i, j);
    }
  }

  /** A shared number breaks the agreement, in every run, for every number and every two kinds: a
      request built with the number of a pending one takes over its map entry and removes it on
      completion, so the pending request misses its response. */
  lemma {:induction false} SharedNumber(es: seq<Event>, i: nat, j: nat)
    requires var s := Execute(Start(), es);
             && i < |s.proxies| && j < |s.proxies| && s.proxies[i].sn == s.proxies[j].sn
             && Pending(s.proxies[i]) && s.proxies[j].phase == Unsent
    ensures var t := Execute(Start(), es + [Send(j, Accepted), SendFailed(j), Posted(j), Call(j), Remove(j)]);
            && i < |t.proxies| && Pending(t.proxies[i]) && Unclaimed(t, t.proxies[i].sn)
  {
    hide Next, Consistent;
    var s := Execute(Start(), es);
    ConsistentRun(es);
    var steps := [Send(j, Accepted), SendFailed(j), Posted(j), Call(j), Remove(j)];
    ExecuteAppend(Start(), es, steps);
    FiveSteps(s, Send(j, Accepted), SendFailed(j), Posted(j), Call(j), Remove(j));
    TakenOver(s, i, j);
  }

  lemma FiveSteps(s: Platform, a: Event, b: Event, c: Event, d: Event, e: Event)
    ensures Execute(s, [a, b, c, d, e]) == Next(Next(Next(Next(Next(s, a), b), c), d), e)
  {
    hide Next;
    var es := [a, b, c, d, e];
    assert es[..4] == [a, b, c, d] && [a, b, c, d][..3] == [a, b, c] && [a, b, c][..2] == [a, b] && [a, b][..1] == [a] && [a][..0] == [];
    assert Execute(s, [a]) == Next(s, a);
    assert Execute(s, [a, b]) == Next(Next(s, a), b);
    assert Execute(s, [a, b, c]) == Next(Next(Next(s, a), b), c);
    assert Execute(s, [a, b, c, d]) == Next(Next(Next(Next(s, a), b), c), d);
  }

  lemma TakenOver(s: Platform, i: nat, j: nat)
    requires Consistent(s) && i < |s.proxies| && j < |s.proxies| && s.proxies[i].sn == s.proxies[j].sn
    requires Pending(s.proxies[i]) && s.proxies[j].phase == Unsent
    ensures var t := Next(Next(Next(Next(Next(s, Send(j, Accepted)), SendFailed(j)), Posted(j)), Call(j)), Remove(j));
            && i < |t.proxies| && t.proxies[i] == s.proxies[i] && Unclaimed(t, s.proxies[i].sn)
  {
    var p := s.proxies[j];
    assert Once(p);
    var p1 := OwnStep(p, Send(j, Accepted));
    var p2 := OwnStep(p1, SendFailed(j));
    var p3 := OwnStep(p2, Posted(j));
    var p4 := OwnStep(p3, Call(j));
    assert Removable(p4);
    hide OwnStep;
    var t1 := Next(s, Send(j, Accepted));
    assert t1.proxies[j] == p1 && t1.proxies[i] == s.proxies[i] && p1.sn == p.sn;
    var t2 := Next(t1, SendFailed(j));
    assert t2.proxies[j] == p2 && t2.proxies[i] == s.proxies[i];
    var t3 := Next(t2, Posted(j));
    assert t3.proxies[j] == p3 && t3.proxies[i] == s.proxies[i];
    var t4 := Next(t3, Call(j));
    assert t4.proxies[j] == p4 && t4.proxies[i] == s.proxies[i] && p4.sn == p.sn;
  }

  // ----- the status the callback sees -----

  predicate Final(s: Status) { s == Succeeded || s == Timeout || s == Failed }

  /** A success reply is stored for a request that waits for a response, while a completion is still to
      come or the callback still to be called: something overtook the reply. */
  predicate Overwrites(p: Proxy, e: Event) {
    && e.Reply? && SipSuccess(e.code) && p.kind != NoResponse && p.phase == Sent
    && (p.calling || (!p.claimed && p.posted > 0))
  }

  predicate Overtaken(s: Platform, e: Event) {
    e.Reply? && e.id < |s.proxies| && Overwrites(s.proxies[e.id], e)
  }

  predicate NoneOvertaken(es: seq<Event>) {
    es == [] || (NoneOvertaken(es[..|es| - 1]) && !Overtaken(Execute(Start(), es[..|es| - 1]), es[|es| - 1]))
  }

  predicate Orderly(p: Proxy) {
    && (p.replied ==> p.status == Replied || Final(p.status))
    && (p.deciding || p.ownTimer || p.baseTimer ==> p.replied)
    && (p.calling || (!p.claimed && p.posted > 0) ==> Final(p.status))
    && (forall k :: 0 <= k < |p.seen| ==> Final(p.seen[k]))
  }

  lemma EndedOrderly(p: Proxy, status: Status)
    requires Orderly(p) && Final(status)
    ensures Orderly(Ended(p, status))
  {}

  lemma SendOrderly(p: Proxy, e: Event)
    requires Orderly(p) && e.Send?
    ensures Orderly(OwnStep(p, e))
  {
    hide Ended;
    EndedOrderly(Refuse(p, p.callback), Failed);
    EndedOrderly(Refuse(p, true), Failed);
  }

  lemma ReplyOrderly(p: Proxy, e: Event)
    requires Orderly(p) && e.Reply? && !Overwrites(p, e)
    ensures Orderly(OwnStep(p, e))
  {}

  lemma DecideOrderly(p: Proxy, e: Event)
    requires Orderly(p) && e.Decide?
    ensures Orderly(OwnStep(p, e))
  {}

  lemma TimerOrderly(p: Proxy, e: Event)
    requires Orderly(p) && (e.BaseTimer? || e.OwnTimer?)
    ensures Orderly(OwnStep(p, e))
  {}

  lemma PostedOrderly(p: Proxy, e: Event)
    requires Orderly(p) && (e.Posted? || e.Call? || e.Remove? || e.SendFailed?)
    ensures Orderly(OwnStep(p, e))
  {}

  lemma OwnStepOrderly(p: Proxy, e: Event)
    requires Orderly(p) && !Overwrites(p, e)
    ensures Orderly(OwnStep(p, e))
  {
    hide Orderly;
    match e
    case Send(_, _) => SendOrderly(p, e);
    case Reply(_, _, _) => ReplyOrderly(p, e);
    case Decide(_) => DecideOrderly(p, e);
    case BaseTimer(_) => TimerOrderly(p, e);
    case OwnTimer(_) => TimerOrderly(p, e);
    case Posted(_) => PostedOrderly(p, e);
    case Call(_) => PostedOrderly(p, e);
    case Remove(_) => PostedOrderly(p, e);
    case SendFailed(_) => PostedOrderly(p, e);
    case _ =>
  }

  lemma QuietOrderly(p: Proxy, ends: bool)
    requires Orderly(p)
    ensures Orderly(Quiet(p, ends))
  {}

  lemma ResponseOrderly(p: Proxy, r: Response)
    requires Orderly(p)
    ensures Orderly(ResponseStep(p, r))
  {
    hide Ended, Quiet, Orderly;
    QuietOrderly(p, false);
    QuietOrderly(p, true);
    EndedOrderly(Quiet(p, false), Failed);
    EndedOrderly(Quiet(p, false), Succeeded);
    EndedOrderly(Quiet(p, true), Succeeded);
    EndedOrderly(Quiet(p, true), Failed);
  }

  ghost predicate AllOrderly(s: Platform) {
    forall i :: 0 <= i < |s.proxies| ==> Orderly(s.proxies[i])
  }

  lemma OrderlyNext(s: Platform, e: Event)
    requires AllOrderly(s) && !Overtaken(s, e)
    ensures AllOrderly(Next(s, e))
  {
    hide Orderly, OwnStep, ResponseStep;
    if e.Create? {
      FreshOrderly(e.kind, if e.sn != 0 then e.sn else Counters.SnAt(s.issued));
    } else if e.Respond? {
      if e.sn in s.requests && s.requests[e.sn] < |s.proxies| { ResponseOrderly(s.proxies[s.requests[e.sn]], e.response); }
    } else if e.id < |s.proxies| {
      OwnStepOrderly(s.proxies[e.id], e);
    }
  }

  lemma FreshOrderly(kind: Kind, sn: int)
    ensures Orderly(NewProxy(kind, sn))
  {}

  lemma {:induction false} OrderlyRun(es: seq<Event>)
    requires NoneOvertaken(es)
    ensures AllOrderly(Execute(Start(), es))
  {
    hide Next, Orderly, Overtaken;
    if es != [] {
      OrderlyRun(es[..|es| - 1]);
      OrderlyNext(Execute(Start(), es[..|es| - 1]), es[|es| - 1]);
    }
  }

  /** In every run without such a reply, with replies and responses in any order and number, every
      callback sees Succeeded, Timeout or Failed. */
  lemma {:induction false} FinalStatus(es: seq<Event>, i: nat, k: nat)
    requires NoneOvertaken(es)
    requires i < |Execute(Start(), es).proxies| && k < |Execute(Start(), es).proxies[i].seen|
    ensures Final(Execute(Start(), es).proxies[i].seen[k])
  {
    hide Next;
    OrderlyRun(es);
    assert Orderly(Execute(Start(), es).proxies[i]);
  }

  /** A request that has been sent and not completed has its callback. */
  predicate Callable(p: Proxy) { p.phase == Sent && !p.claimed ==> p.callback }

  lemma CallableOther(p: Proxy, e: Event)
    requires Callable(p)
    ensures Callable(OwnStep(p, e))
  {
    if e.Send? { CallableSend(p, e); }
    else if e.Reply? || e.Decide? { CallableReply(p, e); }
    else if e.BaseTimer? || e.OwnTimer? { CallableTimer(p, e); }
    else { CallableEnd(p, e); }
  }

  lemma CallableSend(p: Proxy, e: Event)
    requires Callable(p) && e.Send?
    ensures Callable(OwnStep(p, e))
  {
    hide Ended, Refuse;
  }

  lemma CallableReply(p: Proxy, e: Event)
    requires Callable(p) && (e.Reply? || e.Decide?)
    ensures Callable(OwnStep(p, e))
  {}

  lemma CallableTimer(p: Proxy, e: Event)
    requires Callable(p) && (e.BaseTimer? || e.OwnTimer?)
    ensures Callable(OwnStep(p, e))
  {}

  lemma CallableEnd(p: Proxy, e: Event)
    requires Callable(p) && !e.Send? && !e.Reply? && !e.Decide? && !e.BaseTimer? && !e.OwnTimer?
    ensures Callable(OwnStep(p, e))
  {}

  lemma CallableResponse(p: Proxy, r: Response)
    requires Callable(p)
    ensures Callable(ResponseStep(p, r))
  {
    hide Ended, Quiet, Callable;
    CallableQuiet(p, false);
    CallableQuiet(p, true);
    CallableEnded(Quiet(p, false), Failed);
    CallableEnded(Quiet(p, false), Succeeded);
    CallableEnded(Quiet(p, true), Failed);
    CallableEnded(Quiet(p, true), Succeeded);
  }

  lemma CallableQuiet(p: Proxy, ends: bool)
    requires Callable(p)
    ensures Callable(Quiet(p, ends))
  {}

  lemma CallableEnded(p: Proxy, status: Status)
    requires Callable(p)
    ensures Callable(Ended(p, status))
  {}

  lemma {:induction false} CallableRun(es: seq<Event>)
    ensures forall i :: 0 <= i < |Execute(Start(), es).proxies| ==> Callable(Execute(Start(), es).proxies[i])
  {
    if es != [] {
      hide OwnStep, ResponseStep, Callable, MapStep;
      var s, e := Execute(Start(), es[..|es| - 1]), es[|es| - 1];
      CallableRun(es[..|es| - 1]);
      if e.Create? {
        NewCallable(e.kind, if e.sn != 0 then e.sn else Counters.SnAt(s.issued));
      } else if e.Respond? {
        if e.sn in s.requests && s.requests[e.sn] < |s.proxies| { CallableResponse(s.proxies[s.requests[e.sn]], e.response); }
      } else if e.id < |s.proxies| {
        CallableOther(s.proxies[e.id], e);
      }
    }
  }

  lemma NewCallable(kind: Kind, sn: int)
    ensures Callable(NewProxy(kind, sn))
  {}

  /** The condition is exact: after any run, such a reply followed by the rest of the completion shows the
      callback the status Replied. */
  lemma {:induction false} OverwrittenStatus(es: seq<Event>, reply: Event)
    requires Overtaken(Execute(Start(), es), reply)
    ensures var t := Execute(Start(), es + [reply, Posted(reply.id), Call(reply.id)]);
            reply.id < |t.proxies| && t.proxies[reply.id].seen == [Replied]
  {
    hide Next, Consistent;
    var s := Execute(Start(), es);
    ConsistentRun(es);
    CallableRun(es);
    ExecuteAppend(Start(), es, [reply, Posted(reply.id), Call(reply.id)]);
    ThreeSteps(s, reply, Posted(reply.id), Call(reply.id));
    Shown(s, reply);
  }

  lemma ThreeSteps(s: Platform, a: Event, b: Event, c: Event)
    ensures Execute(s, [a, b, c]) == Next(Next(Next(s, a), b), c)
  {
    hide Next;
    var es := [a, b, c];
    assert es[..2] == [a, b] && [a, b][..1] == [a] && [a][..0] == [];
    assert Execute(s, [a]) == Next(s, a);
    assert Execute(s, [a, b]) == Next(Next(s, a), b);
  }

  lemma Shown(s: Platform, reply: Event)
    requires Consistent(s) && Overtaken(s, reply) && Callable(s.proxies[reply.id])
    ensures var t := Next(Next(Next(s, reply), Posted(reply.id)), Call(reply.id));
            |t.proxies| == |s.proxies| && t.proxies[reply.id].seen == [Replied]
  {
    var i, p := reply.id, s.proxies[reply.id];
    assert Once(p);
    var p1 := OwnStep(p, reply);
    var p2 := OwnStep(p1, Posted(i));
    assert p2.calling && p2.seen == [] && p2.status == Replied;
    assert OwnStep(p2, Call(i)).seen == [Replied];
    hide OwnStep;
    assert Next(s, reply).proxies[i] == p1;
    assert Next(Next(s, reply), Posted(i)).proxies[i] == p2;
  }

  /** `on_completed` without another thread in between. */
  function Completed(p: Proxy): Proxy {
    var c := Claim(p);
    if p.claimed then c else Finish(if c.calling then CallStep(c) else c)
  }

  function Complete(p: Proxy): Proxy
    requires p.posted > 0
  {
    Completed(p.(posted := p.posted - 1))
  }

  lemma CompleteIsPosted(p: Proxy)
    requires p.posted > 0
    ensures Complete(p) ==
            var c := PostedStep(p); if p.claimed then c else Finish(if c.calling then CallStep(c) else c)
  {}

  lemma EndedComplete(p: Proxy, status: Status)
    ensures Complete(Ended(p, status)) == Completed(p.(status := status))
  {
    hide Completed;
    assert Ended(p, status).(posted := p.posted) == p.(status := status);
  }

  // ----- the objects -----

  /** The part of `PlatformHelper` that holds pending requests, under its lock. */
  class PlatformHelper {
    var requests: map<int, RequestProxy>

    constructor ()
      ensures requests == map[]
    {
      requests := map[];
    }

    method AddRequestProxy(sn: int, proxy: RequestProxy)
      modifies this
      ensures requests == old(requests)[sn := proxy]
    {
      requests := requests[sn := proxy];
    }

    method RemoveRequestProxy(sn: int)
      modifies this
      ensures requests == old(requests) - {sn}
    {
      requests := requests - {sn};
    }

    /** Dispatch of a response; `answer` is what the request's own handler returns. */
    method OnResponse(sn: int, response: Response, answer: int) returns (code: int)
      requires sn in requests ==> requests[sn].platform == this
      modifies this, if sn in requests then {requests[sn]} else {}
      ensures sn !in old(requests) ==> code == 404 && requests == old(requests)
      ensures sn in old(requests) ==>
                var p := old(requests)[sn];
                && p.Answered(old(p.Model()), response) && p.StillListed(old(requests), old(p.Model()), response)
                && code == p.Code(response, answer)
    {
      if sn in requests {
        var proxy := requests[sn];
        code := proxy.OnResponse(response, answer);
      } else {
        code := 404;
      }
    }
  }

  class RequestProxy {
    const platform: PlatformHelper
    const kind: Kind
    const sn: int
    var phase: Phase
    var status: Status
    var resultFlag: bool
    var calling: bool
    var finished: bool
    var callback: bool
    ghost var seen: seq<Status>
    var replied: bool
    var deciding: bool
    var posted: nat
    var baseTimer: bool
    var ownTimer: bool

    ghost function Model(): Proxy
      reads this
    {
      Proxy(kind, sn, phase, status, resultFlag, calling, finished, callback, seen, replied, deciding, posted, baseTimer, ownTimer)
    }

    /** Nothing but this step, or the step and the completion it led up to, run at once. */
    ghost predicate Handled(p: Proxy, q: Proxy)
      reads this
    {
      Model() == if q.posted > p.posted then Complete(q) else q
    }

    /** What `platform.requests` is after that. */
    ghost predicate Unlisted(before: map<int, RequestProxy>, p: Proxy, q: Proxy)
      reads platform
    {
      platform.requests == if q.posted > p.posted && !p.claimed then before - {sn} else before
    }

    constructor (platform: PlatformHelper, kind: Kind, sn: int)
      ensures Model() == NewProxy(kind, sn) && this.platform == platform
    {
      this.platform, this.kind, this.sn := platform, kind, sn;
      phase, status, resultFlag, calling, finished, callback := Unsent, Init, false, false, false, false;
      seen, replied, deciding, posted, baseTimer, ownTimer := [], false, false, 0, false, false;
    }

    method OnCompleted()
      modifies this, platform
      ensures Model() == Completed(old(Model()))
      ensures platform.requests == if old(resultFlag) then old(platform.requests) else old(platform.requests) - {sn}
    {
      var first := !resultFlag;
      resultFlag := true;
      if first {
        calling := callback;
        if calling {
          seen := seen + [status];
          calling := false;
        }
        callback := false;
        ownTimer := false;
        platform.RemoveRequestProxy(sn);
        finished := true;
      }
    }

    /** A status is written and the request completed. */
    method End(st: Status)
      modifies this, platform
      ensures Model() == Complete(Ended(old(Model()), st))
      ensures platform.requests == if old(resultFlag) then old(platform.requests) else old(platform.requests) - {sn}
    {
      hide Complete, Completed, Ended;
      EndedComplete(Model(), st);
      status := st;
      OnCompleted();
    }

    method CancelTimers(ends: bool)
      modifies this`baseTimer, this`ownTimer
      ensures Model() == Quiet(old(Model()), ends)
    {
      baseTimer := false;
      if ends { ownTimer := false; }
    }

    /** The completion a response has posted to a poller. */
    method OnPosted()
      requires posted > 0
      modifies this, platform
      ensures Model() == Complete(old(Model()))
      ensures platform.requests == if old(resultFlag) then old(platform.requests) else old(platform.requests) - {sn}
    {
      posted := posted - 1;
      OnCompleted();
    }

    method SendRequest(outcome: SendOutcome)
      requires phase == Unsent && !resultFlag
      modifies this, platform
      ensures Handled(old(Model()), SendStep(old(Model()), outcome))
      ensures platform.requests == if outcome == Accepted then old(platform.requests)[sn := this] else old(platform.requests) - {sn}
    {
      hide Complete, Ended;
      if outcome == NoMessage {
        phase := Refused;
        End(Failed);
        return;
      }
      callback := true;
      if outcome == BadPayload {
        phase := Refused;
        End(Failed);
        return;
      }
      phase := Sent;
      platform.AddRequestProxy(sn, this);
    }

    method StoreReplyStatus(code: int, hasMessage: bool)
      modifies this
      ensures Model() == StoreReply(old(Model()), code, hasMessage)
    {
      replied, deciding := true, true;
      if SipSuccess(code) {
        status := if kind == NoResponse then Succeeded else Replied;
      } else {
        status := if code == 408 || !hasMessage then Timeout else Failed;
      }
      if kind == ConfigRequest || (kind == ListRequest && status == Replied) { ownTimer := true; }
    }

    method DecideOnReply()
      modifies this, platform
      ensures Handled(old(Model()), DecideReply(old(Model())))
      ensures Unlisted(old(platform.requests), old(Model()), DecideReply(old(Model())))
    {
      hide Complete, Completed, Ended;
      deciding := false;
      if status != Replied {
        EndedComplete(Model(), status);
        OnCompleted();
        return;
      }
      baseTimer := true;
    }

    method OnReply(code: int, hasMessage: bool)
      modifies this, platform
      ensures Handled(old(Model()), DecideReply(StoreReply(old(Model()), code, hasMessage)))
      ensures Unlisted(old(platform.requests), old(Model()), DecideReply(StoreReply(old(Model()), code, hasMessage)))
    {
      hide StoreReply, DecideReply, Complete;
      StoreReplyStatus(code, hasMessage);
      StoredClaim(old(Model()), code, hasMessage);
      DecideOnReply();
    }

    lemma StoredClaim(p: Proxy, code: int, hasMessage: bool)
      ensures StoreReply(p, code, hasMessage).claimed == p.claimed && StoreReply(p, code, hasMessage).posted == p.posted
    {}

    /** `RequestListImpl::on_response` after the count. */
    method OnListResponse(ends: bool)
      requires kind == ListRequest
      modifies this, platform
      ensures Handled(old(Model()), ResponseStep(old(Model()), Loaded(ends, false)))
      ensures Unlisted(old(platform.requests), old(Model()), ResponseStep(old(Model()), Loaded(ends, false)))
    {
      hide Complete, Ended, Quiet;
      CancelTimers(ends);
      if ends { End(Succeeded); }
    }

    /** `RequestConfigDownloadImpl::on_response` after accumulating the types. */
    method OnConfigResponse(ends: bool, refused: bool)
      requires kind == ConfigRequest
      modifies this, platform
      ensures Handled(old(Model()), ResponseStep(old(Model()), Loaded(ends, refused)))
      ensures Unlisted(old(platform.requests), old(Model()), ResponseStep(old(Model()), Loaded(ends, refused)))
    {
      hide Complete, Ended, Quiet;
      CancelTimers(ends || refused);
      if refused { End(Failed); } else if ends { End(Succeeded); }
    }

    /** A response that does not load, or the one response, only posts its completion. */
    ghost predicate Answered(p: Proxy, r: Response)
      reads this
    {
      if r == BadXml || kind == OneResponse then Model() == ResponseStep(p, r) else Handled(p, ResponseStep(p, r))
    }

    ghost predicate StillListed(before: map<int, RequestProxy>, p: Proxy, r: Response)
      reads platform
    {
      if r == BadXml || kind == OneResponse then platform.requests == before else Unlisted(before, p, ResponseStep(p, r))
    }

    /** What the sender of a response is told: 400 when it does not load, 200 when it refuses a download,
        otherwise what the response callback answers, where one response never gets 0. */
    function Code(response: Response, answer: int): int {
      if response == BadXml then 400
      else if kind == ConfigRequest then (if response.refused then 200 else answer)
      else if kind == ListRequest then answer
      else if answer == 0 then 400 else answer
    }

    method OnResponse(response: Response, answer: int) returns (code: int)
      modifies this, platform
      ensures Answered(old(Model()), response)
      ensures StillListed(old(platform.requests), old(Model()), response)
      ensures code == Code(response, answer)
    {
      hide Complete;
      code := answer;
      if response == BadXml {
        baseTimer := false;
        status := Failed;
        posted := posted + 1;
        code := 400;
      } else if kind == ListRequest {
        OnListResponse(response.ends);
      } else if kind == ConfigRequest {
        OnConfigResponse(response.ends, response.refused);
        if response.refused { code := 200; }
      } else {
        baseTimer := false;
        if kind == OneResponse {
          status := Succeeded;
          posted := posted + 1;
        }
        code := if answer != 0 then answer else 400;
      }
    }

    method OnBaseTimer()
      requires baseTimer
      modifies this, platform
      ensures Handled(old(Model()), BaseTimerStep(old(Model())))
      ensures Unlisted(old(platform.requests), old(Model()), BaseTimerStep(old(Model())))
    {
      hide Complete, Ended;
      baseTimer := false;
      if status == Replied { End(Timeout); }
    }
  }
}
