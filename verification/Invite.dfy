/** An INVITE session (`InviteRequestImpl`): its status, the global registry of sessions that can
    still receive events, and the choice between CANCEL and BYE (sections 9.1, 13 and 15 of RFC 3261). */
module Invite {

  datatype Status = Inviting | Trying | Acked | ByeSeen | Cancelled | Failed
  datatype Role = Outgoing | Incoming
  datatype Method = CancelRequest | ByeRequest

  /** A request sent by `to_bye`, with what was known when it went out. */
  datatype Emission = Emission(method': Method, finalSeen: bool, dialog: bool, peerEnded: bool)

  datatype State = State(
    role: Role, status: Status, registered: bool, platform: bool,
    transaction: bool,            // the INVITE client transaction, while it can be cancelled
    dialog: bool, callback: bool, timers: nat,
    started: bool, finalSeen: bool, peerEnded: bool, timerRan: bool,
    results: nat, log: seq<Emission>)

  /** A final reply to an outgoing INVITE. */
  datatype Final = Final(success: bool, hasSdp: bool, sdpParses: bool, ackSent: bool, hasDialog: bool)

  datatype Event =
    | Start                                        // to_invite_request
    | SendResult(ok: bool)
    | Provisional
    | FinalReply(reply: Final)
    | Answer(success: bool, hasSdp: bool)          // the application answers an incoming INVITE
    | AckTimer
    | ToBye                                        // the application ends the session
    | PeerBye
    | PeerCancel
    | PeerAck
    | PlatformGone
    | Destroy                                      // the last reference is dropped

  predicate Live(st: Status) { st == Inviting || st == Trying || st == Acked }

  /** A new session; an incoming one is made by `on_recv_invite`, in the dialog of the request. */
  function Created(role: Role): State {
    State(role, Inviting, false, true, false, role == Incoming, false, 0, false, false, false, false, 0, [])
  }

  predicate Absorbing(s: State) { s.registered ==> Live(s.status) }

  function SetStatus(s: State, st: Status): (t: State)
    ensures Absorbing(s) || !Live(st) ==> Absorbing(t)
  {
    s.(status := st, registered := s.registered && Live(st))
  }

  function Emit(s: State, m: Method): (t: State)
    ensures t.status == s.status && t.registered == s.registered
  {
    s.(log := s.log + [Emission(m, s.finalSeen, s.dialog, s.peerEnded)])
  }

  function End(s: State): (t: State)
    ensures !Live(t.status) && (Absorbing(s) ==> !t.registered)
  {
    if !Live(s.status) then s
    else if !s.platform then SetStatus(s, ByeSeen)
    else if s.transaction then SetStatus(Emit(s, CancelRequest), Cancelled)
    else if s.dialog then SetStatus(Emit(s, ByeRequest), ByeSeen)
    else SetStatus(s, Cancelled)
  }

  function Report(s: State): (t: State)
    ensures t.status == s.status && t.registered == s.registered && t.log == s.log
  {
    if s.callback then s.(callback := false, results := s.results + 1) else s
  }

  /** A usable answer is acknowledged; any other success is ended again before it counts as failed. */
  function Settle(s: State, r: Final): (t: State)
    ensures t.status == Acked || t.status == Failed
    ensures t.registered ==> Live(t.status)
  {
    if r.success && r.hasSdp && r.sdpParses && r.ackSent then SetStatus(s, Acked)
    else if r.success then SetStatus(End(s), Failed)
    else SetStatus(s, Failed)
  }

  function OnFinal(s: State, r: Final): (t: State)
    ensures t.status == Acked || t.status == Failed
    ensures t.registered ==> Live(t.status)
  {
    Report(Settle(s.(transaction := false, finalSeen := true, dialog := s.dialog || r.hasDialog), r))
  }

  predicate Enabled(s: State, e: Event) {
    match e
    case Start => s.role == Outgoing && s.platform
    case SendResult(_) => s.role == Outgoing && s.started
    case Provisional => s.role == Outgoing && s.registered
    case FinalReply(_) => s.role == Outgoing && s.registered
    case Answer(_, _) => s.role == Incoming
    case AckTimer => s.timers > 0
    case ToBye => true
    case PeerBye => s.registered
    case PeerCancel => s.registered
    case PeerAck => s.registered
    case PlatformGone => true
    case Destroy => !s.registered
  }

  function Next(s: State, e: Event): State {
    if !Enabled(s, e) then s
    else match e
      case Start => s.(transaction := true, callback := true, registered := true, started := true)
      case SendResult(ok) => if !ok && s.callback then Report(SetStatus(s, Failed)) else s
      case Provisional => SetStatus(s, Trying)
      case FinalReply(r) => OnFinal(s, r)
      case Answer(success, hasSdp) =>
        if success && hasSdp then s.(registered := true, started := true, timers := s.timers + 1)
        else SetStatus(s.(started := true), Failed)
      case AckTimer =>
        var t := s.(timers := s.timers - 1, timerRan := true);
        if s.status != Acked then End(t) else t
      case ToBye => End(s)
      case PeerBye => SetStatus(s, ByeSeen).(peerEnded := true)
      case PeerCancel => SetStatus(s, Cancelled).(peerEnded := true)
      case PeerAck => SetStatus(s, Acked)
      case PlatformGone => s.(platform := false)
      case Destroy => End(s)
  }

  function Execute(s: State, es: seq<Event>): State {
    if es == [] then s else Next(Execute(s, es[..|es| - 1]), es[|es| - 1])
  }

  // ----- absorption -----

  /** The application starts an outgoing session, or answers an incoming one with a description, only
      while the session is live. */
  predicate StartsLive(s: State, e: Event) {
    e.Start? || (e.Answer? && e.success && e.hasSdp) ==> Live(s.status)
  }

  predicate AllStartLive(s: State, es: seq<Event>) {
    es == [] || (AllStartLive(s, es[..|es| - 1]) && StartsLive(Execute(s, es[..|es| - 1]), es[|es| - 1]))
  }

  predicate Initial(s: State) { s == Created(s.role) }

  lemma AbsorbingNext(s: State, e: Event)
    requires Absorbing(s) && StartsLive(s, e)
    ensures Absorbing(Next(s, e))
    ensures !Live(s.status) ==> !Live(Next(s, e).status)
  {
    hide End, OnFinal;
  }

  lemma {:induction false} AbsorbingRun(s: State, es: seq<Event>)
    requires Absorbing(s) && AllStartLive(s, es)
    ensures Absorbing(Execute(s, es)) && (!Live(s.status) ==> !Live(Execute(s, es).status))
  {
    if es != [] {
      hide Next, StartsLive, Absorbing;
      AbsorbingRun(s, es[..|es| - 1]);
      AbsorbingNext(Execute(s, es[..|es| - 1]), es[|es| - 1]);
    }
  }

  lemma {:induction false} AllStartLiveSplit(s: State, a: seq<Event>, b: seq<Event>)
    requires AllStartLive(s, a + b)
    ensures AllStartLive(s, a) && AllStartLive(Execute(s, a), b)
    ensures Execute(s, a + b) == Execute(Execute(s, a), b)
    decreases |b|
  {
    hide Next, StartsLive;
    var es := a + b;
    if b == [] {
      assert es == a;
    } else {
      assert es[..|es| - 1] == a + b[..|b| - 1];
      AllStartLiveSplit(s, a, b[..|b| - 1]);
    }
  }

  /** A session in the registry is always live, and a session that has ended never becomes live again. */
  lemma {:induction false} InviteAbsorption(s: State, es: seq<Event>, later: seq<Event>)
    requires Initial(s) && AllStartLive(s, es + later)
    ensures Execute(s, es).registered ==> Live(Execute(s, es).status)
    ensures !Live(Execute(s, es).status) ==> !Live(Execute(s, es + later).status)
  {
    hide Next, StartsLive;
    AllStartLiveSplit(s, es, later);
    AbsorbingRun(s, es);
    AbsorbingRun(Execute(s, es), later);
  }

  /** The condition is needed at every ended session: starting it puts it back into the registry, and
      the next provisional reply, or the acknowledgement of the answer, revives it. */
  lemma StartAfterEndRevives(s: State)
    requires !Live(s.status)
    ensures s.role == Outgoing && s.platform ==>
              !Absorbing(Next(s, Start)) && Next(Next(s, Start), Provisional).status == Trying
    ensures s.role == Incoming ==>
              !Absorbing(Next(s, Answer(true, true))) && Next(Next(s, Answer(true, true)), PeerAck).status == Acked
  {
    hide End, OnFinal, Report;
    if s.role == Outgoing && s.platform {
      var t := Next(s, Start);
      assert t.registered && t.role == Outgoing && t.status == s.status;
    } else if s.role == Incoming {
      var t := Next(s, Answer(true, true));
      assert t.registered && t.role == Incoming && t.status == s.status;
    }
  }

  // ----- ending -----

  /** One start or one answer, and that while the session is live. */
  predicate StartsOnce(s: State, e: Event) {
    e.Start? || e.Answer? ==> !s.started && Live(s.status)
  }

  predicate AllStartOnce(s: State, es: seq<Event>) {
    es == [] || (AllStartOnce(s, es[..|es| - 1]) && StartsOnce(Execute(s, es[..|es| - 1]), es[|es| - 1]))
  }

  predicate Justified(x: Emission) {
    && (x.method' == CancelRequest ==> !x.finalSeen)
    && (x.method' == ByeRequest ==> x.dialog)
    && !x.peerEnded
  }

  predicate Ending(s: State) {
    && Absorbing(s)
    && (s.transaction ==> !s.finalSeen && s.role == Outgoing)
    && (s.registered || s.finalSeen || s.callback ==> s.started)
    && (s.peerEnded ==> !Live(s.status))
    && (s.log == [] || (|s.log| == 1 && Justified(s.log[0]) && !Live(s.status)))
    && s.results + (if s.callback then 1 else 0) <= (if s.started then 1 else 0)
    && (s.timerRan ==> s.role == Incoming && (s.status == Acked || !Live(s.status)))
    && (s.timers > 0 ==> s.role == Incoming)
  }

  /** `timerRan` may have just been set: ending the session makes its condition true again. */
  lemma EndEnding(s: State)
    requires Ending(s.(timerRan := false)) && (s.timerRan ==> s.role == Incoming)
    ensures Ending(End(s))
  {}

  lemma ReportEnding(s: State)
    requires Ending(s)
    ensures Ending(Report(s))
  {}

  lemma FinalEnding(s: State, r: Final)
    requires Ending(s) && s.registered && s.role == Outgoing && s.started
    ensures Ending(OnFinal(s, r))
  {
    var t := s.(transaction := false, finalSeen := true, dialog := s.dialog || r.hasDialog);
    assert Ending(t);
    EndEnding(t);
    StatusEnding(t, Acked);
    StatusEnding(t, Failed);
    StatusEnding(End(t), Failed);
    hide Ending, End;
    ReportEnding(SetStatus(t, Acked));
    ReportEnding(SetStatus(End(t), Failed));
    ReportEnding(SetStatus(t, Failed));
  }

  lemma StatusEnding(s: State, st: Status)
    requires Ending(s) && (st == Failed || (Live(s.status) && st == Acked))
    ensures Ending(SetStatus(s, st))
  {}

  lemma EndingNext(s: State, e: Event)
    requires Ending(s) && StartsOnce(s, e)
    ensures Ending(Next(s, e))
  {
    if e.Start? || e.Answer? {
      hide *;
      StartEnding(s, e);
    } else if e.SendResult? || e.Provisional? || e.PlatformGone? {
      hide *;
      ReplyEnding(s, e);
    } else if e.PeerBye? || e.PeerCancel? || e.PeerAck? {
      hide *;
      PeerEnding(s, e);
    } else if e.AckTimer? {
      hide *;
      AckTimerEnding(s);
    } else if e.FinalReply? {
      FinalReplyEnding(s, e.reply);
    } else {
      EndNow(s, e);
    }
  }

  lemma EndNow(s: State, e: Event)
    requires Ending(s) && (e.ToBye? || e.Destroy?)
    ensures Ending(Next(s, e))
  {
    EndEnding(s);
    hide End, Absorbing;
  }

  lemma FinalReplyEnding(s: State, r: Final)
    requires Ending(s)
    ensures Ending(Next(s, FinalReply(r)))
  {
    if s.registered && s.role == Outgoing {
      FinalEnding(s, r);
    }
    hide OnFinal, Ending;
  }

  lemma AckTimerEnding(s: State)
    requires Ending(s)
    ensures Ending(Next(s, AckTimer))
  {
    if s.timers > 0 {
      var t := s.(timers := s.timers - 1, timerRan := true);
      if s.status != Acked {
        EndEnding(t);
      }
    }
  }

  lemma StartEnding(s: State, e: Event)
    requires Ending(s) && StartsOnce(s, e) && (e.Start? || e.Answer?)
    ensures Ending(Next(s, e))
  {}

  lemma ReplyEnding(s: State, e: Event)
    requires Ending(s) && (e.SendResult? || e.Provisional? || e.PlatformGone?)
    ensures Ending(Next(s, e))
  {
    if e.SendResult? {
      StatusEnding(s, Failed);
      ReportEnding(SetStatus(s, Failed));
    }
  }

  lemma PeerEnding(s: State, e: Event)
    requires Ending(s) && (e.PeerBye? || e.PeerCancel? || e.PeerAck?)
    ensures Ending(Next(s, e))
  {}

  lemma {:induction false} EndingRun(s: State, es: seq<Event>)
    requires Initial(s) && AllStartOnce(s, es)
    ensures Ending(Execute(s, es))
  {
    if es != [] {
      hide Next, StartsOnce, Ending;
      var t := Execute(s, es[..|es| - 1]);
      EndingRun(s, es[..|es| - 1]);
      EndingNext(t, es[|es| - 1]);
    }
  }

  /** Over any run: at most one CANCEL or BYE; a CANCEL only while no final reply has been seen, a BYE
      only with a dialog, neither after the peer has ended the session; the result callback at most
      once; an answered session whose timer step has run is acknowledged or ended. */
  lemma {:induction false} InviteEnding(s: State, es: seq<Event>)
    requires Initial(s) && AllStartOnce(s, es)
    ensures var t := Execute(s, es);
            && |t.log| <= 1
            && (forall i :: 0 <= i < |t.log| ==> Justified(t.log[i]))
            && t.results <= 1
            && (t.timerRan ==> t.status == Acked || !Live(t.status))
  {
    hide Next, StartsOnce;
    EndingRun(s, es);
  }

  // ----- the state, by the events -----

  /** A final reply has been handled: the session was outgoing and in the registry when it came. */
  predicate FinalHandled(s: State, es: seq<Event>) {
    es != [] && (FinalHandled(s, es[..|es| - 1])
                 || (es[|es| - 1].FinalReply? && s.role == Outgoing && Execute(s, es[..|es| - 1]).registered))
  }

  /** One of them brought a dialog. */
  predicate DialogMade(s: State, es: seq<Event>) {
    es != [] && (DialogMade(s, es[..|es| - 1])
                 || (es[|es| - 1].FinalReply? && es[|es| - 1].reply.hasDialog && s.role == Outgoing
                     && Execute(s, es[..|es| - 1]).registered))
  }

  /** The peer's BYE or CANCEL has been handled. */
  predicate PeerHandled(s: State, es: seq<Event>) {
    es != [] && (PeerHandled(s, es[..|es| - 1])
                 || ((es[|es| - 1].PeerBye? || es[|es| - 1].PeerCancel?) && Execute(s, es[..|es| - 1]).registered))
  }

  /** The session has been started through a living platform, or answered with a description. */
  predicate Begun(s: State, es: seq<Event>) {
    es != [] && (Begun(s, es[..|es| - 1])
                 || (es[|es| - 1].Start? && s.role == Outgoing && PlatformGone !in es)
                 || (es[|es| - 1].Answer? && es[|es| - 1].success && es[|es| - 1].hasSdp && s.role == Incoming))
  }

  /** The INVITE transaction: begun, and no final reply handled since. */
  predicate Unanswered(s: State, es: seq<Event>) {
    es != [] && if es[|es| - 1].Start? && s.role == Outgoing && PlatformGone !in es then true
                else Unanswered(s, es[..|es| - 1])
                     && !(es[|es| - 1].FinalReply? && s.role == Outgoing && Execute(s, es[..|es| - 1]).registered)
  }

  predicate Flags(s: State, es: seq<Event>) {
    var t := Execute(s, es);
    && t.role == s.role
    && (t.platform <==> PlatformGone !in es)
    && (t.finalSeen <==> FinalHandled(s, es))
    && (t.dialog <==> s.role == Incoming || DialogMade(s, es))
    && (t.peerEnded <==> PeerHandled(s, es))
    && (t.transaction <==> Unanswered(s, es))
  }

  /** What `t` shares with `s` when only status, registry entry, log and report may have changed. */
  predicate SameFlags(s: State, t: State) {
    && t.role == s.role && t.platform == s.platform && t.finalSeen == s.finalSeen
    && t.dialog == s.dialog && t.peerEnded == s.peerEnded && t.transaction == s.transaction
  }

  predicate SameReport(s: State, t: State) { t.callback == s.callback && t.results == s.results }

  lemma StatusFlags(s: State, st: Status)
    ensures SameFlags(s, SetStatus(s, st)) && SameReport(s, SetStatus(s, st))
  {}

  lemma EmitFlags(s: State, m: Method)
    ensures SameFlags(s, Emit(s, m)) && SameReport(s, Emit(s, m))
  {}

  lemma EndFlags(s: State)
    ensures SameFlags(s, End(s)) && SameReport(s, End(s))
  {
    hide SetStatus, Emit;
    StatusFlags(s, ByeSeen);
    StatusFlags(s, Cancelled);
    EmitFlags(s, CancelRequest);
    EmitFlags(s, ByeRequest);
    StatusFlags(Emit(s, CancelRequest), Cancelled);
    StatusFlags(Emit(s, ByeRequest), ByeSeen);
  }

  lemma SettleFlags(s: State, r: Final)
    ensures SameFlags(s, Settle(s, r)) && SameReport(s, Settle(s, r))
  {
    hide SetStatus, End;
    StatusFlags(s, Acked);
    StatusFlags(s, Failed);
    EndFlags(s);
    StatusFlags(End(s), Failed);
  }

  lemma ReportFlags(s: State)
    ensures SameFlags(s, Report(s))
  {}

  lemma FinalFlags(s: State, r: Final)
    ensures SameFlags(s.(transaction := false, finalSeen := true, dialog := s.dialog || r.hasDialog), OnFinal(s, r))
  {
    var t := s.(transaction := false, finalSeen := true, dialog := s.dialog || r.hasDialog);
    SettleFlags(t, r);
    ReportFlags(Settle(t, r));
    hide Settle, Report;
  }

  predicate FlagsStep(s: State, e: Event, t: State) {
    && t.role == s.role
    && t.platform == (s.platform && !e.PlatformGone?)
    && t.finalSeen == (s.finalSeen || (e.FinalReply? && s.role == Outgoing && s.registered))
    && t.dialog == (s.dialog || (e.FinalReply? && s.role == Outgoing && s.registered && e.reply.hasDialog))
    && t.peerEnded == (s.peerEnded || ((e.PeerBye? || e.PeerCancel?) && s.registered))
    && t.transaction == if e.Start? && s.role == Outgoing && s.platform then true
                        else s.transaction && !(e.FinalReply? && s.role == Outgoing && s.registered)
  }

  lemma FlagsNext(s: State, e: Event)
    ensures FlagsStep(s, e, Next(s, e))
  {
    hide *;
    if e.FinalReply? { FinalReplyFlags(s, e.reply); }
    else if e.AckTimer? { AckTimerFlags(s); }
    else if e.ToBye? || e.Destroy? { EndNowFlags(s, e); }
    else if e.SendResult? { SendResultFlags(s, e.ok); }
    else if e.Answer? { AnswerFlags(s, e.success, e.hasSdp); }
    else if e.Start? || e.PlatformGone? { StartFlags(s, e); }
    else { PeerFlags(s, e); }
  }

  lemma FinalReplyFlags(s: State, r: Final)
    ensures FlagsStep(s, FinalReply(r), Next(s, FinalReply(r)))
  {
    FinalFlags(s, r);
    hide OnFinal;
  }

  lemma AckTimerFlags(s: State)
    ensures FlagsStep(s, AckTimer, Next(s, AckTimer))
  {
    if s.timers > 0 { EndFlags(s.(timers := s.timers - 1, timerRan := true)); }
    hide End;
  }

  lemma EndNowFlags(s: State, e: Event)
    requires e.ToBye? || e.Destroy?
    ensures FlagsStep(s, e, Next(s, e))
  {
    EndFlags(s);
    hide End;
  }

  lemma SendResultFlags(s: State, ok: bool)
    ensures FlagsStep(s, SendResult(ok), Next(s, SendResult(ok)))
  {
    hide SetStatus, Report;
    StatusFlags(s, Failed);
    ReportFlags(SetStatus(s, Failed));
  }

  lemma AnswerFlags(s: State, success: bool, hasSdp: bool)
    ensures FlagsStep(s, Answer(success, hasSdp), Next(s, Answer(success, hasSdp)))
  {
    hide SetStatus;
    StatusFlags(s.(started := true), Failed);
  }

  lemma StartFlags(s: State, e: Event)
    requires e.Start? || e.PlatformGone?
    ensures FlagsStep(s, e, Next(s, e))
  {}

  lemma PeerFlags(s: State, e: Event)
    requires e.PeerBye? || e.PeerCancel? || e.PeerAck? || e.Provisional?
    ensures FlagsStep(s, e, Next(s, e))
  {
    hide SetStatus;
    StatusFlags(s, if e.PeerBye? then ByeSeen else if e.PeerCancel? then Cancelled else if e.PeerAck? then Acked else Trying);
  }

  /** In every run the state the choice of CANCEL or BYE rests on is what has happened: the transaction
      stands from the start to the final reply, a dialog comes with an incoming session or a final
      reply, and the platform lives until it is gone. */
  lemma {:induction false} FlagsAreEvents(s: State, es: seq<Event>)
    requires Initial(s)
    ensures Flags(s, es)
  {
    hide Next;
    if es != [] {
      var before, e := es[..|es| - 1], es[|es| - 1];
      FlagsAreEvents(s, before);
      FlagsNext(Execute(s, before), e);
      assert es == before + [e];
    }
  }

  /** The event puts the session into the registry. */
  predicate Registers(s: State, e: Event) {
    (e.Start? && s.role == Outgoing && s.platform) || (e.Answer? && e.success && e.hasSdp && s.role == Incoming)
  }

  predicate RegisteredStep(s: State, e: Event, t: State) {
    (t.registered <==> (s.registered || Registers(s, e)) && Live(t.status)) && (Live(t.status) ==> Live(s.status))
  }

  lemma RegisteredNext(s: State, e: Event)
    requires Absorbing(s) && StartsLive(s, e)
    ensures RegisteredStep(s, e, Next(s, e))
  {
    hide *;
    if e.FinalReply? { FinalReplyRegistered(s, e.reply); }
    else if e.AckTimer? || e.ToBye? || e.Destroy? { EndNowRegistered(s, e); }
    else if e.SendResult? || e.Answer? || e.Start? || e.PlatformGone? { StartRegistered(s, e); }
    else { PeerRegistered(s, e); }
  }

  lemma FinalReplyRegistered(s: State, r: Final)
    requires Absorbing(s)
    ensures RegisteredStep(s, FinalReply(r), Next(s, FinalReply(r)))
  {
    FinalRegistered(s, r);
    hide OnFinal;
  }

  lemma EndNowRegistered(s: State, e: Event)
    requires Absorbing(s) && (e.AckTimer? || e.ToBye? || e.Destroy?)
    ensures RegisteredStep(s, e, Next(s, e))
  {
    hide End;
  }

  lemma StartRegistered(s: State, e: Event)
    requires Absorbing(s) && StartsLive(s, e) && (e.SendResult? || e.Answer? || e.Start? || e.PlatformGone?)
    ensures RegisteredStep(s, e, Next(s, e))
  {}

  lemma PeerRegistered(s: State, e: Event)
    requires Absorbing(s) && (e.PeerBye? || e.PeerCancel? || e.PeerAck? || e.Provisional?)
    ensures RegisteredStep(s, e, Next(s, e))
  {}

  lemma FinalRegistered(s: State, r: Final)
    ensures OnFinal(s, r).registered <==> s.registered && OnFinal(s, r).status == Acked
  {
    var t := s.(transaction := false, finalSeen := true, dialog := s.dialog || r.hasDialog);
    hide End, Report;
  }

  /** A session that is only started while live is in the registry exactly from its start to its end. */
  lemma {:induction false} RegisteredExactly(s: State, es: seq<Event>)
    requires Initial(s) && AllStartLive(s, es)
    ensures Execute(s, es).registered <==> Begun(s, es) && Live(Execute(s, es).status)
  {
    hide Next, StartsLive;
    if es != [] {
      var before, e := es[..|es| - 1], es[|es| - 1];
      RegisteredExactly(s, before);
      AbsorbingRun(s, before);
      FlagsAreEvents(s, before);
      assert StartsLive(Execute(s, before), e);
      RegisteredNext(Execute(s, before), e);
      assert es == before + [e];
    }
  }

  // ----- what each event makes of the session -----

  /** Ending a live session, by the application, by dropping it or by the ACK timer of one that is not
      acknowledged: CANCEL while the transaction stands, BYE in a dialog otherwise, and nothing without
      either or without the platform. A session that has ended is left alone. */
  lemma EndSends(s: State, e: Event)
    requires e.ToBye? || (e.Destroy? && !s.registered) || (e.AckTimer? && s.timers > 0 && s.status != Acked)
    ensures var t := Next(s, e); var seen := (s.finalSeen, s.dialog, s.peerEnded);
            if s.status == ByeSeen || s.status == Cancelled || s.status == Failed then t.status == s.status && t.log == s.log
            else if !s.platform then t.status == ByeSeen && t.log == s.log
            else if s.transaction then
              t.status == Cancelled && t.log == s.log + [Emission(CancelRequest, seen.0, seen.1, seen.2)]
            else if s.dialog then t.status == ByeSeen && t.log == s.log + [Emission(ByeRequest, seen.0, seen.1, seen.2)]
            else t.status == Cancelled && t.log == s.log
    ensures Live(s.status) ==> !Next(s, e).registered
  {}

  /** A final reply to a registered outgoing session: acknowledged when it is a success with a readable
      description and the ACK could be sent; otherwise failed, a success after a BYE where there is a
      dialog. The application is told, if it has not been. */
  lemma FinalDecides(s: State, r: Final)
    requires s.role == Outgoing && s.registered && Live(s.status)
    ensures var t := Next(s, FinalReply(r));
            && (r.success && r.hasSdp && r.sdpParses && r.ackSent ==> t.status == Acked && t.registered && t.log == s.log)
            && (!r.success ==> t.status == Failed && !t.registered && t.log == s.log)
            && (r.success && !(r.hasSdp && r.sdpParses && r.ackSent) ==>
                  && t.status == Failed && !t.registered
                  && t.log == if s.platform && (s.dialog || r.hasDialog)
                              then s.log + [Emission(ByeRequest, true, true, s.peerEnded)] else s.log)
    ensures !Next(s, FinalReply(r)).callback
         && Next(s, FinalReply(r)).results == s.results + (if s.callback then 1 else 0)
  {
    var t := s.(transaction := false, finalSeen := true, dialog := s.dialog || r.hasDialog);
    SettleDecides(t, r);
    SettleFlags(t, r);
    ReportOnce(Settle(t, r));
    hide Settle, Report;
  }

  lemma SettleDecides(s: State, r: Final)
    requires s.registered && Live(s.status) && !s.transaction
    ensures var t := Settle(s, r);
            && (r.success && r.hasSdp && r.sdpParses && r.ackSent ==> t.status == Acked && t.registered && t.log == s.log)
            && (!r.success ==> t.status == Failed && !t.registered && t.log == s.log)
            && (r.success && !(r.hasSdp && r.sdpParses && r.ackSent) ==>
                  && t.status == Failed && !t.registered
                  && t.log == if s.platform && s.dialog then s.log + [Emission(ByeRequest, s.finalSeen, true, s.peerEnded)] else s.log)
  {
    LeftWithBye(s);
    hide End;
  }

  lemma LeftWithBye(s: State)
    requires Live(s.status) && !s.transaction
    ensures End(s).log == if s.platform && s.dialog then s.log + [Emission(ByeRequest, s.finalSeen, true, s.peerEnded)] else s.log
  {}

  lemma ReportOnce(s: State)
    ensures !Report(s).callback && Report(s).results == s.results + (if s.callback then 1 else 0)
  {}

  /** What the peer and the network say to a registered session, and nothing to one that is not. */
  lemma PeerDecides(s: State, e: Event)
    requires e.PeerBye? || e.PeerCancel? || e.PeerAck? || (e.Provisional? && s.role == Outgoing)
    ensures var t := Next(s, e);
            if !s.registered then t == s
            else && t.status == (if e.PeerBye? then ByeSeen else if e.PeerCancel? then Cancelled else if e.PeerAck? then Acked else Trying)
                 && (t.registered <==> e.PeerAck? || e.Provisional?) && t.log == s.log && t.results == s.results
  {}

  /** A new session is live, unregistered and unstarted, and starting it through its living platform
      registers it, with its transaction and callback. */
  lemma StartDecides(s: State, role: Role)
    requires s.role == Outgoing && s.platform
    ensures Next(s, Start) == s.(transaction := true, callback := true, registered := true, started := true)
    ensures var t := Created(role);
            t.role == role && t.status == Inviting && t.platform && !t.registered && !t.started && !t.callback
            && t.timers == 0 && t.results == 0 && t.log == []
  {}

  /** An accepted answer registers it with a timer for the ACK; any other answer fails it. */
  lemma AnswerDecides(s: State, success: bool, hasSdp: bool)
    requires s.role == Incoming
    ensures success && hasSdp ==>
              Next(s, Answer(success, hasSdp)) == s.(registered := true, started := true, timers := s.timers + 1)
    ensures !(success && hasSdp) ==> Next(s, Answer(success, hasSdp)) == s.(status := Failed, registered := false, started := true)
  {
    if success && hasSdp { Registered(s); } else { Rejected(s, success, hasSdp); }
    hide Next;
  }

  lemma Registered(s: State)
    requires s.role == Incoming
    ensures Next(s, Answer(true, true)) == s.(registered := true, started := true, timers := s.timers + 1)
  {}

  lemma Rejected(s: State, success: bool, hasSdp: bool)
    requires s.role == Incoming && !(success && hasSdp)
    ensures Next(s, Answer(success, hasSdp)) == s.(status := Failed, registered := false, started := true)
  {
    hide SetStatus;
    FailedStatus(s.(started := true));
  }

  lemma FailedStatus(s: State)
    ensures SetStatus(s, Failed) == s.(status := Failed, registered := false)
  {}

  /** A send failure fails the session and tells the application, unless it has been told; a success says
      nothing. The ACK timer leaves an acknowledged session alone. */
  lemma SendDecides(s: State)
    ensures s.role == Outgoing && s.started && s.callback ==>
              Next(s, SendResult(false)) == s.(status := Failed, registered := false, callback := false, results := s.results + 1)
    ensures !s.callback || !s.started || s.role == Incoming ==> Next(s, SendResult(false)) == s
    ensures Next(s, SendResult(true)) == s
    ensures s.timers > 0 && s.status == Acked ==> Next(s, AckTimer) == s.(timers := s.timers - 1, timerRan := true)
  {
    hide SetStatus, End;
    FailedStatus(s);
  }

  // ----- the objects -----

  /** The map of sessions, under its lock. */
  class Registry {
    var sessions: set<InviteRequest>

    constructor ()
      ensures sessions == {}
    {
      sessions := {};
    }
  }

  class InviteRequest {
    const registry: Registry
    const role: Role
    var status: Status
    var platform: bool
    var transaction: bool
    var dialog: bool
    var callback: bool
    var timers: nat
    ghost var started: bool
    ghost var finalSeen: bool
    ghost var peerEnded: bool
    ghost var timerRan: bool
    ghost var results: nat
    ghost var log: seq<Emission>

    ghost function Model(): State
      reads this, registry
    {
      State(role, status, this in registry.sessions, platform, transaction, dialog, callback, timers,
            started, finalSeen, peerEnded, timerRan, results, log)
    }

    /** Only this session's own entry of the registry changes. */
    twostate predicate OthersKept()
      reads this, registry
    {
      registry.sessions - {this} == old(registry.sessions) - {this}
    }

    constructor (registry: Registry, role: Role)
      ensures this.registry == registry && this !in registry.sessions
      ensures Model() == Created(role)
    {
      this.registry, this.role := registry, role;
      status, platform, transaction, dialog := Inviting, true, false, role == Incoming;
      callback, timers, started, finalSeen, peerEnded, timerRan := false, 0, false, false, false, false;
      results, log := 0, [];
    }

    method SetStatusTo(st: Status)
      modifies this, registry
      ensures Model() == SetStatus(old(Model()), st) && OthersKept()
    {
      status := st;
      if !Live(st) { registry.sessions := registry.sessions - {this}; }
    }

    method ToByeRequest()
      modifies this, registry
      ensures Model() == End(old(Model())) && OthersKept()
    {
      if !Live(status) { return; }
      if !platform {
        SetStatusTo(ByeSeen);
        return;
      }
      if transaction {
        log := log + [Emission(CancelRequest, finalSeen, dialog, peerEnded)];
        SetStatusTo(Cancelled);
      } else if dialog {
        log := log + [Emission(ByeRequest, finalSeen, dialog, peerEnded)];
        SetStatusTo(ByeSeen);
      } else {
        SetStatusTo(Cancelled);
      }
    }

    method ToInviteRequest()
      requires Enabled(Model(), Start)
      modifies this, registry
      ensures Model() == Next(old(Model()), Start) && OthersKept()
    {
      transaction, callback, started := true, true, true;
      registry.sessions := registry.sessions + {this};
    }

    method Callback()
      modifies this`callback, this`results
      ensures Model() == Report(old(Model()))
    {
      if callback {
        results := results + 1;
        callback := false;
      }
    }

    /** The part of `on_invite_reply` between storing the dialog and the callback. */
    method SettleReply(r: Final)
      modifies this, registry
      ensures Model() == Settle(old(Model()), r) && OthersKept()
    {
      hide End, SetStatus;
      var result := true;
      if r.success {
        if !r.hasSdp || !r.sdpParses {
          result := false;
        } else if r.ackSent {
          SetStatusTo(Acked);
        } else {
          result := false;
        }
        if !result { ToByeRequest(); }
      } else {
        result := false;
      }
      if !result { SetStatusTo(Failed); }
    }

    /** `on_invite_reply` for a final code, after the registry lookup succeeded. */
    method OnFinalReply(r: Final)
      requires Enabled(Model(), FinalReply(r))
      modifies this, registry
      ensures Model() == Next(old(Model()), FinalReply(r)) && OthersKept()
    {
      hide Settle, Report;
      transaction, finalSeen := false, true;
      if r.hasDialog { dialog := true; }
      SettleReply(r);
      Callback();
    }

    method OnSendResult(ok: bool)
      requires Enabled(Model(), SendResult(ok))
      modifies this, registry
      ensures Model() == Next(old(Model()), SendResult(ok)) && OthersKept()
    {
      if !ok && callback {
        SetStatusTo(Failed);
        Callback();
      }
    }

    method OnAnswer(success: bool, hasSdp: bool)
      requires Enabled(Model(), Answer(success, hasSdp))
      modifies this, registry
      ensures Model() == Next(old(Model()), Answer(success, hasSdp)) && OthersKept()
    {
      started := true;
      if success {
        if !hasSdp {
          SetStatusTo(Failed);
          return;
        }
        registry.sessions := registry.sessions + {this};
        timers := timers + 1;
      } else {
        SetStatusTo(Failed);
      }
    }

    method OnAckTimer()
      requires Enabled(Model(), AckTimer)
      modifies this, registry
      ensures Model() == Next(old(Model()), AckTimer) && OthersKept()
    {
      timers, timerRan := timers - 1, true;
      if status != Acked { ToByeRequest(); }
    }
  }
}
