/** Answering a query with one response (`OneResponseQueryHandler`): any number of answers of the
    application race with the timeout for one flag, while the handler itself may still be returning. */
module Answer {
  import opened Text

  datatype Timer = Unarmed | Armed | Fired | Cancelled

  /** Who answers: a call of the application, numbered, or the timeout. */
  datatype Source = Application(call: nat) | TimedOut

  /** Past the flag: the winner still has to cancel the timer, then to send. */
  datatype Winner = Nobody | Cancelling(who: Source) | Sending(who: Source) | Finished(who: Source)

  datatype State = State(
    timer: Timer, flag: bool, winner: Winner, alive: bool,
    heard: bool,                 // some listener was given the query
    dispatched: bool, code: int, // 0 until the handler has returned
    sent: seq<Source>, tries: seq<Source>)

  datatype Event =
    | Arm
    | Dispatch(heard: bool)
    | Return
    | Call(call: nat)            // the application answers
    | Timeout
    | CancelTimer
    | SendAnswer
    | PlatformGone

  function Start(): State { State(Unarmed, false, Nobody, true, false, false, 0, [], []) }

  /** The test-and-set at the head of the callback. */
  function Enter(s: State, who: Source): State {
    var t := s.(tries := s.tries + [who]);
    if s.flag then t else t.(flag := true, winner := Cancelling(who))
  }

  function Cancel(s: State): State {
    if s.timer == Armed then s.(timer := Cancelled) else s
  }

  predicate Enabled(s: State, e: Event) {
    match e
    case Arm => s.timer == Unarmed
    case Dispatch(_) => s.timer != Unarmed && !s.dispatched
    case Return => s.dispatched && s.code == 0
    case Call(_) => s.dispatched && s.heard
    case Timeout => s.timer == Armed
    case CancelTimer => s.winner.Cancelling?
    case SendAnswer => s.winner.Sending?
    case PlatformGone => s.alive
  }

  function Next(s: State, e: Event): State {
    if !Enabled(s, e) then s
    else match e
      case Arm => s.(timer := Armed)
      case Dispatch(heard) => s.(dispatched := true, heard := heard)
      case Return => if s.heard then s.(code := 200) else Cancel(s).(code := 404)
      case Call(n) => Enter(s, Application(n))
      case Timeout => Enter(s.(timer := Fired), TimedOut)
      case CancelTimer => Cancel(s).(winner := Sending(s.winner.who))
      case SendAnswer =>
        s.(winner := Finished(s.winner.who), sent := if s.alive then s.sent + [s.winner.who] else s.sent)
      case PlatformGone => s.(alive := false)
  }

  function Execute(es: seq<Event>): State {
    if es == [] then Start() else Next(Execute(es[..|es| - 1]), es[|es| - 1])
  }

  predicate Racing(s: State) {
    && (s.flag <==> s.winner != Nobody)
    && (s.flag <==> s.tries != [])
    && (s.winner != Nobody ==> s.tries != [] && s.winner.who == s.tries[0])
    && s.sent == (if s.winner.Finished? && s.sent != [] then [s.winner.who] else [])
    && (s.winner.Finished? && s.alive ==> s.sent != [])
    && (s.timer == Cancelled ==> s.flag || s.code == 404)
    && (s.timer == Fired ==> s.flag && TimedOut in s.tries)
    && (TimedOut in s.tries ==> s.timer == Fired)
    && (s.code != 0 ==> s.dispatched && s.timer != Unarmed && s.code == if s.heard then 200 else 404)
    && (!s.heard ==> forall t :: t in s.tries ==> t == TimedOut)
    && (s.code == 404 ==> s.timer != Armed)
    && (s.heard ==> s.dispatched) && (s.dispatched ==> s.timer != Unarmed)
  }

  lemma EnterRacing(s: State, who: Source)
    requires Racing(s.(timer := if s.timer == Fired && who == TimedOut then Armed else s.timer))
    requires who == TimedOut ==> s.timer == Fired && s.code != 404
    requires who.Application? ==> s.heard
    ensures Racing(Enter(s, who))
  {}

  lemma RacingNext(s: State, e: Event)
    requires Racing(s)
    ensures Racing(Next(s, e))
  {
    hide Enter;
    if Enabled(s, e) {
      match e
      case Call(n) => EnterRacing(s, Application(n));
      case Timeout => EnterRacing(s.(timer := Fired), TimedOut);
      case _ =>
    }
  }

  lemma {:induction false} RacingRun(es: seq<Event>)
    ensures Racing(Execute(es))
  {
    if es != [] {
      hide Next, Racing;
      RacingRun(es[..|es| - 1]);
      RacingNext(Execute(es[..|es| - 1]), es[|es| - 1]);
    }
  }

  /** In every run at most one answer is sent: that of the first to reach the flag. */
  lemma {:induction false} FirstAnswerOnly(es: seq<Event>)
    ensures var s := Execute(es); s.sent == [] || (s.tries != [] && s.sent == [s.tries[0]])
  {
    RacingRun(es);
  }

  /** Nothing is left to run: no timer, no winner half way, no return outstanding. */
  predicate Settled(s: State) {
    !Enabled(s, Arm) && !Enabled(s, Return) && !Enabled(s, Timeout) && !Enabled(s, CancelTimer) && !Enabled(s, SendAnswer)
  }

  /** A query that was accepted is answered exactly once, by the application or by the timeout. */
  lemma {:induction false} AcceptedIsAnswered(es: seq<Event>)
    requires Settled(Execute(es)) && Execute(es).code == 200 && Execute(es).alive
    ensures |Execute(es).sent| == 1
  {
    RacingRun(es);
  }

  /** A query nobody listens to gets 404; it gets an answer as well, the timeout's, exactly when the
      timer fired before the handler returned. */
  lemma {:induction false} RefusedAnswer(es: seq<Event>)
    requires Settled(Execute(es)) && Execute(es).code == 404 && Execute(es).alive
    ensures Execute(es).sent == if Execute(es).timer == Fired then [TimedOut] else []
  {
    RacingRun(es);
    var s := Execute(es);
    if s.tries != [] { assert s.tries[0] in s.tries; }
  }

  // ----- the same, by the events -----

  /** Whether a listener took the query: what the one dispatch said. */
  function Taken(es: seq<Event>): Option<bool> {
    if es == [] then None
    else
      var before := Taken(es[..|es| - 1]);
      match es[|es| - 1]
      case Dispatch(heard) => if before.None? && Arm in es[..|es| - 1] then Some(heard) else before
      case _ => before
  }

  lemma {:induction false} TakenIsHeard(es: seq<Event>)
    ensures Execute(es).timer != Unarmed <==> Arm in es
    ensures Taken(es) == if Execute(es).dispatched then Some(Execute(es).heard) else None
  {
    hide Next;
    if es != [] {
      TakenIsHeard(es[..|es| - 1]);
      assert es == es[..|es| - 1] + [es[|es| - 1]];
      HeardNext(Execute(es[..|es| - 1]), es[|es| - 1]);
    }
  }

  lemma HeardNext(s: State, e: Event)
    ensures Next(s, e).timer != Unarmed <==> s.timer != Unarmed || e.Arm?
    ensures var d := e.Dispatch? && s.timer != Unarmed && !s.dispatched;
            Next(s, e).dispatched == (s.dispatched || d) && Next(s, e).heard == if d then e.heard else s.heard
  {}

  /** The handler returns 200 exactly when a listener took the query, otherwise 404, its timer cancelled. */
  lemma {:induction false} ReturnDecides(es: seq<Event>)
    requires Taken(es).Some? && Execute(es).code == 0
    ensures var t := Execute(es + [Return]);
            if Taken(es).value then t.code == 200 && t.timer == Execute(es).timer
            else t.code == 404 && t.timer != Armed
  {
    TakenIsHeard(es);
    RacingRun(es);
    assert (es + [Return])[..|es|] == es;
  }

  /** The first answer, of the application or of the timer, goes out, and cancels the timer first. */
  lemma {:induction false} FirstAnswers(es: seq<Event>, n: nat)
    requires Taken(es).Some? && PlatformGone !in es && Execute(es).tries == []
    ensures var t := Execute(es + [Call(n), CancelTimer, SendAnswer]);
            Taken(es).value ==> t.sent == [Application(n)] && t.timer != Armed && Execute(es + [Call(n), CancelTimer]).timer != Armed
    ensures Execute(es).timer == Armed ==> Execute(es + [Timeout, CancelTimer, SendAnswer]).sent == [TimedOut]
  {
    hide Next;
    ThreeSteps(es, Call(n), CancelTimer, SendAnswer);
    ThreeSteps(es, Timeout, CancelTimer, SendAnswer);
    TakenIsHeard(es);
    Alive(es);
    RacingRun(es);
    FirstCall(Execute(es), n);
  }

  lemma FirstCall(s: State, n: nat)
    requires Racing(s) && s.tries == [] && s.alive
    ensures var t := Next(Next(Next(s, Call(n)), CancelTimer), SendAnswer);
            s.heard ==> t.sent == [Application(n)] && t.timer != Armed && Next(Next(s, Call(n)), CancelTimer).timer != Armed
    ensures s.timer == Armed ==> Next(Next(Next(s, Timeout), CancelTimer), SendAnswer).sent == [TimedOut]
  {}

  lemma {:induction false} ThreeSteps(es: seq<Event>, a: Event, b: Event, c: Event)
    ensures Execute(es + [a, b]) == Next(Next(Execute(es), a), b)
    ensures Execute(es + [a, b, c]) == Next(Next(Next(Execute(es), a), b), c)
  {
    hide Next;
    assert (es + [a, b, c])[..|es| + 2] == es + [a, b] && (es + [a, b])[..|es| + 1] == es + [a] && (es + [a])[..|es|] == es;
  }

  lemma {:induction false} Alive(es: seq<Event>)
    ensures Execute(es).alive <==> PlatformGone !in es
  {
    if es != [] {
      Alive(es[..|es| - 1]);
      assert es == es[..|es| - 1] + [es[|es| - 1]];
    }
  }

  /** Once the platform is gone nothing is sent any more. */
  lemma {:induction false} GoneIsSilent(es: seq<Event>, e: Event)
    requires PlatformGone in es
    ensures Execute(es + [e]).sent == Execute(es).sent
  {
    Alive(es);
    assert (es + [e])[..|es|] == es;
  }

  /** Whoever comes to the flag second changes nothing but the record of having come; the timer, once
      fired or cancelled, stays so. */
  lemma {:induction false} SecondIsIgnored(es: seq<Event>, e: Event)
    requires Execute(es).tries != [] && (e.Call? || e.Timeout?)
    ensures var s, t := Execute(es), Execute(es + [e]);
            t.winner == s.winner && t.sent == s.sent && t.flag
    ensures Execute(es).timer == Fired || Execute(es).timer == Cancelled ==> Execute(es + [e]).timer == Execute(es).timer
  {
    RacingRun(es);
    assert (es + [e])[..|es|] == es;
  }

  class Context {
    var timeout: Timer
    var flag: bool
    var winner: Winner
    var alive: bool
    var heard: bool
    var dispatched: bool
    var code: int
    var sent: seq<Source>
    ghost var tries: seq<Source>

    ghost function Model(): State
      reads this
    {
      State(timeout, flag, winner, alive, heard, dispatched, code, sent, tries)
    }

    constructor ()
      ensures Model() == Start()
    {
      timeout, flag, winner, alive := Unarmed, false, Nobody, true;
      heard, dispatched, code, sent, tries := false, false, 0, [], [];
    }

    /** Returns what the flag was. */
    method TestAndSet(who: Source) returns (was: bool)
      modifies this`flag, this`winner, this`tries
      ensures Model() == Enter(old(Model()), who) && was == old(flag)
    {
      tries := tries + [who];
      was := flag;
      flag := true;
      if !was { winner := Cancelling(who); }
    }

    method OnTimeout()
      requires Enabled(Model(), Timeout)
      modifies this
      ensures Model() == Next(old(Model()), Timeout)
    {
      timeout := Fired;
      var _ := TestAndSet(TimedOut);
    }

    method CancelTimeout()
      requires Enabled(Model(), CancelTimer)
      modifies this`timeout, this`winner
      ensures Model() == Next(old(Model()), CancelTimer)
    {
      if timeout == Armed { timeout := Cancelled; }
      winner := Sending(winner.who);
    }

    method Send()
      requires Enabled(Model(), SendAnswer)
      modifies this`sent, this`winner
      ensures Model() == Next(old(Model()), SendAnswer)
    {
      if alive { sent := sent + [winner.who]; }
      winner := Finished(winner.who);
    }

    /** The end of `process`. */
    method ReturnCode() returns (result: int)
      requires Enabled(Model(), Return)
      modifies this`timeout, this`code
      ensures Model() == Next(old(Model()), Return) && result == code
    {
      if !heard {
        if timeout == Armed { timeout := Cancelled; }
        code := 404;
      } else {
        code := 200;
      }
      result := code;
    }
  }
}
