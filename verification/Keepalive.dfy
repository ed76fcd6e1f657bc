/** Supervision of a subordinate platform (`SubordinatePlatformImpl`): registrations and keepalives
    against a timer that looks every 5 s whether the last of them is 90 s old. Times are microseconds. */
module Keepalive {
  import opened Text

  datatype Status = Offline | Registering | Online | NetworkError | AuthFailure

  const PERIOD := 5_000_000
  const TIMEOUT := 90_000_000
  const WIDTH := 0x1_0000_0000_0000_0000

  /** `tickDue` is when the timer next fires, while it exists; `timedOut` is when it last took the
      platform offline. */
  datatype State = State(
    now: nat, status: Status, registerTime: u64, keepaliveTime: u64, camouflaged: bool,
    tickDue: Option<nat>, timedOut: Option<nat>)

  datatype Event =
    | Register(at: nat)
    | Logout(at: nat)
    | KeepAlive(at: nat)
    | Camouflage(at: nat, registerTime: u64, keepaliveTime: u64)
    | Tick
    | Pass(at: nat)

  function Last(s: State): u64 {
    if s.registerTime >= s.keepaliveTime then s.registerTime else s.keepaliveTime
  }

  /** The sum is taken in 64 bits. */
  predicate Expired(last: u64, now: nat) { (last + TIMEOUT) % WIDTH <= now }

  /** The clock is monotone, does not pass a timer that is due, and stays clear of its own width. */
  predicate Reaches(s: State, at: nat) {
    s.now <= at < WIDTH - TIMEOUT && (s.tickDue.Some? ==> at <= s.tickDue.value)
  }

  function SetStatus(s: State, status: Status): State
    requires s.now < WIDTH
  {
    var n := s.(status := status, camouflaged := false);
    if status == Online then n.(registerTime := s.now, tickDue := Some(s.now + PERIOD))
    else n.(tickDue := None)
  }

  function OnKeepAlive(s: State): State
    requires s.now < WIDTH
  {
    if s.status != Online then s else s.(keepaliveTime := s.now)
  }

  function CamouflageOnline(s: State, registerTime: u64, keepaliveTime: u64): State {
    if s.status == Online then s
    else s.(registerTime := registerTime, keepaliveTime := keepaliveTime, status := Online,
            camouflaged := true, tickDue := Some(s.now + PERIOD))
  }

  function OnTick(s: State): State
    requires s.tickDue.Some? && s.tickDue.value < WIDTH
  {
    var n := s.(now := s.tickDue.value, tickDue := Some(s.tickDue.value + PERIOD));
    if Expired(Last(s), n.now) then SetStatus(n, Offline).(timedOut := Some(n.now)) else n
  }

  function Next(s: State, e: Event): State {
    match e
    case Register(at) => if Reaches(s, at) then SetStatus(s.(now := at), Online) else s
    case Logout(at) => if Reaches(s, at) then SetStatus(s.(now := at), Offline) else s
    case KeepAlive(at) => if Reaches(s, at) then OnKeepAlive(s.(now := at)) else s
    case Camouflage(at, r, k) => if Reaches(s, at) then CamouflageOnline(s.(now := at), r, k) else s
    case Tick => if s.tickDue.Some? && Reaches(s, s.tickDue.value) then OnTick(s) else s
    case Pass(at) => if Reaches(s, at) then s.(now := at) else s
  }

  function Execute(s: State, es: seq<Event>): State {
    if es == [] then s else Next(Execute(s, es[..|es| - 1]), es[|es| - 1])
  }

  /** A platform object is made without a timer, with the status of its account. */
  function Created(at: nat, status: Status): State {
    State(at, status, 0, 0, false, None, None)
  }

  predicate Clear(last: u64) { last + TIMEOUT < WIDTH }

  /** The last sign of life was less than 90 s old when the timer was set or last looked. */
  predicate Fresh(s: State)
    requires s.tickDue.Some?
  {
    Last(s) + TIMEOUT > s.tickDue.value - PERIOD
  }

  predicate Supervised(s: State) {
    && (s.tickDue.Some? <==> s.status == Online)
    && (s.tickDue.Some? ==>
          && s.tickDue.value - PERIOD <= s.now <= s.tickDue.value
          && (Clear(Last(s)) ==> Fresh(s) || s.camouflaged))
  }

  lemma SupervisedNext(s: State, e: Event)
    requires Supervised(s)
    ensures Supervised(Next(s, e))
  {}

  lemma {:induction false} SupervisedRun(s: State, es: seq<Event>)
    requires Supervised(s)
    ensures Supervised(Execute(s, es))
  {
    if es != [] {
      hide Next, Supervised;
      SupervisedRun(s, es[..|es| - 1]);
      SupervisedNext(Execute(s, es[..|es| - 1]), es[|es| - 1]);
    }
  }

  /** From a platform that does not start online, the timer exists exactly while the status is online. */
  lemma {:induction false} ArmedWhenOnline(at: nat, status: Status, es: seq<Event>)
    requires status != Online
    ensures var t := Execute(Created(at, status), es); t.tickDue.Some? <==> t.status == Online
  {
    SupervisedRun(Created(at, status), es);
  }

  /** The start matters: a platform made with an online account is not supervised, and without a
      registration or a logout it stays online for ever. */
  lemma {:induction false} OnlineStartUnsupervised(at: nat, es: seq<Event>)
    requires forall i :: 0 <= i < |es| ==> !es[i].Register? && !es[i].Logout?
    ensures var t := Execute(Created(at, Online), es); t.status == Online && t.tickDue.None?
  {
    if es != [] { OnlineStartUnsupervised(at, es[..|es| - 1]); }
  }

  // ----- signs of life, told from the events -----

  /** When the latest registration was handled, or the time a disguise gave for it; 0 when neither was. */
  function Registered(at: nat, status: Status, es: seq<Event>): nat {
    if es == [] then 0
    else
      var s := Execute(Created(at, status), es[..|es| - 1]);
      match es[|es| - 1]
      case Register(t) => if Reaches(s, t) then t else Registered(at, status, es[..|es| - 1])
      case Camouflage(t, r, _) => if Reaches(s, t) && s.status != Online then r else Registered(at, status, es[..|es| - 1])
      case _ => Registered(at, status, es[..|es| - 1])
  }

  /** Likewise for the latest keepalive handled while online. */
  function Kept(at: nat, status: Status, es: seq<Event>): nat {
    if es == [] then 0
    else
      var s := Execute(Created(at, status), es[..|es| - 1]);
      match es[|es| - 1]
      case KeepAlive(t) => if Reaches(s, t) && s.status == Online then t else Kept(at, status, es[..|es| - 1])
      case Camouflage(t, _, k) => if Reaches(s, t) && s.status != Online then k else Kept(at, status, es[..|es| - 1])
      case _ => Kept(at, status, es[..|es| - 1])
  }

  /** The later of the two. */
  function LastSign(at: nat, status: Status, es: seq<Event>): nat {
    if Registered(at, status, es) >= Kept(at, status, es) then Registered(at, status, es) else Kept(at, status, es)
  }

  /** What each event does to status, times and timer when the clock allows it: a registration puts the
      platform online for now and sets the timer 5 s ahead, a logout takes it offline, a keepalive
      counts only while online, a disguise only while not. */
  lemma EventsDecide(s: State, t: nat, r: u64, k: u64)
    requires s.now <= t && t < 0x1_0000_0000_0000_0000 - 90_000_000 && (s.tickDue.Some? ==> t <= s.tickDue.value)
    ensures Created(t, s.status) == State(t, s.status, 0, 0, false, None, None)
    ensures Next(s, Register(t)) == State(t, Online, t, s.keepaliveTime, false, Some(t + 5_000_000), s.timedOut)
    ensures Next(s, Logout(t)) == State(t, Offline, s.registerTime, s.keepaliveTime, false, None, s.timedOut)
    ensures Next(s, KeepAlive(t)) == s.(now := t, keepaliveTime := if s.status == Online then t else s.keepaliveTime)
    ensures Next(s, Camouflage(t, r, k)) ==
            if s.status == Online then s.(now := t) else State(t, Online, r, k, true, Some(t + 5_000_000), s.timedOut)
  {}

  lemma SignsNext(s: State, e: Event)
    ensures Next(s, e).registerTime ==
            if e.Register? && Reaches(s, e.at) then e.at
            else if e.Camouflage? && Reaches(s, e.at) && s.status != Online then e.registerTime else s.registerTime
    ensures Next(s, e).keepaliveTime ==
            if e.KeepAlive? && Reaches(s, e.at) && s.status == Online then e.at
            else if e.Camouflage? && Reaches(s, e.at) && s.status != Online then e.keepaliveTime else s.keepaliveTime
  {}

  lemma {:induction false} SignsRecorded(at: nat, status: Status, es: seq<Event>)
    ensures var s := Execute(Created(at, status), es);
            s.registerTime == Registered(at, status, es) && s.keepaliveTime == Kept(at, status, es)
  {
    if es != [] {
      hide Next, Reaches;
      SignsRecorded(at, status, es[..|es| - 1]);
      SignsNext(Execute(Created(at, status), es[..|es| - 1]), es[|es| - 1]);
    }
  }

  /** In every run, for every tick of the timer: the platform is taken offline if and only if its last
      sign of life is 90 s old or older, and otherwise the next tick is 5 s later. */
  lemma {:induction false} TickDecides(at: nat, status: Status, es: seq<Event>)
    requires LastSign(at, status, es) + 90_000_000 < 0x1_0000_0000_0000_0000
    requires var s := Execute(Created(at, status), es); s.tickDue.Some? && Reaches(s, s.tickDue.value)
    ensures var s := Execute(Created(at, status), es);
            var t, tick := Next(s, Tick), s.tickDue.value;
            if tick >= LastSign(at, status, es) + 90_000_000
            then t.status == Offline && t.tickDue == None && t.timedOut == Some(tick) && t.now == tick
            else t == s.(now := tick, tickDue := Some(tick + 5_000_000))
  {
    SignsRecorded(at, status, es);
    OldOrNot(Execute(Created(at, status), es));
  }

  lemma OldOrNot(s: State)
    requires Clear(Last(s)) && s.tickDue.Some?
    ensures Expired(Last(s), s.tickDue.value) <==> s.tickDue.value >= Last(s) + 90_000_000
  {}

  /** At every tick that fires the last sign of life is less than 90 s old. */
  predicate Brisk(at: nat, status: Status, es: seq<Event>) {
    es == [] || (
      var s := Execute(Created(at, status), es[..|es| - 1]);
      && Brisk(at, status, es[..|es| - 1])
      && (es[|es| - 1].Tick? && s.tickDue.Some? ==> s.tickDue.value < LastSign(at, status, es[..|es| - 1]) + 90_000_000))
  }

  /** So registrations and keepalives less than 90 s apart keep a platform from ever being timed out. */
  lemma {:induction false} GapsNeverTimeOut(at: nat, status: Status, es: seq<Event>)
    requires Brisk(at, status, es)
    requires forall n :: 0 <= n <= |es| ==> LastSign(at, status, es[..n]) + 90_000_000 < 0x1_0000_0000_0000_0000
    ensures Execute(Created(at, status), es).timedOut == None
  {
    if es != [] {
      var before, e := es[..|es| - 1], es[|es| - 1];
      var s := Execute(Created(at, status), before);
      forall n | 0 <= n <= |before| ensures LastSign(at, status, before[..n]) + 90_000_000 < 0x1_0000_0000_0000_0000 {
        assert before[..n] == es[..n];
      }
      assert before[..|before|] == before;
      GapsNeverTimeOut(at, status, before);
      if e.Tick? && s.tickDue.Some? && Reaches(s, s.tickDue.value) {
        TickDecides(at, status, before);
      }
    }
  }

  /** In every run: whatever takes a platform offline as timed out is a tick at least 90 s after its last
      sign of life. */
  lemma {:induction false} SilentBeforeTimeout(at: nat, status: Status, es: seq<Event>, e: Event)
    requires status != Online && LastSign(at, status, es) + 90_000_000 < 0x1_0000_0000_0000_0000
    ensures var s := Execute(Created(at, status), es);
            var t := Next(s, e);
            t.timedOut != s.timedOut ==>
              e.Tick? && s.status == Online && t.status == Offline && t.timedOut == Some(t.now)
              && t.now >= LastSign(at, status, es) + 90_000_000
  {
    ArmedWhenOnline(at, status, es);
    var s := Execute(Created(at, status), es);
    if e.Tick? && s.tickDue.Some? && Reaches(s, s.tickDue.value) { TickDecides(at, status, es); }
  }

  /** The first tick at or after the timeout. */
  function Deadline(s: State): int
    requires s.tickDue.Some?
  {
    var missing := Last(s) + TIMEOUT - s.tickDue.value;
    if missing <= 0 then s.tickDue.value
    else s.tickDue.value + (missing + PERIOD - 1) / PERIOD * PERIOD
  }

  predicate Quiet(e: Event) { e.Tick? || e.Pass? }

  /** Online with the same deadline ahead, or taken offline at the deadline `d`. */
  predicate Heading(t: State, d: int) {
    && Supervised(t) && Clear(Last(t))
    && (if t.status == Online then t.now <= Deadline(t) == d else t.timedOut.Some? && t.timedOut.value == d)
  }

  lemma HeadingNext(t: State, d: int, e: Event)
    requires Heading(t, d) && Quiet(e)
    ensures Heading(Next(t, e), d)
  {}

  /** A platform that is silent from now on is taken offline exactly at its deadline, less than 5 s
      after the 90 s are over; a disguised one whose given times are older than that, at the first tick. */
  lemma {:induction false} SilenceEnds(s: State, es: seq<Event>)
    requires Supervised(s) && s.status == Online && Clear(Last(s))
    requires forall i :: 0 <= i < |es| ==> Quiet(es[i])
    ensures Heading(Execute(s, es), Deadline(s))
    ensures if Fresh(s) then Last(s) + TIMEOUT <= Deadline(s) < Last(s) + TIMEOUT + PERIOD
            else s.camouflaged && Deadline(s) == s.tickDue.value
  {
    if es != [] {
      SilenceEnds(s, es[..|es| - 1]);
      hide Next, Heading, Supervised, Deadline;
      HeadingNext(Execute(s, es[..|es| - 1]), Deadline(s), es[|es| - 1]);
    }
  }

  /** In every run: a platform that is not disguised and silent from then on is still online less than
      95 s after its last sign of life, or was taken offline between 90 s and 95 s after it. */
  lemma {:induction false} TakenOffline(at: nat, status: Status, es: seq<Event>, silent: seq<Event>)
    requires status != Online && LastSign(at, status, es) + 90_000_000 < 0x1_0000_0000_0000_0000
    requires var s := Execute(Created(at, status), es); s.status == Online && !s.camouflaged
    requires forall i :: 0 <= i < |silent| ==> silent[i].Tick? || silent[i].Pass?
    ensures var t, last := Execute(Execute(Created(at, status), es), silent), LastSign(at, status, es);
            if t.status == Online then t.now < last + 95_000_000
            else t.timedOut.Some? && last + 90_000_000 <= t.timedOut.value < last + 95_000_000
  {
    var s := Execute(Created(at, status), es);
    SupervisedRun(Created(at, status), es);
    SignsRecorded(at, status, es);
    SilenceEnds(s, silent);
    HeadingBounds(Execute(s, silent), Deadline(s));
  }

  lemma HeadingBounds(t: State, d: int)
    requires Heading(t, d)
    ensures if t.status == Online then t.now <= d else t.timedOut.Some? && t.timedOut.value == d
  {}

  /** And the ticks alone bring it there. */
  lemma {:induction false} SilenceStops(s: State) returns (es: seq<Event>)
    requires Supervised(s) && s.status == Online && Clear(Last(s)) && Deadline(s) < WIDTH - TIMEOUT
    ensures (forall i :: 0 <= i < |es| ==> es[i] == Tick) && Execute(s, es).status == Offline
    decreases Deadline(s) - s.tickDue.value
  {
    var t := Next(s, Tick);
    if t.status == Offline {
      es := [Tick];
      assert Execute(s, es[..0]) == s;
    } else {
      var rest := SilenceStops(t);
      es := [Tick] + rest;
      ExecuteFrom(s, Tick, rest);
    }
  }

  lemma {:induction false} ExecuteFrom(s: State, e: Event, rest: seq<Event>)
    ensures Execute(s, [e] + rest) == Execute(Next(s, e), rest)
  {
    hide Next;
    var es := [e] + rest;
    if rest == [] {
      assert es[..|es| - 1] == [];
    } else {
      assert es[..|es| - 1] == [e] + rest[..|rest| - 1];
      ExecuteFrom(s, e, rest[..|rest| - 1]);
    }
  }

  // ----- the object -----

  class SubordinatePlatform {
    var status: Status
    var registerTime: u64
    var keepaliveTime: u64
    var camouflaged: bool
    var tickDue: Option<nat>
    ghost var now: nat
    ghost var timedOut: Option<nat>

    ghost function Model(): State
      reads this
    {
      State(now, status, registerTime, keepaliveTime, camouflaged, tickDue, timedOut)
    }

    constructor (at: nat, status: Status)
      ensures Model() == Created(at, status)
    {
      this.status, registerTime, keepaliveTime, camouflaged, tickDue := status, 0, 0, false, None;
      now, timedOut := at, None;
    }

    method SetPlatformStatus(at: u64, status: Status)
      requires now == at
      modifies this
      ensures Model() == SetStatus(old(Model()), status)
    {
      this.status := status;
      camouflaged := false;
      if status == Online {
        registerTime := at;
        tickDue := Some(at + PERIOD);
      } else {
        tickDue := None;
      }
    }

    /** A registration that was accepted, or with `expires` 0 a logout. */
    method OnRegister(at: u64, expires: nat)
      requires Reaches(Model(), at)
      modifies this
      ensures Model() == Next(old(Model()), if expires == 0 then Logout(at) else Register(at))
    {
      now := at;
      SetPlatformStatus(at, if expires == 0 then Offline else Online);
    }

    /** Nothing happens and 0 is returned unless the platform is online. */
    method OnKeepAliveMessage(at: u64) returns (code: int)
      requires Reaches(Model(), at)
      modifies this
      ensures Model() == Next(old(Model()), KeepAlive(at))
      ensures code == if old(status) == Online then 200 else 0
      ensures code == 0 ==> Model() == old(Model()).(now := at)
    {
      now := at;
      if status != Online { return 0; }
      keepaliveTime := at;
      return 200;
    }

    method Disguise(at: u64, registerTime: u64, keepaliveTime: u64)
      requires Reaches(Model(), at)
      modifies this
      ensures Model() == Next(old(Model()), Camouflage(at, registerTime, keepaliveTime))
    {
      now := at;
      if status == Online { return; }
      this.registerTime, this.keepaliveTime := registerTime, keepaliveTime;
      status := Online;
      camouflaged := true;
      tickDue := Some(at + PERIOD);
    }

    method OnTimer()
      requires tickDue.Some? && Reaches(Model(), tickDue.value)
      modifies this
      ensures Model() == Next(old(Model()), Tick)
    {
      now := tickDue.value;
      var last := if registerTime >= keepaliveTime then registerTime else keepaliveTime;
      if (last + TIMEOUT) % WIDTH <= tickDue.value {
        SetPlatformStatus(tickDue.value, Offline);
        timedOut := Some(now);
      } else {
        tickDue := Some(tickDue.value + PERIOD);
      }
    }
  }
}
