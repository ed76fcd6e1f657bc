/** The eight-byte frame of a PTZ command (`PTZCommand`, Annex A of GB/T 28181-2022): builders that write
    it in place, its check bytes, and its hexadecimal text. */
module Ptz {
  import opened Text

  type Frame = f: seq<bv8> | |f| == 8 witness [0xA5, 0, 0, 0, 0, 0, 0, 0]

  datatype MoveType = MoveStop | Up | Down | Left | Right | ZoomIn | ZoomOut
  datatype FiType = IrisOut | IrisIn | FocusOut | FocusIn | FiClose
  datatype PresetType = SetPreset | CallPreset | DelPreset
  datatype CruiseType = AddPoint | DelPoint | SetSpeed | SetStayTime | StartCruise
  datatype ScanSubType = BeginScan | ScanLeft | ScanRight
  datatype AuxType = AuxOn | AuxOff

  function MoveCode(t: MoveType): bv8 {
    match t
    case MoveStop => 0
    case Up => 0x08
    case Down => 0x04
    case Left => 0x02
    case Right => 0x01
    case ZoomIn => 0x10
    case ZoomOut => 0x20
  }

  function FiCode(t: FiType): bv8 {
    match t
    case IrisOut => 0x48
    case IrisIn => 0x44
    case FocusOut => 0x42
    case FocusIn => 0x41
    case FiClose => 0x40
  }

  function PresetCode(t: PresetType): bv8 {
    match t case SetPreset => 0x81 case CallPreset => 0x82 case DelPreset => 0x83
  }

  function CruiseCode(t: CruiseType): bv8 {
    match t
    case AddPoint => 0x84
    case DelPoint => 0x85
    case SetSpeed => 0x86
    case SetStayTime => 0x87
    case StartCruise => 0x88
  }

  const SCAN_START: bv8 := 0x89
  const SCAN_SPEED: bv8 := 0x8A

  function ScanCode(t: ScanSubType): bv8 {
    match t case BeginScan => 0 case ScanLeft => 1 case ScanRight => 2
  }

  function AuxCode(t: AuxType): bv8 {
    match t case AuxOn => 0x8C case AuxOff => 0x8D
  }

  // ----- builders -----

  /** Both bits of one of the three pairs left/right, up/down, in/out. */
  predicate Opposing(cmd: bv8) {
    cmd & 0x03 == 0x03 || cmd & 0x0C == 0x0C || cmd & 0x30 == 0x30
  }

  /** A nibble kept beside the high bits of the address. */
  function LowNibble(b: bv8): bv8 { b & 0x0F }

  function HighNibble(value: bv8, kept: bv8): bv8 { ((value & 0x0F) << 4) | (kept & 0x0F) }

  function Low(value: bv16): bv8 { (value & 0xFF) as bv8 }

  function High(value: bv16): bv8 { (value >> 8) as bv8 }

  function Created(address: bv16): Frame {
    [0xA5, 0, Low(address), 0, 0, 0, High(address) & 0x0F, 0]
  }

  datatype Build =
    | Move(move: MoveType, speed: bv8)
    | Fi(fi: FiType, speed: bv8)
    | Preset(preset: PresetType, presetId: bv8)
    | Cruise(cruise: CruiseType, cruiseId: bv8, value: bv16)
    | Scan(group: bv8, sub: ScanSubType)
    | ScanSpeed(group: bv8, value: bv16)
    | Aux(aux: AuxType, auxId: bv8)
    | Finish                                   // what `ToHex` writes

  /** The bits added to what is set already. */
  function With(cmd: bv8, bits: bv8): bv8 { cmd | bits }

  function ApplyMove(f: Frame, t: MoveType, speed: bv8): Frame {
    var cmd := With(f[3], MoveCode(t));
    if cmd > 0x2A || Opposing(cmd) then f
    else match t
      case Left | Right => f[3 := cmd][4 := speed]
      case Up | Down => f[3 := cmd][5 := speed]
      case MoveStop | ZoomIn | ZoomOut => f[3 := cmd][6 := HighNibble(speed, f[6])]
  }

  /** A command of another family. */
  predicate NotLens(cmd: bv8) { cmd > 0x4A || (cmd != 0 && cmd < 0x40) }

  predicate OpposingLens(cmd: bv8) { cmd & 0x03 == 0x03 || cmd & 0x0C == 0x0C }

  function ApplyFi(f: Frame, t: FiType, speed: bv8): Frame {
    if NotLens(f[3]) then f
    else
      var cmd := With(f[3], FiCode(t));
      if OpposingLens(cmd) then f
      else match t
        case FocusIn | FocusOut => f[3 := cmd][4 := speed]
        case IrisIn | IrisOut => f[3 := cmd][5 := speed]
        case FiClose => f[3 := cmd]
  }

  function ApplyCruise(f: Frame, t: CruiseType, id: bv8, value: bv16): Frame {
    var g := f[3 := CruiseCode(t)][4 := id][5 := Low(value)];
    if t == SetSpeed || t == SetStayTime then g[6 := HighNibble(High(value), f[6])] else g
  }

  function NibbleInt(b: bv8): (n: int)
    requires b < 16
    ensures 0 <= n < 16
  {
    if b == 0 then 0 else if b == 1 then 1 else if b == 2 then 2 else if b == 3 then 3
    else if b == 4 then 4 else if b == 5 then 5 else if b == 6 then 6 else if b == 7 then 7
    else if b == 8 then 8 else if b == 9 then 9 else if b == 10 then 10 else if b == 11 then 11
    else if b == 12 then 12 else if b == 13 then 13 else if b == 14 then 14 else 15
  }

  function IntNibble(n: int): (b: bv8)
    requires 0 <= n < 16
    ensures b < 16 && NibbleInt(b) == n
  {
    if n == 0 then 0 else if n == 1 then 1 else if n == 2 then 2 else if n == 3 then 3
    else if n == 4 then 4 else if n == 5 then 5 else if n == 6 then 6 else if n == 7 then 7
    else if n == 8 then 8 else if n == 9 then 9 else if n == 10 then 10 else if n == 11 then 11
    else if n == 12 then 12 else if n == 13 then 13 else if n == 14 then 14 else 15
  }

  lemma NibbleBack(b: bv8)
    requires b < 16
    ensures IntNibble(NibbleInt(b)) == b
  {}

  /** The number a byte stands for. */
  function AsInt(b: bv8): (n: int)
    ensures 0 <= n < 256
  {
    16 * NibbleInt(b >> 4) + NibbleInt(b & 0x0F)
  }

  function AsByte(n: int): bv8
    requires 0 <= n < 256
  {
    (IntNibble(n / 16) << 4) | IntNibble(n % 16)
  }

  lemma Nibbles(h: bv8, l: bv8)
    requires h < 16 && l < 16
    ensures ((h << 4) | l) >> 4 == h && ((h << 4) | l) & 0x0F == l
  {}

  lemma IntOfByte(n: int)
    requires 0 <= n < 256
    ensures AsInt(AsByte(n)) == n
  {
    hide NibbleInt, IntNibble;
    Nibbles(IntNibble(n / 16), IntNibble(n % 16));
  }

  lemma NibblesOf(b: bv8)
    ensures ((b >> 4) << 4) | (b & 0x0F) == b && b >> 4 < 16
  {}

  lemma ByteOfInt(b: bv8)
    ensures AsByte(AsInt(b)) == b
  {
    hide NibbleInt, IntNibble;
    NibblesOf(b);
    NibbleBack(b >> 4);
    NibbleBack(b & 0x0F);
    assert AsInt(b) / 16 == NibbleInt(b >> 4) && AsInt(b) % 16 == NibbleInt(b & 0x0F);
  }

  lemma SameByte(x: bv8, y: bv8)
    ensures AsInt(x) == AsInt(y) <==> x == y
  {
    hide AsInt, AsByte;
    ByteOfInt(x);
    ByteOfInt(y);
  }

  function Sum(bytes: seq<bv8>): int {
    if bytes == [] then 0 else Sum(bytes[..|bytes| - 1]) + AsInt(bytes[|bytes| - 1])
  }

  function Checksum(f: Frame): (b: bv8)
    ensures AsInt(b) == Sum(f[..7]) % 256
  {
    IntOfByte(Sum(f[..7]) % 256);
    AsByte(Sum(f[..7]) % 256)
  }

  function Combination(f: Frame): bv8 {
    (f[1] & 0xF0) | (((f[0] >> 4) + (f[0] & 0x0F) + (f[1] >> 4)) & 0x0F)
  }

  function Finished(f: Frame): Frame {
    var g: Frame := f[1 := Combination(f)];
    g[7 := Checksum(g)]
  }

  function Apply(f: Frame, b: Build): Frame {
    match b
    case Move(t, speed) => ApplyMove(f, t, speed)
    case Fi(t, speed) => ApplyFi(f, t, speed)
    case Preset(t, id) => f[3 := PresetCode(t)][5 := id]
    case Cruise(t, id, value) => ApplyCruise(f, t, id, value)
    case Scan(group, sub) => f[3 := SCAN_START][4 := group][5 := ScanCode(sub)]
    case ScanSpeed(group, value) =>
      f[3 := SCAN_SPEED][4 := group][5 := Low(value)][6 := HighNibble(High(value), f[6])]
    case Aux(t, id) => f[3 := AuxCode(t)][4 := id]
    case Finish => Finished(f)
  }

  function Built(f: Frame, bs: seq<Build>): Frame {
    if bs == [] then f else Apply(Built(f, bs[..|bs| - 1]), bs[|bs| - 1])
  }

  function DeviceAddress(f: Frame): bv16 { (((f[6] & 0x0F) as bv16) << 8) | (f[2] as bv16) }

  function Param2(f: Frame): bv16 {
    if f[3] == 0x86 || f[3] == 0x87 || f[3] == 0x8A
    then (((f[6] & 0xF0) as bv16) << 4) | (f[5] as bv16)
    else f[5] as bv16
  }

  // ----- what builders keep -----

  lemma NibbleKeeps(value: bv8, kept: bv8)
    ensures LowNibble(HighNibble(value, kept)) == LowNibble(kept)
    ensures HighNibble(value, kept) & 0xF0 == (value & 0x0F) << 4
  {}

  /** The start byte and the two places of the address. */
  predicate SameHead(f: Frame, g: Frame) { g[0] == f[0] && g[2] == f[2] && LowNibble(g[6]) == LowNibble(f[6]) }

  lemma MoveKeepsHead(f: Frame, t: MoveType, speed: bv8)
    ensures SameHead(f, ApplyMove(f, t, speed))
  {
    hide With, Opposing, MoveCode, HighNibble, LowNibble;
    NibbleKeeps(speed, f[6]);
  }

  lemma FiKeepsHead(f: Frame, t: FiType, speed: bv8)
    ensures SameHead(f, ApplyFi(f, t, speed))
  {
    hide With, FiCode, LowNibble, NotLens, OpposingLens;
  }

  lemma CruiseKeepsHead(f: Frame, t: CruiseType, id: bv8, value: bv16)
    ensures SameHead(f, ApplyCruise(f, t, id, value))
  {
    hide CruiseCode, Low, High, HighNibble, LowNibble;
    NibbleKeeps(High(value), f[6]);
  }

  lemma ApplyKeepsHead(f: Frame, b: Build)
    ensures SameHead(f, Apply(f, b))
  {
    hide ApplyMove, ApplyFi, ApplyCruise, PresetCode, ScanCode, AuxCode, Combination, Checksum, HighNibble, LowNibble, Low, High;
    match b
    case Move(t, speed) => MoveKeepsHead(f, t, speed);
    case Fi(t, speed) => FiKeepsHead(f, t, speed);
    case Cruise(t, id, value) => CruiseKeepsHead(f, t, id, value);
    case ScanSpeed(_, value) => NibbleKeeps(High(value), f[6]);
    case _ =>
  }

  lemma {:induction false} BuiltKeepsHead(f: Frame, bs: seq<Build>)
    ensures SameHead(f, Built(f, bs))
  {
    hide Apply;
    if bs != [] {
      BuiltKeepsHead(f, bs[..|bs| - 1]);
      ApplyKeepsHead(Built(f, bs[..|bs| - 1]), bs[|bs| - 1]);
    }
  }

  lemma CreatedAddress(address: bv16)
    ensures DeviceAddress(Created(address)) == address & 0x0FFF
  {}

  /** No sequence of builder calls changes the address given at creation, of which 12 bits are kept. */
  lemma {:induction false} AddressUnchanged(address: bv16, bs: seq<Build>)
    ensures DeviceAddress(Built(Created(address), bs)) == address & 0x0FFF
    ensures Built(Created(address), bs)[0] == 0xA5
  {
    BuiltKeepsHead(Created(address), bs);
    CreatedAddress(address);
  }

  predicate Movement(cmd: bv8) { cmd < 0x40 && !Opposing(cmd) }

  predicate Lens(cmd: bv8) { cmd & 0xF0 == 0x40 && !OpposingLens(cmd) }

  predicate Named(cmd: bv8) { 0x81 <= cmd <= 0x8A || cmd == 0x8C || cmd == 0x8D }

  predicate Command(cmd: bv8) { Movement(cmd) || Lens(cmd) || Named(cmd) }

  lemma MoveGuard(cmd: bv8, t: MoveType)
    ensures (With(cmd, MoveCode(t)) > 0x2A || Opposing(With(cmd, MoveCode(t)))) <==> !Movement(With(cmd, MoveCode(t)))
    ensures cmd >= 0x40 ==> !Movement(With(cmd, MoveCode(t)))
  {}

  lemma LensGuard(cmd: bv8, t: FiType)
    requires Lens(cmd) || cmd == 0
    ensures !NotLens(cmd)
    ensures Lens(With(cmd, FiCode(t))) <==> !OpposingLens(With(cmd, FiCode(t)))
  {}

  lemma OtherFamilies(cmd: bv8)
    requires Command(cmd) && cmd != 0 && !Lens(cmd)
    ensures NotLens(cmd)
  {}

  /** On a movement frame a move is accepted exactly when the directions then set hold no opposing
      pair; on a frame of another family it is never accepted. Rejection changes nothing. */
  lemma MoveAccepted(f: Frame, t: MoveType, speed: bv8)
    ensures ApplyMove(f, t, speed)[3] == if f[3] < 0x40 && !Opposing(With(f[3], MoveCode(t))) then With(f[3], MoveCode(t)) else f[3]
    ensures !(f[3] < 0x40 && !Opposing(With(f[3], MoveCode(t)))) ==> ApplyMove(f, t, speed) == f
  {
    MoveGuard(f[3], t);
    SmallOr(f[3], t);
    hide With, Opposing, MoveCode, HighNibble;
  }

  /** Likewise a lens operation, on any frame: it takes effect exactly when the command byte is none yet
      or in the range of lens commands, and the operations then set hold no opposing pair; for the
      commands builders make, exactly when the result is a lens command. Rejection changes nothing. */
  lemma FiAccepted(f: Frame, t: FiType, speed: bv8)
    ensures (f[3] == 0 || 0x40 <= f[3] <= 0x4A) && !OpposingLens(With(f[3], FiCode(t))) ==> ApplyFi(f, t, speed)[3] == With(f[3], FiCode(t))
    ensures !((f[3] == 0 || 0x40 <= f[3] <= 0x4A) && !OpposingLens(With(f[3], FiCode(t)))) ==> ApplyFi(f, t, speed) == f
    ensures Command(f[3]) ==>
              (((f[3] == 0 || 0x40 <= f[3] <= 0x4A) && !OpposingLens(With(f[3], FiCode(t))))
               <==> ((f[3] == 0 || Lens(f[3])) && Lens(With(f[3], FiCode(t)))))
  {
    RangeOfLens(f[3]);
    if Lens(f[3]) || f[3] == 0 { LensGuard(f[3], t); } else if Command(f[3]) { OtherFamilies(f[3]); }
    hide With, FiCode, Lens, Command, NotLens, OpposingLens;
  }

  lemma RangeOfLens(cmd: bv8)
    ensures NotLens(cmd) <==> !(cmd == 0 || 0x40 <= cmd <= 0x4A)
  {}

  lemma SmallOr(cmd: bv8, t: MoveType)
    ensures cmd < 0x40 ==> With(cmd, MoveCode(t)) < 0x40
  {}

  lemma MoveCommand(f: Frame, t: MoveType, speed: bv8)
    requires Command(f[3])
    ensures Command(ApplyMove(f, t, speed)[3])
  {
    MoveGuard(f[3], t);
    hide With, Opposing, MoveCode, HighNibble, Lens, Named;
  }

  lemma FiCommand(f: Frame, t: FiType, speed: bv8)
    requires Command(f[3])
    ensures Command(ApplyFi(f, t, speed)[3])
  {
    if Lens(f[3]) || f[3] == 0 { LensGuard(f[3], t); } else { OtherFamilies(f[3]); }
    hide With, Opposing, FiCode, Lens, Named, NotLens, OpposingLens;
  }

  lemma NamedCommands(t: PresetType, u: CruiseType, v: AuxType)
    ensures Named(PresetCode(t)) && Named(CruiseCode(u)) && Named(AuxCode(v)) && Named(SCAN_START) && Named(SCAN_SPEED)
  {}

  lemma ApplyCommand(f: Frame, b: Build)
    requires Command(f[3])
    ensures Command(Apply(f, b)[3])
  {
    hide ApplyMove, ApplyFi, PresetCode, CruiseCode, AuxCode, Combination, Checksum, HighNibble, Movement, Lens, Named;
    match b
    case Move(t, speed) => MoveCommand(f, t, speed);
    case Fi(t, speed) => FiCommand(f, t, speed);
    case Preset(t, _) => NamedCommands(t, AddPoint, AuxOn);
    case Cruise(t, _, _) => NamedCommands(SetPreset, t, AuxOn);
    case Aux(t, _) => NamedCommands(SetPreset, AddPoint, t);
    case _ => NamedCommands(SetPreset, AddPoint, AuxOn);
  }

  /** Whatever is called on a new frame, its command byte is one the standard defines: directions
      without an opposing pair, lens operations without an opposing pair, or one named command; the
      families never mix. */
  lemma {:induction false} CommandDefined(address: bv16, bs: seq<Build>)
    ensures Command(Built(Created(address), bs)[3])
  {
    hide Apply, Command;
    if bs == [] {
      assert Command(0) by { ZeroCommand(); }
    } else {
      CommandDefined(address, bs[..|bs| - 1]);
      ApplyCommand(Built(Created(address), bs[..|bs| - 1]), bs[|bs| - 1]);
    }
  }

  lemma ZeroCommand()
    ensures Command(0)
  {}

  predicate Wide(cmd: bv8) { cmd == 0x86 || cmd == 0x87 || cmd == 0x8A }

  function Joined(nibbles: bv8, low: bv8): bv16 { (((nibbles & 0xF0) as bv16) << 4) | (low as bv16) }

  lemma Param2Is(f: Frame)
    ensures Param2(f) == if Wide(f[3]) then Joined(f[6], f[5]) else f[5] as bv16
  {}

  lemma WideCruise(t: CruiseType)
    ensures Wide(CruiseCode(t)) <==> t == SetSpeed || t == SetStayTime
    ensures Wide(SCAN_SPEED)
  {}

  /** Speeds and stay times are read back to 12 bits, every other value of a cruise to 8. */
  lemma CruiseValue(f: Frame, t: CruiseType, id: bv8, value: bv16)
    ensures Param2(ApplyCruise(f, t, id, value)) == if t == SetSpeed || t == SetStayTime then value & 0x0FFF else value & 0x00FF
    ensures Param2(Apply(f, ScanSpeed(id, value))) == value & 0x0FFF
  {
    hide HighNibble, LowNibble, High, Low, Wide, Joined, Param2, CruiseCode;
    Param2Is(ApplyCruise(f, t, id, value));
    Param2Is(Apply(f, ScanSpeed(id, value)));
    WideCruise(t);
    WideValue(value, f[6]);
  }

  lemma WideValue(value: bv16, kept: bv8)
    ensures Joined(HighNibble(High(value), kept), Low(value)) == value & 0x0FFF
    ensures Low(value) as bv16 == value & 0x00FF
  {}

  // ----- the bytes an operation writes -----

  /** Left with right, down with up, or in with out. */
  predicate Contradictory(cmd: bv8) {
    || (cmd & 0x01 != 0 && cmd & 0x02 != 0)
    || (cmd & 0x04 != 0 && cmd & 0x08 != 0)
    || (cmd & 0x10 != 0 && cmd & 0x20 != 0)
  }

  lemma OpposingPairs(cmd: bv8)
    ensures Opposing(cmd) <==> Contradictory(cmd)
    ensures OpposingLens(cmd) <==> (cmd & 0x01 != 0 && cmd & 0x02 != 0) || (cmd & 0x04 != 0 && cmd & 0x08 != 0)
  {}

  /** The bit of a direction. */
  function DirectionBit(t: MoveType): bv8 {
    match t
    case MoveStop => 0
    case Right => 0x01
    case Left => 0x02
    case Down => 0x04
    case Up => 0x08
    case ZoomIn => 0x10
    case ZoomOut => 0x20
  }

  /** A move on any frame: its bit joins the others in byte 4 of the standard, and its speed goes to byte 5
      for the horizontal axis, to byte 6 for the vertical one, and to the high half of byte 7 for the
      zoom; a frame of another family, or a contradiction, leaves all bytes alone. */
  lemma MoveBytes(f: Frame, t: MoveType, speed: bv8, cmd: bv8)
    requires cmd == f[3] | DirectionBit(t)
    ensures Apply(f, Move(t, speed))
         == if f[3] >= 0x40 || Contradictory(cmd) then f
            else if t == Left || t == Right then f[3 := cmd][4 := speed]
            else if t == Up || t == Down then f[3 := cmd][5 := speed]
            else f[3 := cmd][6 := (speed << 4) | (f[6] & 0x0F)]
  {
    DirectionCode(f[3], t);
    MoveGuard(f[3], t);
    SmallOr(f[3], t);
    OpposingPairs(cmd);
    ShiftedNibble(speed, f[6]);
    hide With, Opposing, MoveCode, HighNibble, Contradictory, DirectionBit;
  }

  lemma DirectionCode(cmd: bv8, t: MoveType)
    ensures With(cmd, MoveCode(t)) == cmd | DirectionBit(t)
  {}

  lemma ShiftedNibble(value: bv8, kept: bv8)
    ensures HighNibble(value, kept) == (value << 4) | (kept & 0x0F)
  {}

  /** The command byte of a lens operation alone. */
  function LensByte(t: FiType): bv8 {
    match t
    case FiClose => 0x40
    case FocusIn => 0x41
    case FocusOut => 0x42
    case IrisIn => 0x44
    case IrisOut => 0x48
  }

  /** A lens operation on any frame: the focus speed goes to byte 5 of the standard, the iris speed to
      byte 6. */
  lemma LensBytes(f: Frame, t: FiType, speed: bv8, cmd: bv8)
    requires cmd == f[3] | LensByte(t)
    ensures Apply(f, Fi(t, speed))
         == if !(f[3] == 0 || 0x40 <= f[3] <= 0x4A) then f
            else if (cmd & 0x01 != 0 && cmd & 0x02 != 0) || (cmd & 0x04 != 0 && cmd & 0x08 != 0) then f
            else if t == FocusIn || t == FocusOut then f[3 := cmd][4 := speed]
            else if t == IrisIn || t == IrisOut then f[3 := cmd][5 := speed]
            else f[3 := cmd]
  {
    LensCode(f[3], t);
    RangeOfLens(f[3]);
    OpposingPairs(cmd);
    hide With, OpposingLens, FiCode, NotLens, LensByte, Opposing, Contradictory;
  }

  lemma LensCode(cmd: bv8, t: FiType)
    ensures With(cmd, FiCode(t)) == cmd | LensByte(t)
  {}

  /** The named commands, on any frame, with the bytes they write and those they leave. */
  lemma NamedBytes(f: Frame, id: bv8, value: bv16)
    ensures Apply(f, Preset(SetPreset, id)) == f[3 := 0x81][5 := id]
    ensures Apply(f, Preset(CallPreset, id)) == f[3 := 0x82][5 := id]
    ensures Apply(f, Preset(DelPreset, id)) == f[3 := 0x83][5 := id]
    ensures Apply(f, Scan(id, BeginScan)) == f[3 := 0x89][4 := id][5 := 0]
    ensures Apply(f, Scan(id, ScanLeft)) == f[3 := 0x89][4 := id][5 := 1]
    ensures Apply(f, Scan(id, ScanRight)) == f[3 := 0x89][4 := id][5 := 2]
    ensures Apply(f, Aux(AuxOn, id)) == f[3 := 0x8C][4 := id]
    ensures Apply(f, Aux(AuxOff, id)) == f[3 := 0x8D][4 := id]
    ensures Apply(f, ScanSpeed(id, value)) == f[3 := 0x8A][4 := id][5 := LowByte(value)][6 := Beside(value, f[6])]
  {
    NibbleBeside(value, f[6]);
    hide HighNibble, Low, High, LowByte, Beside;
  }

  lemma CruiseBytes(f: Frame, id: bv8, value: bv16)
    ensures Apply(f, Cruise(AddPoint, id, value)) == f[3 := 0x84][4 := id][5 := LowByte(value)]
    ensures Apply(f, Cruise(DelPoint, id, value)) == f[3 := 0x85][4 := id][5 := LowByte(value)]
    ensures Apply(f, Cruise(SetSpeed, id, value)) == f[3 := 0x86][4 := id][5 := LowByte(value)][6 := Beside(value, f[6])]
    ensures Apply(f, Cruise(SetStayTime, id, value)) == f[3 := 0x87][4 := id][5 := LowByte(value)][6 := Beside(value, f[6])]
    ensures Apply(f, Cruise(StartCruise, id, value)) == f[3 := 0x88][4 := id][5 := LowByte(value)]
  {
    NibbleBeside(value, f[6]);
    hide HighNibble, Low, High, LowByte, Beside;
  }

  /** A new frame: the start byte and the two places of the address, everything else zero. */
  lemma NewFrame(address: bv16)
    ensures Created(address) == [0xA5, 0, LowByte(address), 0, 0, 0, ((address >> 8) & 0x0F) as bv8, 0]
  {
    NewAddress(address);
    hide Low, High, LowByte;
  }

  lemma NewAddress(address: bv16)
    ensures Low(address) == LowByte(address) && High(address) & 0x0F == ((address >> 8) & 0x0F) as bv8
  {}

  /** The low eight bits of a value, and its next four beside the low half of byte 7 of the standard. */
  function LowByte(value: bv16): bv8 { (value & 0x00FF) as bv8 }

  function Beside(value: bv16, kept: bv8): bv8 { (((value >> 8) & 0x0F) as bv8 << 4) | (kept & 0x0F) }

  lemma NibbleBeside(value: bv16, kept: bv8)
    ensures Low(value) == LowByte(value) && HighNibble(High(value), kept) == Beside(value, kept)
  {}

  // ----- the finished frame -----

  /** The frame starts with A5, and its last byte is the sum of the others modulo 256. */
  predicate Summed(f: Frame) {
    && f[0] == 0xA5
    && AsInt(f[7]) == (AsInt(f[0]) + AsInt(f[1]) + AsInt(f[2]) + AsInt(f[3]) + AsInt(f[4]) + AsInt(f[5]) + AsInt(f[6])) % 256
  }

  lemma SumOfSeven(f: Frame)
    ensures Sum(f[..7]) == AsInt(f[0]) + AsInt(f[1]) + AsInt(f[2]) + AsInt(f[3]) + AsInt(f[4]) + AsInt(f[5]) + AsInt(f[6])
  {
    hide AsInt;
    assert f[..7][..6] == f[..6] && f[..6][..5] == f[..5] && f[..5][..4] == f[..4];
    assert f[..4][..3] == f[..3] && f[..3][..2] == f[..2] && f[..2][..1] == f[..1] && f[..1][..0] == [];
    assert Sum(f[..1]) == AsInt(f[0]);
    assert Sum(f[..2]) == Sum(f[..1]) + AsInt(f[1]);
    assert Sum(f[..3]) == Sum(f[..2]) + AsInt(f[2]);
    assert Sum(f[..4]) == Sum(f[..3]) + AsInt(f[3]);
    assert Sum(f[..5]) == Sum(f[..4]) + AsInt(f[4]);
    assert Sum(f[..6]) == Sum(f[..5]) + AsInt(f[5]);
    assert Sum(f[..7]) == Sum(f[..6]) + AsInt(f[6]);
  }

  lemma NibbleNumber(b: bv8)
    requires b < 16
    ensures NibbleInt(b) == b as int
  {}

  /** Whatever was built on a new frame: the second byte `ToHex` writes is 0F, the last is the sum of the
      others modulo 256, and the rest is as built. */
  lemma {:induction false} FinishedBytes(address: bv16, bs: seq<Build>)
    ensures var f := Built(Created(address), bs); var g := Finished(f);
            g[0] == 0xA5 && g[1] == 0x0F && g[2..7] == f[2..7] && Summed(g)
  {
    hide Finished, AsInt, Built;
    AddressUnchanged(address, bs);
    SecondByte(address, bs);
    BytesOfFinished(Built(Created(address), bs));
  }

  lemma BytesOfFinished(f: Frame)
    requires f[0] == 0xA5 && (f[1] == 0 || f[1] == 0x0F)
    ensures Finished(f)[0] == 0xA5 && Finished(f)[1] == 0x0F && Finished(f)[2..7] == f[2..7] && Summed(Finished(f))
  {
    CombinationOfNew(f);
    FinishedSound(f);
    SoundIsSummed(Finished(f));
    hide Combination, Sound, Summed, Checksum;
  }

  lemma CombinationOfNew(f: Frame)
    requires f[0] == 0xA5 && (f[1] == 0 || f[1] == 0x0F)
    ensures Combination(f) == 0x0F
  {}

  /** On any frame, one read from text included, the second byte keeps its high half, the version, and gets
      the sum of the three other halves of the first two bytes modulo 16 as its low half. */
  lemma SecondByteWritten(f: Frame)
    ensures Finished(f)[1] / 16 == f[1] / 16
    ensures Finished(f)[1] % 16 == (f[0] / 16 + f[0] % 16 + f[1] / 16) % 16
    ensures Finished(f)[0] == f[0] && Finished(f)[2..7] == f[2..7]
  {
    Halves(f);
    hide Combination, Checksum;
  }

  lemma Halves(f: Frame)
    ensures Combination(f) / 16 == f[1] / 16
    ensures Combination(f) % 16 == (f[0] / 16 + f[0] % 16 + f[1] / 16) % 16
  {}

  lemma SecondApplied(f: Frame, b: Build)
    requires f[0] == 0xA5 && (f[1] == 0 || f[1] == 0x0F)
    ensures Apply(f, b)[1] == 0 || Apply(f, b)[1] == 0x0F
  {
    CombinationOfNew(f);
    hide Combination, Checksum, With, Opposing, NotLens, OpposingLens, MoveCode, FiCode, CruiseCode, PresetCode, AuxCode,
         ScanCode, HighNibble, Low, High;
  }

  lemma {:induction false} SecondByte(address: bv16, bs: seq<Build>)
    ensures Built(Created(address), bs)[1] == 0 || Built(Created(address), bs)[1] == 0x0F
  {
    hide Apply;
    if bs != [] {
      SecondByte(address, bs[..|bs| - 1]);
      AddressUnchanged(address, bs[..|bs| - 1]);
      SecondApplied(Built(Created(address), bs[..|bs| - 1]), bs[|bs| - 1]);
    }
  }

  // ----- hexadecimal text -----

  function Digit(n: bv8): char
    requires n < 16
  {
    if n == 0 then '0' else if n == 1 then '1' else if n == 2 then '2' else if n == 3 then '3'
    else if n == 4 then '4' else if n == 5 then '5' else if n == 6 then '6' else if n == 7 then '7'
    else if n == 8 then '8' else if n == 9 then '9' else if n == 10 then 'A' else if n == 11 then 'B'
    else if n == 12 then 'C' else if n == 13 then 'D' else if n == 14 then 'E' else 'F'
  }

  /** The digit's value, upper or lower case. */
  function Value(c: char): (v: Option<bv8>)
    ensures v.Some? ==> v.value < 16
  {
    if c == '0' then Some(0) else if c == '1' then Some(1) else if c == '2' then Some(2)
    else if c == '3' then Some(3) else if c == '4' then Some(4) else if c == '5' then Some(5)
    else if c == '6' then Some(6) else if c == '7' then Some(7) else if c == '8' then Some(8)
    else if c == '9' then Some(9) else if c == 'A' || c == 'a' then Some(10)
    else if c == 'B' || c == 'b' then Some(11) else if c == 'C' || c == 'c' then Some(12)
    else if c == 'D' || c == 'd' then Some(13) else if c == 'E' || c == 'e' then Some(14)
    else if c == 'F' || c == 'f' then Some(15) else None
  }

  lemma ValueOfDigit(n: bv8)
    requires n < 16
    ensures Value(Digit(n)) == Some(n)
  {}

  /** The digits written, and the ones read: upper or lower case. */
  lemma DigitTable(n: bv8, c: char)
    requires n < 16
    ensures Digit(n) == "0123456789ABCDEF"[n as int]
    ensures Value(c) == Some(n) <==> c == "0123456789ABCDEF"[n as int] || c == "0123456789abcdef"[n as int]
  {
  }

  function ByteText(b: bv8): (s: string)
    ensures |s| == 2
  {
    [Digit(b >> 4), Digit(b & 0x0F)]
  }

  function ByteValue(hi: char, lo: char): Option<bv8> {
    match (Value(hi), Value(lo))
    case (Some(h), Some(l)) => Some((h << 4) | l)
    case _ => None
  }

  lemma ByteBack(b: bv8)
    ensures ByteValue(ByteText(b)[0], ByteText(b)[1]) == Some(b)
  {
    ValueOfDigit(b >> 4);
    ValueOfDigit(b & 0x0F);
    hide Value, Digit;
    assert ((b >> 4) << 4) | (b & 0x0F) == b;
  }

  function FrameText(bytes: seq<bv8>): (s: string)
    ensures |s| == 2 * |bytes|
  {
    if bytes == [] then "" else FrameText(bytes[..|bytes| - 1]) + ByteText(bytes[|bytes| - 1])
  }

  lemma {:induction false} FrameTextAt(bytes: seq<bv8>, i: nat)
    requires i < |bytes|
    ensures FrameText(bytes)[2 * i..2 * i + 2] == ByteText(bytes[i])
  {
    hide ByteText;
    var n := |bytes| - 1;
    var front, last := FrameText(bytes[..n]), ByteText(bytes[n]);
    assert FrameText(bytes) == front + last && |front| == 2 * n;
    if i < n {
      FrameTextAt(bytes[..n], i);
      assert (front + last)[2 * i..2 * i + 2] == front[2 * i..2 * i + 2];
    } else {
      assert (front + last)[2 * n..2 * n + 2] == last;
    }
  }

  /** The first `n` bytes of a text, when all their digits are hexadecimal. */
  function ReadBytes(hex: string, n: nat): (r: Option<seq<bv8>>)
    requires 2 * n <= |hex|
    ensures r.Some? ==> |r.value| == n
  {
    if n == 0 then Some([])
    else match (ReadBytes(hex, n - 1), ByteValue(hex[2 * n - 2], hex[2 * n - 1]))
      case (Some(bytes), Some(b)) => Some(bytes + [b])
      case _ => None
  }

  lemma ReadBytesStep(hex: string, n: nat, front: seq<bv8>, b: bv8)
    requires 0 < n && 2 * n <= |hex| && |front| == n - 1
    ensures ReadBytes(hex, n) == Some(front + [b]) <==>
              ReadBytes(hex, n - 1) == Some(front) && ByteValue(hex[2 * n - 2], hex[2 * n - 1]) == Some(b)
  {
    hide ByteValue;
    var r := ReadBytes(hex, n - 1);
    var v := ByteValue(hex[2 * n - 2], hex[2 * n - 1]);
    if r.Some? && v.Some? {
      var both := r.value + [v.value];
      assert both[..n - 1] == r.value && both[n - 1] == v.value;
      assert (front + [b])[..n - 1] == front && (front + [b])[n - 1] == b;
    }
  }

  lemma {:induction false} ReadBytesAt(hex: string, n: nat, bytes: seq<bv8>)
    requires 2 * n <= |hex| && |bytes| == n
    ensures ReadBytes(hex, n) == Some(bytes) <==>
              forall i :: 0 <= i < n ==> ByteValue(hex[2 * i], hex[2 * i + 1]) == Some(bytes[i])
  {
    hide ByteValue;
    if n > 0 {
      var front := bytes[..n - 1];
      ReadBytesAt(hex, n - 1, front);
      assert bytes == front + [bytes[n - 1]];
      hide ReadBytes;
      ReadBytesStep(hex, n, front, bytes[n - 1]);
      assert forall i :: 0 <= i < n - 1 ==> front[i] == bytes[i];
    }
  }

  predicate Sound(f: Frame) { f[0] == 0xA5 && Checksum(f) == f[7] }

  function FromHex(hex: string): Option<Frame> {
    if |hex| != 16 then None
    else match ReadBytes(hex, 8)
      case None => None
      case Some(f) => if Sound(f) then Some(f) else None
  }

  /** The text is accepted, and gives `f`, exactly when its digit pairs have the values of `f`'s bytes,
      `f` starts with A5 and its last byte is the sum of the others. */
  lemma Accepted(hex: string, f: Frame)
    ensures FromHex(hex) == Some(f) <==>
              |hex| == 16 && Summed(f) && forall i :: 0 <= i < 8 ==> ByteValue(hex[2 * i], hex[2 * i + 1]) == Some(f[i])
  {
    SoundIsSummed(f);
    hide ByteValue, Sound, Summed;
    if |hex| == 16 { ReadBytesAt(hex, 8, f); }
  }

  lemma SoundIsSummed(f: Frame)
    ensures Sound(f) <==> Summed(f)
  {
    SumOfSeven(f);
    SameByte(Checksum(f), f[7]);
    hide AsInt, Sum;
  }

  lemma TextByteBack(f: Frame, i: nat)
    requires i < 8
    ensures ByteValue(FrameText(f)[2 * i], FrameText(f)[2 * i + 1]) == Some(f[i])
  {
    hide ByteValue, ByteText;
    FrameTextAt(f, i);
    ByteBack(f[i]);
    var text := FrameText(f);
    assert text[2 * i] == text[2 * i..2 * i + 2][0] && text[2 * i + 1] == text[2 * i..2 * i + 2][1];
  }

  lemma FinishedSound(f: Frame)
    requires f[0] == 0xA5
    ensures Sound(Finished(f))
  {
    hide Combination, Sum;
    var g: Frame := f[1 := Combination(f)];
    assert g[7 := Checksum(g)][..7] == g[..7];
  }

  /** Whatever was built, the text comes back as the frame `ToHex` left behind. */
  lemma {:induction false} HexRoundTrip(address: bv16, bs: seq<Build>)
    ensures var f := Finished(Built(Created(address), bs)); FromHex(FrameText(f)) == Some(f)
  {
    AddressUnchanged(address, bs);
    FinishedSound(Built(Created(address), bs));
    SoundRoundTrip(Finished(Built(Created(address), bs)));
  }

  lemma SoundRoundTrip(f: Frame)
    requires Sound(f)
    ensures FromHex(FrameText(f)) == Some(f)
  {
    SoundIsSummed(f);
    hide ByteValue, Sound, FromHex, Summed;
    forall i | 0 <= i < 8 ensures ByteValue(FrameText(f)[2 * i], FrameText(f)[2 * i + 1]) == Some(f[i]) {
      TextByteBack(f, i);
    }
    Accepted(FrameText(f), f);
  }

  lemma {:induction false} SumChange(bytes: seq<bv8>, i: nat, y: bv8)
    requires i < |bytes|
    ensures Sum(bytes[i := y]) == Sum(bytes) - AsInt(bytes[i]) + AsInt(y)
  {
    hide AsInt;
    var n := |bytes| - 1;
    if i == n {
      assert bytes[i := y][..n] == bytes[..n];
    } else {
      SumChange(bytes[..n], i, y);
      assert bytes[i := y][..n] == bytes[..n][i := y];
    }
  }

  lemma OneByteSum(f: Frame, i: nat, b: bv8)
    requires Sound(f) && i < 8
    ensures Sound(f[i := b]) <==> b == f[i]
  {
    hide Sum, AsInt, AsByte;
    SameByte(b, f[i]);
    SameByte(Checksum(f), Checksum(f[i := b]));
    if i == 7 {
      assert f[7 := b][..7] == f[..7];
    } else {
      SumChange(f[..7], i, b);
      assert f[i := b][..7] == f[..7][i := b];
    }
  }

  /** Writing any two characters over the digits of one byte: the text is accepted if and only if they
      still spell that byte. */
  lemma OneByteChanged(f: Frame, i: nat, hi: char, lo: char)
    requires Sound(f) && i < 8
    ensures var text := FrameText(f)[2 * i := hi][2 * i + 1 := lo];
            FromHex(text).Some? <==> ByteValue(hi, lo) == Some(f[i])
  {
    SoundIsSummed(f);
    hide ByteValue, Sound, FromHex, Summed;
    var text := FrameText(f)[2 * i := hi][2 * i + 1 := lo];
    forall j | 0 <= j < 8 && j != i ensures ByteValue(text[2 * j], text[2 * j + 1]) == Some(f[j]) {
      TextByteBack(f, j);
    }
    if FromHex(text).Some? {
      var g := FromHex(text).value;
      Accepted(text, g);
      assert g == f[i := g[i]];
      SoundIsSummed(g);
      OneByteSum(f, i, g[i]);
    } else if ByteValue(hi, lo) == Some(f[i]) {
      Accepted(text, f);
    }
  }

  /** The sum does not see an exchange of two bytes between the first and the last. */
  lemma ExchangeUnseen(f: Frame, i: nat, j: nat)
    requires Sound(f) && 0 < i < j < 7
    ensures FromHex(FrameText(f[i := f[j]][j := f[i]])) == Some(f[i := f[j]][j := f[i]])
  {
    ExchangeSound(f, i, j);
    hide FromHex, Sound;
    SoundRoundTrip(f[i := f[j]][j := f[i]]);
  }

  lemma ExchangeSound(f: Frame, i: nat, j: nat)
    requires Sound(f) && 0 < i < j < 7
    ensures Sound(f[i := f[j]][j := f[i]])
  {
    hide Sum, AsInt, AsByte;
    var e: Frame := f[i := f[j]];
    var g: Frame := e[j := f[i]];
    SumChange(f[..7], i, f[j]);
    SumChange(e[..7], j, f[i]);
    assert e[..7] == f[..7][i := f[j]] && g[..7] == e[..7][j := f[i]];
    SameByte(Checksum(f), Checksum(g));
  }

  // ----- the object -----

  class PtzCommand {
    const bytes: array<bv8>

    ghost predicate Valid()
      reads this
    {
      bytes.Length == 8
    }

    ghost function Contents(): Frame
      requires Valid()
      reads this, bytes
    {
      bytes[..]
    }

    constructor (address: bv16 := 0)
      ensures Valid() && fresh(bytes) && Contents() == Created(address)
    {
      bytes := new bv8[8];
      new;
      bytes[0], bytes[1], bytes[2], bytes[3] := 0xA5, 0, Low(address), 0;
      bytes[4], bytes[5], bytes[6], bytes[7] := 0, 0, High(address) & 0x0F, 0;
      assert bytes[..] == Created(address) by { hide Low, High; }
    }

    method MoveTo(t: MoveType, speed: bv8)
      requires Valid()
      modifies bytes
      ensures Contents() == Apply(old(Contents()), Move(t, speed))
    {
      hide With, Opposing, MoveCode, HighNibble;
      var cmd := With(bytes[3], MoveCode(t));
      if cmd > 0x2A { return; }
      if Opposing(cmd) { return; }
      bytes[3] := cmd;
      if t == Left || t == Right {
        bytes[4] := speed;
      } else if t == Up || t == Down {
        bytes[5] := speed;
      } else {
        bytes[6] := HighNibble(speed, bytes[6]);
      }
    }

    method LensTo(t: FiType, speed: bv8)
      requires Valid()
      modifies bytes
      ensures Contents() == Apply(old(Contents()), Fi(t, speed))
    {
      hide With, FiCode, NotLens, OpposingLens;
      if NotLens(bytes[3]) { return; }
      ghost var f := Contents();
      var cmd := With(bytes[3], FiCode(t));
      if OpposingLens(cmd) { return; }
      bytes[3] := cmd;
      assert Contents() == f[3 := cmd];
      if t == FocusIn || t == FocusOut {
        bytes[4] := speed;
        assert Contents() == f[3 := cmd][4 := speed];
      } else if t == IrisIn || t == IrisOut {
        bytes[5] := speed;
        assert Contents() == f[3 := cmd][5 := speed];
      }
    }

    method PresetPosition(t: PresetType, id: bv8)
      requires Valid()
      modifies bytes
      ensures Contents() == Apply(old(Contents()), Preset(t, id))
    {
      hide PresetCode;
      bytes[3] := PresetCode(t);
      bytes[5] := id;
    }

    method CruiseTrack(t: CruiseType, id: bv8, value: bv16)
      requires Valid()
      modifies bytes
      ensures Contents() == Apply(old(Contents()), Cruise(t, id, value))
    {
      hide CruiseCode, Low, High, HighNibble;
      bytes[3] := CruiseCode(t);
      bytes[4] := id;
      bytes[5] := Low(value);
      if t == SetSpeed || t == SetStayTime {
        bytes[6] := HighNibble(High(value), bytes[6]);
      }
    }

    method ScanGroup(group: bv8, sub: ScanSubType)
      requires Valid()
      modifies bytes
      ensures Contents() == Apply(old(Contents()), Scan(group, sub))
    {
      hide ScanCode;
      bytes[3], bytes[4], bytes[5] := SCAN_START, group, ScanCode(sub);
    }

    method ScanGroupSpeed(group: bv8, value: bv16)
      requires Valid()
      modifies bytes
      ensures Contents() == Apply(old(Contents()), ScanSpeed(group, value))
    {
      hide Low, High, HighNibble;
      bytes[3], bytes[4], bytes[5] := SCAN_SPEED, group, Low(value);
      bytes[6] := HighNibble(High(value), bytes[6]);
    }

    method Auxiliary(t: AuxType, id: bv8)
      requires Valid()
      modifies bytes
      ensures Contents() == Apply(old(Contents()), Aux(t, id))
    {
      hide AuxCode;
      bytes[3] := AuxCode(t);
      bytes[4] := id;
    }

    /** Writes the two check bytes and prints the frame. */
    method ToHex() returns (text: string)
      requires Valid()
      modifies bytes
      ensures Contents() == Finished(old(Contents())) && text == FrameText(Contents())
    {
      hide AsByte, Combination;
      bytes[1] := Combination(bytes[..]);
      bytes[7] := Checksum(bytes[..]);
      assert Contents() == Finished(old(Contents()));
      text := "";
      for i := 0 to 8
        invariant text == FrameText(bytes[..i])
        invariant Contents() == Finished(old(Contents()))
      {
        text := text + ByteText(bytes[i]);
        assert bytes[..i + 1][..i] == bytes[..i];
      }
      assert bytes[..8] == bytes[..];
    }

    static method ReadHex(hex: string) returns (frame: Option<PtzCommand>)
      ensures frame.Some? <==> FromHex(hex).Some?
      ensures frame.Some? ==> fresh(frame.value) && frame.value.Valid() && frame.value.Contents() == FromHex(hex).value
    {
      hide ByteValue, Sum;
      if |hex| != 16 { return None; }
      var command := new PtzCommand();
      for i := 0 to 8
        invariant command.Valid() && fresh(command) && fresh(command.bytes)
        invariant ReadBytes(hex, i) == Some(command.bytes[..i])
      {
        var b := ByteValue(hex[2 * i], hex[2 * i + 1]);
        if b.None? {
          NoBytes(hex, i + 1, 8);
          return None;
        }
        command.bytes[i] := b.value;
        assert command.bytes[..i + 1] == command.bytes[..i] + [b.value];
      }
      assert command.bytes[..8] == command.bytes[..];
      if command.bytes[0] != 0xA5 { return None; }
      if Checksum(command.bytes[..]) != command.bytes[7] { return None; }
      frame := Some(command);
    }
  }

  /** One bad digit spoils every longer prefix. */
  lemma {:induction false} NoBytes(hex: string, n: nat, m: nat)
    requires n <= m && 2 * m <= |hex| && ReadBytes(hex, n).None?
    ensures ReadBytes(hex, m).None?
  {
    if n < m { NoBytes(hex, n, m - 1); }
  }
}
