/**
 * The SDS011 frame decoder. A frame is ten bytes:
 *
 *   0xAA, command id, six payload bytes (2..7), checksum, 0xAB
 *
 * `HandleReading` decodes a particulate reading (command 0xC0), `HandleConfig` a
 * config acknowledgement (command 0xC5, sub-command in byte 2), and `Handle`
 * dispatches on the command id. Each writes the decoded fields into the caller's
 * `SensorState`. Neither the markers nor the checksum are checked.
 *
 * The decoding itself is given by pure functions (`DecodeReading`, `DecodeConfig`,
 * `Decode`, `Apply`); the handler methods are proved to write exactly what they say.
 */
module MessageHandlerUtils {
  import opened Wrappers
  import opened Bytes
  import opened Decimal
  import opened Firmware
  import opened SensorState

  const FRAME_LENGTH: nat := 10
  const FRAME_HEAD: byte := 0xAA
  const FRAME_TAIL: byte := 0xAB

  const READING_COMMAND: byte := 0xC0
  const CONFIG_COMMAND: byte := 0xC5

  const MODE_SUB_COMMAND: byte := 0x02
  const SLEEP_SUB_COMMAND: byte := 0x06
  const FIRMWARE_SUB_COMMAND: byte := 0x07
  const WORKING_PERIOD_SUB_COMMAND: byte := 0x08

  const CONFIG_SUB_COMMANDS: set<byte> :=
    {MODE_SUB_COMMAND, SLEEP_SUB_COMMAND, FIRMWARE_SUB_COMMAND, WORKING_PERIOD_SUB_COMMAND}

  /** What a handler throws. */
  datatype Error =
    | UnknownCommand(command: byte)
    | UnknownSubCommand(subCommand: byte)

  /** What one frame reports, before it is written into the state. */
  datatype Report =
    | Reading(pm2p5Tenths: u16, pm10Tenths: u16)
    | ModeAck(mode: Mode)
    | SleepAck(isSleeping: bool)
    | FirmwareAck(year: byte, month: byte, day: byte)
    | WorkingPeriodAck(minutes: byte)

  // ---------------------------------------------------------------------------
  // Field decoders

  /** A raw reading in tenths of a microgram per cubic metre, as a concentration. */
  function Concentration(tenths: u16): (c: real)
    ensures 0.0 <= c <= 6553.5
  {
    tenths as real / 10.0
  }

  /** Mode byte: zero is active reporting, anything else is query mode. */
  function ModeOf(b: byte): Mode
  {
    if b == 0 then Active else Query
  }

  /** Sleep byte: zero means the sensor sleeps (the opposite sense to the mode byte). */
  function SleepOf(b: byte): bool
  {
    b == 0
  }

  /** The byte the sensor sends for a mode. */
  function ModeByte(m: Mode): byte
  {
    match m
    case Active => 0
    case Query => 1
  }

  /** The byte the sensor sends for a sleep state. */
  function SleepByte(isSleeping: bool): byte
  {
    if isSleeping then 0 else 1
  }

  lemma ModeOfModeByte(m: Mode)
    ensures ModeOf(ModeByte(m)) == m
  {
  }

  lemma SleepOfSleepByte(isSleeping: bool)
    ensures SleepOf(SleepByte(isSleeping)) == isSleeping
  {
  }

  /** The mode and sleep conventions are inverted: the same byte reads as "active" exactly when it reads as "sleeping". */
  lemma SleepIsInverseOfModeConvention(b: byte)
    ensures SleepOf(b) <==> ModeOf(b) == Active
    ensures !SleepOf(b) <==> ModeOf(b) == Query
  {
  }

  // ---------------------------------------------------------------------------
  // Frame decoders

  /** Bytes 2-3 and 4-5, each a little-endian u16 in tenths. The command id is not re-checked. */
  function DecodeReading(frame: seq<byte>): (r: Report)
    requires |frame| == FRAME_LENGTH
    ensures r.Reading?
  {
    Reading(U16le(frame[2], frame[3]), U16le(frame[4], frame[5]))
  }

  /** Branches on the sub-command in byte 2; mode, sleep and working period read byte 4, firmware bytes 3-5. */
  function DecodeConfig(frame: seq<byte>): (r: Result<Report, Error>)
    requires |frame| == FRAME_LENGTH
    ensures r.Failure? <==> frame[2] !in CONFIG_SUB_COMMANDS
    ensures r.Failure? ==> r.error == UnknownSubCommand(frame[2])
    ensures r.Success? ==> !r.value.Reading?
  {
    var subCommand := frame[2];
    if subCommand == MODE_SUB_COMMAND then Success(ModeAck(ModeOf(frame[4])))
    else if subCommand == SLEEP_SUB_COMMAND then Success(SleepAck(SleepOf(frame[4])))
    else if subCommand == FIRMWARE_SUB_COMMAND then Success(FirmwareAck(frame[3], frame[4], frame[5]))
    else if subCommand == WORKING_PERIOD_SUB_COMMAND then Success(WorkingPeriodAck(frame[4]))
    else Failure(UnknownSubCommand(subCommand))
  }

  /** Dispatches on the command id in byte 1. */
  function Decode(frame: seq<byte>): (r: Result<Report, Error>)
    requires |frame| == FRAME_LENGTH
    ensures frame[1] == READING_COMMAND ==> r == Success(DecodeReading(frame))
    ensures frame[1] == CONFIG_COMMAND ==> r == DecodeConfig(frame)
    ensures frame[1] !in {READING_COMMAND, CONFIG_COMMAND} ==> r == Failure(UnknownCommand(frame[1]))
  {
    var command := frame[1];
    if command == READING_COMMAND then Success(DecodeReading(frame))
    else if command == CONFIG_COMMAND then DecodeConfig(frame)
    else Failure(UnknownCommand(command))
  }

  // ---------------------------------------------------------------------------
  // Effect of a report on the state

  /** The group of state fields one report writes. */
  datatype FieldGroup = Concentrations | ModeField | SleepField | FirmwareField | WorkingPeriodField

  function GroupOf(rep: Report): FieldGroup
  {
    match rep
    case Reading(_, _) => Concentrations
    case ModeAck(_) => ModeField
    case SleepAck(_) => SleepField
    case FirmwareAck(_, _, _) => FirmwareField
    case WorkingPeriodAck(_) => WorkingPeriodField
  }

  /** `s` and `t` agree on every field outside group `g`. */
  predicate AgreeOutside(s: Snapshot, t: Snapshot, g: FieldGroup)
  {
    && (g != Concentrations ==> s.pm2p5 == t.pm2p5 && s.pm10 == t.pm10)
    && (g != ModeField ==> s.mode == t.mode)
    && (g != SleepField ==> s.isSleeping == t.isSleeping)
    && (g != FirmwareField ==> s.firmware == t.firmware)
    && (g != WorkingPeriodField ==> s.workingPeriod == t.workingPeriod)
  }

  /** Every field of group `g` is set in `t`. */
  predicate GroupSet(t: Snapshot, g: FieldGroup)
  {
    match g
    case Concentrations => t.pm2p5.Some? && t.pm10.Some?
    case ModeField => t.mode.Some?
    case SleepField => t.isSleeping.Some?
    case FirmwareField => t.firmware.Some?
    case WorkingPeriodField => t.workingPeriod.Some?
  }

  /** The state after writing `rep`'s fields into `s`; every other field keeps its value. */
  function Apply(s: Snapshot, rep: Report): (t: Snapshot)
    ensures GroupSet(t, GroupOf(rep)) && AgreeOutside(s, t, GroupOf(rep))
  {
    match rep
    case Reading(pm2p5, pm10) => s.(pm2p5 := Some(Concentration(pm2p5)), pm10 := Some(Concentration(pm10)))
    case ModeAck(m) => s.(mode := Some(m))
    case SleepAck(z) => s.(isSleeping := Some(z))
    case FirmwareAck(y, m, d) => s.(firmware := Some(FirmwareString(y, m, d)))
    case WorkingPeriodAck(p) => s.(workingPeriod := Some(p))
  }

  /** The state a decode leaves: the report applied, or the state untouched with the error. */
  function Update(s: Snapshot, decoded: Result<Report, Error>): (r: Result<Snapshot, Error>)
    ensures r.Failure? <==> decoded.Failure?
    ensures r.Failure? ==> r.error == decoded.error
    ensures r.Success? ==> GroupSet(r.value, GroupOf(decoded.value)) && AgreeOutside(s, r.value, GroupOf(decoded.value))
  {
    match decoded
    case Success(rep) => Success(Apply(s, rep))
    case Failure(e) => Failure(e)
  }

  /** What a handler call returned and left behind, in the form `Update` gives it. */
  function Observed(r: Outcome<Error>, s: Snapshot): Result<Snapshot, Error>
  {
    match r
    case Pass => Success(s)
    case Fail(e) => Failure(e)
  }

  // ---------------------------------------------------------------------------
  // The handlers

  /** Writes the two concentrations of a reading frame into `state`. */
  method HandleReading(frame: seq<byte>, state: SensorState)
    requires |frame| == FRAME_LENGTH
    modifies state
    ensures state.View() == old(state.View()).(
      pm2p5 := Some(Concentration(U16le(frame[2], frame[3]))),
      pm10 := Some(Concentration(U16le(frame[4], frame[5]))))
    ensures state.View() == Apply(old(state.View()), DecodeReading(frame))
  {
    state.pm2p5 := Some(U16le(frame[2], frame[3]) as real / 10.0);
    state.pm10 := Some(U16le(frame[4], frame[5]) as real / 10.0);
  }

  /** Writes the one field a config-ack frame reports, or fails on an unknown sub-command. */
  method HandleConfig(frame: seq<byte>, state: SensorState) returns (r: Outcome<Error>)
    requires |frame| == FRAME_LENGTH
    modifies state
    ensures frame[2] == MODE_SUB_COMMAND ==>
      r == Pass && state.View() == old(state.View()).(mode := Some(ModeOf(frame[4])))
    ensures frame[2] == SLEEP_SUB_COMMAND ==>
      r == Pass && state.View() == old(state.View()).(isSleeping := Some(SleepOf(frame[4])))
    ensures frame[2] == FIRMWARE_SUB_COMMAND ==>
      r == Pass && state.View() == old(state.View()).(firmware := Some(FirmwareString(frame[3], frame[4], frame[5])))
    ensures frame[2] == WORKING_PERIOD_SUB_COMMAND ==>
      r == Pass && state.View() == old(state.View()).(workingPeriod := Some(frame[4]))
    ensures frame[2] !in CONFIG_SUB_COMMANDS ==>
      r == Fail(UnknownSubCommand(frame[2])) && state.View() == old(state.View())
    ensures r.Fail? ==> state.View() == old(state.View())
    ensures Observed(r, state.View()) == Update(old(state.View()), DecodeConfig(frame))
  {
    var subCommand := frame[2];
    if subCommand == MODE_SUB_COMMAND {
      state.mode := Some(if frame[4] == 0 then Active else Query);
      r := Pass;
    } else if subCommand == SLEEP_SUB_COMMAND {
      state.isSleeping := Some(frame[4] == 0);
      r := Pass;
    } else if subCommand == FIRMWARE_SUB_COMMAND {
      state.firmware := Some(FirmwareString(frame[3], frame[4], frame[5]));
      r := Pass;
    } else if subCommand == WORKING_PERIOD_SUB_COMMAND {
      state.workingPeriod := Some(frame[4]);
      r := Pass;
    } else {
      r := Fail(UnknownSubCommand(subCommand));
    }
  }

  /** Routes a frame to the reading or the config-ack handler by its command id, or fails. */
  method Handle(frame: seq<byte>, state: SensorState) returns (r: Outcome<Error>)
    requires |frame| == FRAME_LENGTH
    modifies state
    ensures frame[1] == READING_COMMAND ==>
      r == Pass && state.View() == Apply(old(state.View()), DecodeReading(frame))
    ensures frame[1] == CONFIG_COMMAND ==>
      Observed(r, state.View()) == Update(old(state.View()), DecodeConfig(frame))
    ensures frame[1] !in {READING_COMMAND, CONFIG_COMMAND} ==>
      r == Fail(UnknownCommand(frame[1])) && state.View() == old(state.View())
    ensures r.Fail? ==> state.View() == old(state.View())
    ensures Observed(r, state.View()) == Update(old(state.View()), Decode(frame))
  {
    var command := frame[1];
    if command == READING_COMMAND {
      HandleReading(frame, state);
      r := Pass;
    } else if command == CONFIG_COMMAND {
      r := HandleConfig(frame, state);
    } else {
      r := Fail(UnknownCommand(command));
    }
  }

  // ---------------------------------------------------------------------------
  // Properties of the decoder

  /** A canonical frame carrying the given command and payload bytes 2-5; the rest are zero. */
  function FrameOf(command: byte, b2: byte, b3: byte, b4: byte, b5: byte): seq<byte>
  {
    [FRAME_HEAD, command, b2, b3, b4, b5, 0, 0, 0, FRAME_TAIL]
  }

  /** A canonical frame that decodes to `rep`: bytes 6-7 and the checksum are zero. */
  function Encode(rep: Report): (frame: seq<byte>)
    ensures |frame| == FRAME_LENGTH && frame[0] == FRAME_HEAD && frame[9] == FRAME_TAIL
  {
    match rep
    case Reading(a, b) => FrameOf(READING_COMMAND, LowByte(a), HighByte(a), LowByte(b), HighByte(b))
    case ModeAck(m) => FrameOf(CONFIG_COMMAND, MODE_SUB_COMMAND, 0, ModeByte(m), 0)
    case SleepAck(z) => FrameOf(CONFIG_COMMAND, SLEEP_SUB_COMMAND, 0, SleepByte(z), 0)
    case FirmwareAck(y, m, d) => FrameOf(CONFIG_COMMAND, FIRMWARE_SUB_COMMAND, y, m, d)
    case WorkingPeriodAck(p) => FrameOf(CONFIG_COMMAND, WORKING_PERIOD_SUB_COMMAND, 0, p, 0)
  }

  /** Every report survives the wire: decoding its frame gives it back. */
  lemma DecodeEncode(rep: Report)
    ensures Decode(Encode(rep)) == Success(rep)
  {
    match rep
    case Reading(a, b) =>
      U16leOfBytes(a);
      U16leOfBytes(b);
    case _ =>
  }

  /** A reading frame re-encoded from its report has the same command and payload bytes 2-5. */
  lemma EncodeDecodeReading(frame: seq<byte>)
    requires |frame| == FRAME_LENGTH && frame[1] == READING_COMMAND
    ensures Encode(DecodeReading(frame))[1..6] == frame[1..6]
  {
    var g := Encode(DecodeReading(frame));
    assert g[2] == frame[2] && g[3] == frame[3] && g[4] == frame[4] && g[5] == frame[5];
  }

  /**
   * A frame that decodes is re-encoded with the same command id and sub-command byte,
   * and the re-encoded frame decodes to the same report.
   */
  lemma EncodeDecode(frame: seq<byte>)
    requires |frame| == FRAME_LENGTH && Decode(frame).Success?
    ensures Encode(Decode(frame).value)[1] == frame[1]
    ensures frame[1] == CONFIG_COMMAND ==> Encode(Decode(frame).value)[2] == frame[2]
    ensures Decode(Encode(Decode(frame).value)) == Decode(frame)
  {
    DecodeEncode(Decode(frame).value);
  }

  /** Decoding reads bytes 1-5 only: markers, bytes 6-7 and the checksum are ignored. */
  lemma DecodeReadsOnlyBytesOneToFive(f: seq<byte>, g: seq<byte>)
    requires |f| == FRAME_LENGTH && |g| == FRAME_LENGTH
    requires forall k :: 1 <= k <= 5 ==> f[k] == g[k]
    ensures Decode(f) == Decode(g)
  {
    assert f[1] == g[1] && f[2] == g[2] && f[3] == g[3] && f[4] == g[4] && f[5] == g[5];
  }

  /** Outside a firmware ack, byte 3 of a config-ack frame is ignored. */
  lemma ConfigIgnoresByteThree(f: seq<byte>, g: seq<byte>)
    requires |f| == FRAME_LENGTH && |g| == FRAME_LENGTH
    requires forall k :: 0 <= k < FRAME_LENGTH && k != 3 ==> f[k] == g[k]
    requires f[2] != FIRMWARE_SUB_COMMAND
    ensures DecodeConfig(f) == DecodeConfig(g)
  {
    assert f[2] == g[2] && f[4] == g[4];
  }

  /** A reading frame is decoded to the two little-endian values over ten. */
  lemma ReadingConcentrations(s: Snapshot, frame: seq<byte>)
    requires |frame| == FRAME_LENGTH
    ensures Apply(s, DecodeReading(frame)).pm2p5 == Some((frame[2] as int + 256 * frame[3] as int) as real / 10.0)
    ensures Apply(s, DecodeReading(frame)).pm10 == Some((frame[4] as int + 256 * frame[5] as int) as real / 10.0)
  {
  }

  /** `Handle` on a reading frame writes what `HandleReading` writes. */
  lemma HandleAgreesWithHandleReading(s: Snapshot, frame: seq<byte>)
    requires |frame| == FRAME_LENGTH && frame[1] == READING_COMMAND
    ensures Update(s, Decode(frame)) == Success(Apply(s, DecodeReading(frame)))
  {
  }

  /** `Handle` on a config-ack frame writes and fails exactly as `HandleConfig` does. */
  lemma HandleAgreesWithHandleConfig(s: Snapshot, frame: seq<byte>)
    requires |frame| == FRAME_LENGTH && frame[1] == CONFIG_COMMAND
    ensures Update(s, Decode(frame)) == Update(s, DecodeConfig(frame))
  {
  }

  /** Reports that write different field groups can be applied in either order. */
  lemma ApplyCommutes(s: Snapshot, a: Report, b: Report)
    requires GroupOf(a) != GroupOf(b)
    ensures Apply(Apply(s, a), b) == Apply(Apply(s, b), a)
  {
  }

  /** A later report of the same group overwrites an earlier one completely. */
  lemma ApplyOverwrites(s: Snapshot, a: Report, b: Report)
    requires GroupOf(a) == GroupOf(b)
    ensures Apply(Apply(s, a), b) == Apply(s, b)
  {
  }

  /** Decoding the same frame twice leaves the state decoding it once leaves. */
  lemma UpdateIdempotent(s: Snapshot, frame: seq<byte>)
    requires |frame| == FRAME_LENGTH
    ensures Update(s, Decode(frame)).Success? ==>
      Update(Update(s, Decode(frame)).value, Decode(frame)) == Update(s, Decode(frame))
  {
    if Decode(frame).Success? {
      ApplyOverwrites(s, Decode(frame).value, Decode(frame).value);
    }
  }

  // ---------------------------------------------------------------------------
  // The frames of the test suite, each decoded into a fresh state

  const READING_FRAME: seq<byte> := [0xAA, 0xC0, 0x4B, 0x00, 0x51, 0x00, 0xE9, 0x77, 0xFC, 0xAB]
  const MODE_QUERY_FRAME: seq<byte> := [0xAA, 0xC5, 0x02, 0x00, 0x01, 0x00, 0x00, 0x00, 0x00, 0xAB]
  const MODE_ACTIVE_FRAME: seq<byte> := [0xAA, 0xC5, 0x02, 0x00, 0x00, 0x00, 0x00, 0x00, 0x00, 0xAB]
  const SLEEPING_FRAME: seq<byte> := [0xAA, 0xC5, 0x06, 0x00, 0x00, 0x00, 0x00, 0x00, 0x00, 0xAB]
  const AWAKE_FRAME: seq<byte> := [0xAA, 0xC5, 0x06, 0x00, 0x01, 0x00, 0x00, 0x00, 0x00, 0xAB]
  const FIRMWARE_FRAME: seq<byte> := [0xAA, 0xC5, 0x07, 0x10, 0x0B, 0x15, 0xE9, 0x77, 0x97, 0xAB]
  const PERIOD_ZERO_FRAME: seq<byte> := [0xAA, 0xC5, 0x08, 0x10, 0x00, 0x00, 0x00, 0x00, 0x00, 0xAB]
  const PERIOD_THIRTY_FRAME: seq<byte> := [0xAA, 0xC5, 0x08, 0x10, 0x1E, 0x00, 0x00, 0x00, 0x00, 0xAB]
  const UNKNOWN_SUB_COMMAND_FRAME: seq<byte> := [0xAA, 0xC5, 0x30, 0xFF, 0x00, 0x00, 0x00, 0x00, 0x00, 0xAB]
  const UNKNOWN_COMMAND_FRAME: seq<byte> := [0xAA, 0xF0, 0x30, 0xFF, 0x00, 0x00, 0x00, 0x00, 0x00, 0xAB]

  lemma ReadingFrameDecodes()
    ensures Apply(UNSET, DecodeReading(READING_FRAME)).pm2p5 == Some(7.5)
    ensures Apply(UNSET, DecodeReading(READING_FRAME)).pm10 == Some(8.1)
  {
    assert DecodeReading(READING_FRAME) == Reading(75, 81);
    assert Concentration(75) == 7.5 && Concentration(81) == 8.1;
  }

  lemma ModeFramesDecode()
    ensures Update(UNSET, DecodeConfig(MODE_QUERY_FRAME)) == Success(UNSET.(mode := Some(Query)))
    ensures Update(UNSET, DecodeConfig(MODE_ACTIVE_FRAME)) == Success(UNSET.(mode := Some(Active)))
  {
  }

  lemma SleepFramesDecode()
    ensures Update(UNSET, DecodeConfig(SLEEPING_FRAME)) == Success(UNSET.(isSleeping := Some(true)))
    ensures Update(UNSET, DecodeConfig(AWAKE_FRAME)) == Success(UNSET.(isSleeping := Some(false)))
  {
  }

  lemma FirmwareFrameDecodes()
    ensures Update(UNSET, DecodeConfig(FIRMWARE_FRAME)) == Success(UNSET.(firmware := Some("16-11-21")))
  {
    assert DecodeConfig(FIRMWARE_FRAME) == Success(FirmwareAck(16, 11, 21));
    assert Render(16) == "16" && Render(11) == "11" && Render(21) == "21" by {
      assert Render(1) == "1" && Render(2) == "2";
    }
    assert FirmwareString(16, 11, 21) == "16-11-21";
  }

  lemma WorkingPeriodFramesDecode()
    ensures Update(UNSET, DecodeConfig(PERIOD_ZERO_FRAME)) == Success(UNSET.(workingPeriod := Some(0)))
    ensures Update(UNSET, DecodeConfig(PERIOD_THIRTY_FRAME)) == Success(UNSET.(workingPeriod := Some(30)))
  {
  }

  lemma UnknownCodesFail()
    ensures Update(UNSET, DecodeConfig(UNKNOWN_SUB_COMMAND_FRAME)) == Failure(UnknownSubCommand(0x30))
    ensures Update(UNSET, Decode(UNKNOWN_COMMAND_FRAME)) == Failure(UnknownCommand(0xF0))
  {
    assert DecodeConfig(UNKNOWN_SUB_COMMAND_FRAME) == Failure(UnknownSubCommand(0x30));
    assert Decode(UNKNOWN_COMMAND_FRAME) == Failure(UnknownCommand(0xF0));
  }

  /**
   * The two reading cases of the test suite, each on a fresh state: `HandleReading`
   * called directly, and `Handle` dispatching the same frame.
   */
  method ReadingTests() returns (direct: Snapshot, dispatched: Snapshot, r: Outcome<Error>)
    ensures direct.pm2p5 == Some(7.5) && direct.pm10 == Some(8.1)
    ensures r == Pass && dispatched.pm2p5 == Some(7.5) && dispatched.pm10 == Some(8.1)
  {
    ReadingFrameDecodes();
    var state := new SensorState();
    HandleReading(READING_FRAME, state);
    direct := state.View();

    state := new SensorState();
    r := Handle(READING_FRAME, state);
    dispatched := state.View();
  }

  /**
   * The mode cases of the test suite, each on a fresh state; the second query case
   * is the one titled "generic handler", which also calls `HandleConfig`.
   */
  method ModeTests() returns (query: Option<Mode>, queryAgain: Option<Mode>, active: Option<Mode>)
    ensures query == Some(Query) && queryAgain == Some(Query) && active == Some(Active)
  {
    var state := new SensorState();
    var r := HandleConfig(MODE_QUERY_FRAME, state);
    query := state.mode;

    state := new SensorState();
    r := HandleConfig(MODE_QUERY_FRAME, state);
    queryAgain := state.mode;

    state := new SensorState();
    r := HandleConfig(MODE_ACTIVE_FRAME, state);
    active := state.mode;
  }

  /** The sleep cases of the test suite, each on a fresh state. */
  method SleepTests() returns (sleeping: Option<bool>, awake: Option<bool>)
    ensures sleeping == Some(true) && awake == Some(false)
  {
    var state := new SensorState();
    var r := HandleConfig(SLEEPING_FRAME, state);
    sleeping := state.isSleeping;

    state := new SensorState();
    r := HandleConfig(AWAKE_FRAME, state);
    awake := state.isSleeping;
  }

  /** The firmware and working-period cases of the test suite, each on a fresh state. */
  method FirmwareAndPeriodTests()
    returns (firmware: Option<string>, periodZero: Option<nat>, periodThirty: Option<nat>)
    ensures firmware == Some("16-11-21")
    ensures periodZero == Some(0) && periodThirty == Some(30)
  {
    FirmwareFrameDecodes();
    var state := new SensorState();
    var r := HandleConfig(FIRMWARE_FRAME, state);
    firmware := state.firmware;

    state := new SensorState();
    r := HandleConfig(PERIOD_ZERO_FRAME, state);
    periodZero := state.workingPeriod;

    state := new SensorState();
    r := HandleConfig(PERIOD_THIRTY_FRAME, state);
    periodThirty := state.workingPeriod;
  }

  /** The two error cases of the test suite: each call fails and its fresh state stays unset. */
  method UnknownCodeTests()
    returns (subCommandResult: Outcome<Error>, subCommandState: Snapshot,
             commandResult: Outcome<Error>, commandState: Snapshot)
    ensures subCommandResult.Fail? && subCommandState == UNSET
    ensures commandResult.Fail? && commandState == UNSET
  {
    var state := new SensorState();
    subCommandResult := HandleConfig(UNKNOWN_SUB_COMMAND_FRAME, state);
    subCommandState := state.View();

    state := new SensorState();
    commandResult := Handle(UNKNOWN_COMMAND_FRAME, state);
    commandState := state.View();
  }
}
