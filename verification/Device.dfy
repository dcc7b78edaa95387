/** The speaker as the repository's fake server models it: a state and a reply per command. */
module Device {
  import opened Wrappers
  import opened Protocol
  import opened Client

  datatype DeviceState = DeviceState(
    power: bool, source: Source, standby: Standby, inverse: bool, volume: int, muted: bool)
  {
    /** The states whose replies can be built: each register fits its byte. */
    predicate Encodable() {
      var supported := StandbySupported(standby);
      supported && 0 <= volume <= 0xFF - (if muted then 0x80 else 0)
    }

    /** The states that requests lead to: volume and mute do not overlap in their byte. */
    predicate Valid() {
      Encodable() && volume < 0x80
    }
  }

  /** A request on the wire: a register, and a value when it is a SET. */
  datatype Command = Command(register: Byte, value: Option<Byte>)

  function ParseCommand(raw: Bytes): Option<Command> {
    if |raw| == 3 && raw[0] == GET && raw[2] == GET_MARKER then Some(Command(raw[1], None))
    else if |raw| == 4 && raw[0] == SET && raw[2] == SET_MARKER then Some(Command(raw[1], Some(raw[3])))
    else None
  }

  const SET_OK: Bytes := [RESPONSE, SET_OK_STATUS, FRAME_END]
  const SET_REFUSED: Bytes := [RESPONSE, 0x12, FRAME_END]

  function GetReply(register: Byte, value: Byte): Bytes {
    [RESPONSE, register, SET_MARKER, value, 0]
  }

  /** The settable codes: the response table without its Bluetooth-paired rows. */
  function SettableCode(code: int): Option<(Source, Standby, bool)>
    requires 0 <= code < 0x80
  {
    if code % 0x10 == 0x0F then None else SourceLookup(code)
  }

  /** The state after a command. An unknown source code still switches the power. */
  function Obey(device: DeviceState, command: Command): DeviceState {
    match command.value
    case None => device
    case Some(value) =>
      if command.register == SOURCE_REGISTER then
        var switched := device.(power := value < 0x80);
        match SettableCode(value % 0x80)
        case None => switched
        case Some((source, standby, inverse)) =>
          switched.(source := source, standby := standby, inverse := inverse)
      else if command.register == VOLUME_REGISTER then
        device.(volume := value % 0x80, muted := value >= 0x80)
      else device
  }

  function Answer(device: DeviceState, command: Command): Bytes
    requires device.Encodable()
  {
    match command.value
    case None =>
      if command.register == SOURCE_REGISTER then
        SourceCodeLookup(device.source, device.standby, device.inverse);
        GetReply(command.register, SourceCode(device.source, device.standby, device.inverse, device.power))
      else if command.register == VOLUME_REGISTER then
        GetReply(command.register, device.volume + (if device.muted then 0x80 else 0))
      else GetReply(command.register, 0)
    case Some(value) =>
      if command.register == SOURCE_REGISTER && SettableCode(value % 0x80).None? then SET_REFUSED else SET_OK
  }

  /** A GET request names its register and carries no value. */
  lemma GetIsUnderstood(register: Byte)
    ensures EncodeGet(register).Success?
    ensures ParseCommand(EncodeGet(register).value) == Some(Command(register, None))
  {
  }

  /** The bytes the speaker sends back for a request; one it cannot parse is not answered. */
  function Reply(device: DeviceState, request: Bytes): Bytes
    requires device.Encodable()
  {
    match ParseCommand(request)
    case None => []
    case Some(command) => Answer(device, command)
  }

  lemma ObeyKeepsValid(device: DeviceState, command: Command)
    requires device.Encodable()
    ensures Obey(device, command).Encodable() && (device.Valid() ==> Obey(device, command).Valid())
  {
    if command.value.Some? {
      var code := command.value.value % 0x80;
      match SettableCode(code)
      case None =>
      case Some((source, standby, inverse)) =>
        SourceLookupIsTheTable(code, source, standby, inverse);
    }
  }

  /** Holds the speaker's state and answers each command as it arrives. */
  class FakeSpeaker {
    var state: DeviceState

    constructor (state: DeviceState)
      ensures this.state == state
    {
      this.state := state;
    }

    method AutoReply(command: Command) returns (reply: Bytes)
      requires state.Encodable()
      modifies this
      ensures state == Obey(old(state), command) && reply == Answer(old(state), command)
      ensures state.Encodable() && (old(state).Valid() ==> state.Valid())
    {
      ObeyKeepsValid(state, command);
      ghost var before := state;
      if command.value.None? {
        var value: Byte := 0;
        if command.register == SOURCE_REGISTER {
          SourceCodeLookup(state.source, state.standby, state.inverse);
          value := SourceBase(state.source) + StandbyOffset(state.standby)
            + (if state.inverse then 64 else 0) + (if state.power then 0 else 128);
        } else if command.register == VOLUME_REGISTER {
          value := state.volume + (if state.muted then 128 else 0);
        }
        return GetReply(command.register, value);
      }
      var value := command.value.value;
      if command.register == SOURCE_REGISTER {
        state := state.(power := value < 128);
        var entry := SettableCode(value % 128);
        if entry.None? {
          return SET_REFUSED;
        }
        state := state.(source := entry.value.0, standby := entry.value.1, inverse := entry.value.2);
      } else if command.register == VOLUME_REGISTER {
        state := state.(muted := value >= 128);
        state := state.(volume := value % 128);
      }
      return SET_OK;
    }
  }

  // -------------------------------------------------- requests through the wire

  /** A volume SET that is obeyed leaves exactly the requested volume and mute, nothing else. */
  lemma VolumeSetObeyed(device: DeviceState, volume: int, muted: bool)
    requires 0 <= volume <= 100
    ensures EncodeSetVolume(volume, muted).Success?
    ensures var command := ParseCommand(EncodeSetVolume(volume, muted).value);
            && command.Some?
            && Obey(device, command.value) == device.(volume := volume, muted := muted)
            && (device.Encodable() ==> Answer(device, command.value) == SET_OK)
  {
  }

  /** The value byte of a source SET carries the power in its top bit and a settable code below. */
  lemma SourceCodeIsSettable(source: Source, standby: Standby, inverse: bool, powerOn: bool)
    requires StandbySupported(standby)
    ensures var code := SourceCode(source, standby, inverse, powerOn);
            && 0 <= code <= 0xFF && (code < 0x80 <==> powerOn)
            && SettableCode(code % 0x80) == Some((source, standby, inverse))
  {
    SourceCodeLookup(source, standby, inverse);
    var low := SourceCode(source, standby, inverse, true);
    assert SourceCode(source, standby, inverse, powerOn) == low + (if powerOn then 0 else 0x80);
    assert (low + 0x80) % 0x80 == low && low % 0x80 == low;
    assert low % 0x10 == SourceBase(source);
  }

  /** The low bits name a settable source, and the two above them one of three standby times. */
  predicate IsSettable(code: int) { code % 0x10 in {2, 9, 10, 11} && code % 0x40 < 0x30 }

  /** Anything else: an unknown source code is refused but switches the power, other registers hold nothing. */
  lemma OtherCommandsObeyed(device: DeviceState, register: Byte, value: Byte)
    requires device.Encodable()
    ensures !IsSettable(value % 0x80) ==>
              && Obey(device, Command(0x30, Some(value))) == device.(power := value < 128)
              && Answer(device, Command(0x30, Some(value))) == [0x52, 0x12, 0xFF]
    ensures IsSettable(value % 0x80) ==> Answer(device, Command(0x30, Some(value))) == [0x52, 0x11, 0xFF]
    ensures register !in {0x25, 0x30} ==>
              && Obey(device, Command(register, Some(value))) == device
              && Answer(device, Command(register, Some(value))) == [0x52, 0x11, 0xFF]
              && Answer(device, Command(register, None)) == [0x52, register, 0x81, 0, 0]
  {
    var code := value % 0x80;
    assert code % 0x40 % 0x10 == code % 0x10 && code % 0x40 / 0x10 < 4;
  }

  /** A source SET that is obeyed leaves exactly the requested power, source, standby and orientation. */
  lemma SourceSetObeyed(device: DeviceState, source: Source, standby: Standby, inverse: bool, powerOn: bool)
    requires StandbySupported(standby)
    ensures EncodeSetSource(source, standby, inverse, powerOn).Success?
    ensures var command := ParseCommand(EncodeSetSource(source, standby, inverse, powerOn).value);
            && command.Some?
            && Obey(device, command.value)
                 == device.(power := powerOn, source := source, standby := standby, inverse := inverse)
            && (device.Encodable() ==> Answer(device, command.value) == SET_OK)
  {
    SourceCodeIsSettable(source, standby, inverse, powerOn);
  }

  /** The reply to any single answered command, cut in any way, parses to one frame. */
  lemma OneFrameReply(expected: Option<Byte>, frame: Frame, chunks: seq<Chunk>, ending: Ending)
    requires Flatten(chunks) == PrintFrame(frame) && Verdict(expected, frame).Some?
    ensures ReadLoop(expected, [], 0, chunks, ending).result == Verdict(expected, frame).value
  {
    PrintCons(frame, [], []);
    assert [frame] + [] == [frame] && PrintFrame(frame) + (Print([]) + []) == PrintFrame(frame);
    assert Print([frame]) + [] == PrintFrame(frame);
    LoopRefinesScan(expected, [frame], [], chunks, ending);
    FirstVerdictDecides(expected, [frame], 0, 0, false, ending);
  }

  /** A source GET answered by the speaker returns its power and source, for any cutting of the reply. */
  lemma SourceGetEndToEnd(device: DeviceState, chunks: seq<Chunk>, ending: Ending)
    requires device.Encodable() && Flatten(chunks) == Reply(device, EncodeGet(SOURCE_REGISTER).value)
    ensures SourceReply(ReadLoop(Some(SOURCE_REGISTER), [], 0, chunks, ending).result)
         == Success(SourceStatus(device.source, device.standby, device.inverse, device.power))
  {
    GetIsUnderstood(SOURCE_REGISTER);
    SourceRoundTrip(device.source, device.standby, device.inverse, device.power);
    var code := SourceCode(device.source, device.standby, device.inverse, device.power);
    OneFrameReply(Some(SOURCE_REGISTER), GetFrame(SOURCE_REGISTER, code, 0), chunks, ending);
  }

  /** What a volume GET of this device yields: its volume and mute, or an error past 100. */
  function VolumeOf(device: DeviceState): Result<VolumeStatus, LsxError> {
    if 0 <= device.volume <= 100 then Success(VolumeStatus(device.volume, device.muted))
    else Failure(LsxError(MalformedReply, true))
  }

  /** The state as its volume byte shows it: a volume that runs over into the top bit looks muted. */
  function Shown(device: DeviceState): DeviceState {
    if device.volume < 0x80 then device else device.(volume := device.volume - 0x80, muted := true)
  }

  lemma VolumeGetEndToEnd(device: DeviceState, chunks: seq<Chunk>, ending: Ending)
    requires device.Encodable() && Flatten(chunks) == Reply(device, EncodeGet(VOLUME_REGISTER).value)
    ensures VolumeReply(ReadLoop(Some(VOLUME_REGISTER), [], 0, chunks, ending).result) == VolumeOf(Shown(device))
  {
    GetIsUnderstood(VOLUME_REGISTER);
    var value: Byte := device.volume + (if device.muted then 0x80 else 0);
    assert value % 0x80 == device.volume % 0x80 && (value >= 0x80 <==> device.muted || device.volume >= 0x80);
    OneFrameReply(Some(VOLUME_REGISTER), GetFrame(VOLUME_REGISTER, value, 0), chunks, ending);
  }

  /** A SET answered with OK is acknowledged, for any cutting of the reply. */
  lemma SetEndToEnd(chunks: seq<Chunk>, ending: Ending)
    requires Flatten(chunks) == SET_OK
    ensures ReadLoop(None, [], 0, chunks, ending).result == Acknowledged
  {
    OneFrameReply(None, SetStatusFrame(SET_OK_STATUS), chunks, ending);
  }
}
