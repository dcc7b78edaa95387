/** The wire format: request encoders, value decoders and response framing. */
module Protocol {
  import opened Wrappers

  type Byte = x: int | 0 <= x < 256
  type Bytes = seq<Byte>

  const GET: Byte := 0x47
  const SET: Byte := 0x53
  const RESPONSE: Byte := 0x52
  const GET_MARKER: Byte := 0x80
  const SET_MARKER: Byte := 0x81
  const FRAME_END: Byte := 0xFF
  const SET_OK_STATUS: Byte := 0x11
  const SOURCE_REGISTER: Byte := 0x30
  const VOLUME_REGISTER: Byte := 0x25
  const DEFAULT_BUFFER_LIMIT: nat := 4096

  datatype Source = Wifi | Bluetooth | Aux | Opt

  /** None is "never"; only 20, 60 and None have an encoding. */
  type Standby = Option<int>

  datatype SourceStatus = SourceStatus(source: Source, standby: Standby, inverse: bool, powerOn: bool)

  type Volume = x: int | 0 <= x <= 100

  datatype VolumeStatus = VolumeStatus(volume: Volume, muted: bool)

  datatype Frame =
    | GetFrame(register: Byte, value: Byte, trailer: Byte)
    | SetStatusFrame(status: Byte)

  /** Python's ValueError and MalformedResponseError at this level. */
  datatype CodecError = ValueError | MalformedResponse

  // ---------------------------------------------------------------- encoders

  function SourceBase(source: Source): Byte {
    match source
    case Wifi => 0x02
    case Bluetooth => 0x09
    case Aux => 0x0A
    case Opt => 0x0B
  }

  predicate StandbySupported(standby: Standby) {
    standby == None || standby == Some(20) || standby == Some(60)
  }

  function StandbyOffset(standby: Standby): (offset: Byte)
    requires StandbySupported(standby)
  {
    match standby
    case None => 0x20
    case Some(minutes) => if minutes == 20 then 0x00 else 0x10
  }

  function EncodeGet(register: int): Result<Bytes, CodecError> {
    if 0 <= register <= 0xFF then Success([GET, register, GET_MARKER]) else Failure(ValueError)
  }

  function EncodeSet(register: int, value: int): Result<Bytes, CodecError> {
    if 0 <= register <= 0xFF && 0 <= value <= 0xFF
    then Success([SET, register, SET_MARKER, value])
    else Failure(ValueError)
  }

  function SourceCode(source: Source, standby: Standby, inverse: bool, powerOn: bool): int
    requires StandbySupported(standby)
  {
    SourceBase(source) + StandbyOffset(standby) + (if inverse then 0x40 else 0) + (if powerOn then 0 else 0x80)
  }

  function EncodeSetSource(source: Source, standby: Standby, inverse: bool, powerOn: bool): Result<Bytes, CodecError> {
    if StandbySupported(standby)
    then EncodeSet(SOURCE_REGISTER, SourceCode(source, standby, inverse, powerOn))
    else Failure(ValueError)
  }

  function EncodeSetVolume(volume: int, muted: bool): Result<Bytes, CodecError> {
    if 0 <= volume <= 100
    then EncodeSet(VOLUME_REGISTER, volume + (if muted then 0x80 else 0))
    else Failure(ValueError)
  }

  // ---------------------------------------------------------------- decoders

  /** The source a response nibble names; 0x0F is the response-only "Bluetooth paired". */
  function BaseSource(base: int): Option<Source> {
    match base
    case 0x02 => Some(Wifi)
    case 0x09 => Some(Bluetooth)
    case 0x0F => Some(Bluetooth)
    case 0x0A => Some(Aux)
    case 0x0B => Some(Opt)
    case _ => None
  }

  /** The accepted source response table, indexed by the seven low bits of the value. */
  function SourceLookup(code: int): Option<(Source, Standby, bool)>
    requires 0 <= code < 0x80
  {
    var inverse := code >= 0x40;
    var rest := code % 0x40;
    match BaseSource(rest % 0x10)
    case None => None
    case Some(source) =>
      match rest / 0x10
      case 0 => Some((source, Some(20), inverse))
      case 1 => Some((source, Some(60), inverse))
      case 2 => Some((source, None, inverse))
      case _ => None
  }

  function DecodeSourceValue(value: int): Result<SourceStatus, CodecError> {
    if !(0 <= value <= 0xFF) then Failure(ValueError)
    else
      var repaired := if value == 48 then 82 else value;
      match SourceLookup(repaired % 0x80)
      case None => Failure(ValueError)
      case Some((source, standby, inverse)) =>
        Success(SourceStatus(source, standby, inverse, repaired <= 0x80))
  }

  function DecodeVolumeValue(value: int): Result<VolumeStatus, CodecError> {
    if !(0 <= value <= 0xFF) || value % 0x80 > 100
    then Failure(ValueError)
    else Success(VolumeStatus(value % 0x80, value >= 0x80))
  }

  /** The lookup accepts exactly the sums the table is built from. */
  lemma SourceLookupIsTheTable(code: int, source: Source, standby: Standby, inverse: bool)
    requires 0 <= code < 0x80
    ensures SourceLookup(code) == Some((source, standby, inverse))
       <==> && StandbySupported(standby)
            && exists base: int :: BaseSource(base) == Some(source)
                 && code == base + StandbyOffset(standby) + (if inverse then 0x40 else 0)
  {
    var base := code % 0x40 % 0x10;
    if SourceLookup(code) == Some((source, standby, inverse)) {
      assert code == base + StandbyOffset(standby) + (if inverse then 0x40 else 0);
    }
  }

  /** The seven low bits of a settable source code name its source, standby and orientation. */
  lemma SourceCodeLookup(source: Source, standby: Standby, inverse: bool)
    requires StandbySupported(standby)
    ensures 0 <= SourceCode(source, standby, inverse, true) < 0x80
    ensures SourceLookup(SourceCode(source, standby, inverse, true)) == Some((source, standby, inverse))
    ensures SourceCode(source, standby, inverse, true) != 48
  {
    var low := SourceBase(source) + StandbyOffset(standby);
    assert low % 0x10 == SourceBase(source) && low / 0x10 == StandbyOffset(standby) / 0x10 && low < 0x40;
    var code := SourceCode(source, standby, inverse, true);
    assert code % 0x40 == low;
  }

  /** Decoding the value byte of any source SET gives back its four arguments. */
  lemma SourceRoundTrip(source: Source, standby: Standby, inverse: bool, powerOn: bool)
    requires StandbySupported(standby)
    ensures 0 <= SourceCode(source, standby, inverse, powerOn) <= 0xFF
    ensures DecodeSourceValue(SourceCode(source, standby, inverse, powerOn))
         == Success(SourceStatus(source, standby, inverse, powerOn))
  {
    SourceCodeLookup(source, standby, inverse);
    var low := SourceCode(source, standby, inverse, true);
    assert SourceCode(source, standby, inverse, powerOn) == low + (if powerOn then 0 else 0x80);
    assert (low + 0x80) % 0x80 == low && low % 0x80 == low;
    assert low != 0;
  }

  type SourceTable = map<int, (Source, Standby, bool)>

  const SETTABLE_SOURCES: seq<Source> := [Wifi, Bluetooth, Aux, Opt]
  const STANDBY_TIMES: seq<Standby> := [Some(20), Some(60), None]
  const BLUETOOTH_PAIRED: int := 0x0F

  function TableCode(base: int, standby: Standby, inverse: bool): int
    requires StandbySupported(standby)
  {
    base + StandbyOffset(standby) + (if inverse then 0x40 else 0)
  }

  /** Every row of the table is what the lookup by arithmetic gives. */
  predicate TableSound(table: SourceTable) {
    forall code :: code in table ==> 0 <= code < 0x80 && SourceLookup(code) == Some(table[code])
  }

  /** The rows of one base, for the first `times` standby times. */
  predicate HasRows(table: SourceTable, base: int, times: nat)
    requires times <= |STANDBY_TIMES|
  {
    forall j :: 0 <= j < times ==>
      TableCode(base, STANDBY_TIMES[j], false) in table && TableCode(base, STANDBY_TIMES[j], true) in table
  }

  lemma TableCodeLooksUp(base: int, standby: Standby, inverse: bool)
    requires BaseSource(base).Some? && StandbySupported(standby)
    ensures var code := TableCode(base, standby, inverse);
            0 <= code < 0x80 && SourceLookup(code) == Some((BaseSource(base).value, standby, inverse))
  {
    var low := base + StandbyOffset(standby);
    assert low % 0x10 == base && low / 0x10 == StandbyOffset(standby) / 0x10 && low < 0x40;
    assert TableCode(base, standby, inverse) % 0x40 == low;
  }

  /** Adds the six rows of one base to the table under construction. */
  method AddRows(table: SourceTable, base: int) returns (extended: SourceTable)
    requires TableSound(table) && BaseSource(base).Some?
    ensures TableSound(extended) && table.Keys <= extended.Keys && HasRows(extended, base, |STANDBY_TIMES|)
  {
    extended := table;
    for j := 0 to |STANDBY_TIMES|
      invariant TableSound(extended) && table.Keys <= extended.Keys && HasRows(extended, base, j)
    {
      var standby := STANDBY_TIMES[j];
      TableCodeLooksUp(base, standby, false);
      TableCodeLooksUp(base, standby, true);
      extended := extended[TableCode(base, standby, false) := (BaseSource(base).value, standby, false)];
      extended := extended[TableCode(base, standby, true) := (BaseSource(base).value, standby, true)];
    }
  }

  lemma CompleteTable(table: SourceTable, code: int)
    requires 0 <= code < 0x80 && SourceLookup(code).Some? && HasRows(table, BLUETOOTH_PAIRED, |STANDBY_TIMES|)
    requires forall i :: 0 <= i < |SETTABLE_SOURCES| ==>
               HasRows(table, SourceBase(SETTABLE_SOURCES[i]), |STANDBY_TIMES|)
    ensures code in table
  {
    var Some((source, standby, inverse)) := SourceLookup(code);
    SourceLookupIsTheTable(code, source, standby, inverse);
    var base: int :| BaseSource(base) == Some(source) && code == TableCode(base, standby, inverse);
    assert STANDBY_TIMES[0] == Some(20) && STANDBY_TIMES[1] == Some(60) && STANDBY_TIMES[2] == None;
    var j :| 0 <= j < |STANDBY_TIMES| && STANDBY_TIMES[j] == standby;
    if base != BLUETOOTH_PAIRED {
      var i := if source == Wifi then 0 else if source == Bluetooth then 1 else if source == Aux then 2 else 3;
      assert HasRows(table, SourceBase(SETTABLE_SOURCES[i]), |STANDBY_TIMES|);
    }
  }

  /** Builds the accepted source response table: settable sources, then Bluetooth-paired. */
  method BuildSourceLookup() returns (table: SourceTable)
    ensures forall code :: code in table <==> 0 <= code < 0x80 && SourceLookup(code).Some?
    ensures forall code :: code in table ==> SourceLookup(code) == Some(table[code])
  {
    table := map[];
    for i := 0 to |SETTABLE_SOURCES|
      invariant TableSound(table)
      invariant forall k :: 0 <= k < i ==> HasRows(table, SourceBase(SETTABLE_SOURCES[k]), |STANDBY_TIMES|)
    {
      table := AddRows(table, SourceBase(SETTABLE_SOURCES[i]));
    }
    table := AddRows(table, BLUETOOTH_PAIRED);
    forall code | 0 <= code < 0x80 && SourceLookup(code).Some?
      ensures code in table
    {
      CompleteTable(table, code);
    }
  }

  // ----------------------------------------------------------------- framing

  datatype ParseResult = Parsed(frames: seq<Frame>, residue: Bytes) | Malformed

  /** All complete frames at the front of a byte string, and the incomplete suffix. */
  function Parse(bytes: Bytes): ParseResult {
    if bytes == [] then Parsed([], [])
    else if bytes[0] != RESPONSE then Malformed
    else if |bytes| < 3 then Parsed([], bytes)
    else if bytes[2] == FRAME_END then After([SetStatusFrame(bytes[1])], Parse(bytes[3..]))
    else if bytes[2] != SET_MARKER then Malformed
    else if |bytes| < 5 then Parsed([], bytes)
    else After([GetFrame(bytes[1], bytes[3], bytes[4])], Parse(bytes[5..]))
  }

  /** A parse result with more frames in front. */
  function After(frames: seq<Frame>, rest: ParseResult): ParseResult {
    match rest
    case Malformed => Malformed
    case Parsed(more, residue) => Parsed(frames + more, residue)
  }

  /** The bytes a speaker sends for one frame. */
  function PrintFrame(frame: Frame): Bytes {
    match frame
    case GetFrame(register, value, trailer) => [RESPONSE, register, SET_MARKER, value, trailer]
    case SetStatusFrame(status) => [RESPONSE, status, FRAME_END]
  }

  function Print(frames: seq<Frame>): Bytes {
    if frames == [] then [] else PrintFrame(frames[0]) + Print(frames[1..])
  }

  /** A proper prefix of some frame. */
  predicate IsResidue(bytes: Bytes) {
    && |bytes| <= 4
    && (|bytes| > 0 ==> bytes[0] == RESPONSE)
    && (|bytes| > 2 ==> bytes[2] == SET_MARKER)
  }

  /** What Parse gives on `a + b`, when `a` was parsed first and only its residue kept. */
  function Continue(first: ParseResult, b: Bytes): ParseResult {
    match first
    case Malformed => Malformed
    case Parsed(frames, residue) => After(frames, Parse(residue + b))
  }

  /** Parsing reads one printed frame off the front. */
  lemma ParseOneFrame(frame: Frame, rest: Bytes)
    ensures Parse(PrintFrame(frame) + rest) == After([frame], Parse(rest))
  {
    var bytes := PrintFrame(frame) + rest;
    assert bytes[|PrintFrame(frame)|..] == rest;
  }

  lemma AfterAfter(first: seq<Frame>, second: seq<Frame>, rest: ParseResult)
    ensures After(first, After(second, rest)) == After(first + second, rest)
  {
    if rest.Parsed? {
      assert first + (second + rest.frames) == (first + second) + rest.frames;
    }
  }

  /** A complete frame at the front of a byte string, if there is one. */
  function FirstFrame(bytes: Bytes): (frame: Option<Frame>)
    ensures frame.Some? ==> PrintFrame(frame.value) <= bytes
  {
    if |bytes| < 3 || bytes[0] != RESPONSE then None
    else if bytes[2] == FRAME_END then Some(SetStatusFrame(bytes[1]))
    else if bytes[2] == SET_MARKER && |bytes| >= 5 then Some(GetFrame(bytes[1], bytes[3], bytes[4]))
    else None
  }

  /** Without a complete first frame a byte string is a residue or malformed. */
  lemma NoFirstFrame(bytes: Bytes)
    requires FirstFrame(bytes).None?
    ensures Parse(bytes) == (if IsResidue(bytes) then Parsed([], bytes) else Malformed)
  {
  }

  lemma PrintCons(frame: Frame, frames: seq<Frame>, rest: Bytes)
    ensures Print([frame] + frames) + rest == PrintFrame(frame) + (Print(frames) + rest)
  {
    assert ([frame] + frames)[1..] == frames;
  }

  /** Parsing a printed frame list followed by an incomplete frame recovers both. */
  lemma {:induction false} ParsePrint(frames: seq<Frame>, residue: Bytes)
    requires IsResidue(residue)
    ensures Parse(Print(frames) + residue) == Parsed(frames, residue)
  {
    if frames == [] {
      assert Print(frames) + residue == residue;
      NoFirstFrame(residue);
    } else {
      ParsePrint(frames[1..], residue);
      ParseOneFrame(frames[0], Print(frames[1..]) + residue);
      PrintCons(frames[0], frames[1..], residue);
      assert frames == [frames[0]] + frames[1..];
    }
  }

  /** A byte string that parses is the print of its frames followed by its residue. */
  lemma {:induction false} ParseIsInverseOfPrint(bytes: Bytes)
    requires Parse(bytes).Parsed?
    ensures var Parsed(frames, residue) := Parse(bytes);
            bytes == Print(frames) + residue && IsResidue(residue)
    decreases |bytes|
  {
    match FirstFrame(bytes)
    case None =>
      NoFirstFrame(bytes);
      assert Print([]) + bytes == bytes;
    case Some(frame) =>
      var rest := SplitFirstFrame(bytes);
      ParseOneFrame(frame, rest);
      ParseIsInverseOfPrint(rest);
      PrintCons(frame, Parse(rest).frames, Parse(rest).residue);
  }

  lemma SplitFirstFrame(bytes: Bytes) returns (rest: Bytes)
    requires FirstFrame(bytes).Some?
    ensures bytes == PrintFrame(FirstFrame(bytes).value) + rest && |rest| < |bytes|
  {
    rest := bytes[|PrintFrame(FirstFrame(bytes).value)|..];
  }

  /** A byte string parses to (frames, residue) exactly when it is their print. */
  lemma ParseExactlyInvertsPrint(bytes: Bytes, frames: seq<Frame>, residue: Bytes)
    ensures Parse(bytes) == Parsed(frames, residue)
       <==> bytes == Print(frames) + residue && IsResidue(residue)
  {
    if Parse(bytes) == Parsed(frames, residue) {
      ParseIsInverseOfPrint(bytes);
    }
    if bytes == Print(frames) + residue && IsResidue(residue) {
      ParsePrint(frames, residue);
    }
  }

  /** Splitting a stream anywhere does not change what it parses to. */
  lemma {:induction false} ParseConcat(a: Bytes, b: Bytes)
    ensures Parse(a + b) == Continue(Parse(a), b)
    decreases |a|
  {
    match FirstFrame(a)
    case None =>
      NoFirstFrame(a);
      if a != [] && !IsResidue(a) {
        assert Parse(a + b).Malformed?;
      }
    case Some(frame) =>
      var rest := SplitFirstFrame(a);
      assert a + b == PrintFrame(frame) + (rest + b);
      ParseOneFrame(frame, rest);
      ParseOneFrame(frame, rest + b);
      ParseConcat(rest, b);
      if Parse(rest).Parsed? {
        AfterAfter([frame], Parse(rest).frames, Parse(Parse(rest).residue + b));
      }
  }

  /** One `feed`: the limit is checked on the whole buffer before anything is parsed. */
  function FeedOnce(limit: nat, buffer: Bytes, data: Bytes): ParseResult {
    if |buffer + data| > limit then Malformed else Parse(buffer + data)
  }

  /** Feeding chunks in turn; the first failing feed ends the stream. */
  function FeedAll(limit: nat, buffer: Bytes, chunks: seq<Bytes>): ParseResult
    decreases |chunks|
  {
    if chunks == [] then Parsed([], buffer)
    else
      match FeedOnce(limit, buffer, chunks[0])
      case Malformed => Malformed
      case Parsed(frames, residue) => After(frames, FeedAll(limit, residue, chunks[1..]))
  }

  function Flatten(chunks: seq<Bytes>): Bytes {
    if chunks == [] then [] else chunks[0] + Flatten(chunks[1..])
  }

  lemma {:induction false} FeedAllFromResidue(limit: nat, buffer: Bytes, chunks: seq<Bytes>)
    requires IsResidue(buffer)
    requires forall i :: 0 <= i < |chunks| ==> |chunks[i]| + 4 <= limit
    ensures FeedAll(limit, buffer, chunks) == Parse(buffer + Flatten(chunks))
    decreases |chunks|
  {
    if chunks == [] {
      ParsePrint([], buffer);
      assert Print([]) + buffer == buffer == buffer + Flatten(chunks);
    } else {
      var head, tail := buffer + chunks[0], Flatten(chunks[1..]);
      assert buffer + Flatten(chunks) == head + tail;
      ParseConcat(head, tail);
      if Parse(head).Parsed? {
        ParseIsInverseOfPrint(head);
        FeedAllFromResidue(limit, Parse(head).residue, chunks[1..]);
      }
    }
  }

  /**
   * Chunk invariance: however a stream is cut, a fresh parser yields the frames and the
   * residue of the whole stream, and fails exactly when the whole stream is malformed.
   */
  lemma ChunkInvariance(limit: nat, chunks: seq<Bytes>)
    requires forall i :: 0 <= i < |chunks| ==> |chunks[i]| + 4 <= limit
    ensures FeedAll(limit, [], chunks) == Parse(Flatten(chunks))
    ensures Parse(Flatten(chunks)).Parsed? ==> IsResidue(Parse(Flatten(chunks)).residue)
  {
    FeedAllFromResidue(limit, [], chunks);
    assert [] + Flatten(chunks) == Flatten(chunks);
    if Parse(Flatten(chunks)).Parsed? {
      ParseIsInverseOfPrint(Flatten(chunks));
    }
  }

  /** Incrementally parses fixed-shape response frames out of a byte buffer it owns. */
  class FrameParser {
    var buffer: Bytes
    const bufferLimit: nat

    constructor (bufferLimit: nat)
      ensures buffer == [] && this.bufferLimit == bufferLimit
    {
      buffer := [];
      this.bufferLimit := bufferLimit;
    }

    predicate HasPendingData()
      reads this
    {
      buffer != []
    }

    /** Clears the poisoned buffer; the caller reports the framing error. */
    method Fail()
      modifies this`buffer
      ensures buffer == []
    {
      buffer := [];
    }

    /**
     * Appends stream bytes and returns every complete frame. A framing error loses the
     * frames of this feed and empties the buffer.
     */
    method Feed(data: Bytes) returns (fed: Result<seq<Frame>, CodecError>)
      modifies this`buffer
      ensures match FeedOnce(bufferLimit, old(buffer), data)
              case Parsed(frames, residue) => fed == Success(frames) && buffer == residue
              case Malformed => fed == Failure(MalformedResponse) && buffer == []
      ensures fed.Failure? <==> |old(buffer)| + |data| > bufferLimit || Parse(old(buffer) + data).Malformed?
    {
      buffer := buffer + data;
      ghost var whole := buffer;
      if |buffer| > bufferLimit {
        Fail();
        return Failure(MalformedResponse);
      }
      var frames: seq<Frame> := [];
      while buffer != []
        invariant Parse(whole) == After(frames, Parse(buffer))
        decreases |buffer|
      {
        if buffer[0] != RESPONSE {
          Fail();
          return Failure(MalformedResponse);
        }
        if |buffer| < 3 {
          break;
        }
        var marker := buffer[2];
        if marker == FRAME_END {
          AfterAfter(frames, [SetStatusFrame(buffer[1])], Parse(buffer[3..]));
          frames := frames + [SetStatusFrame(buffer[1])];
          buffer := buffer[3..];
          continue;
        }
        if marker != SET_MARKER {
          Fail();
          return Failure(MalformedResponse);
        }
        if |buffer| < 5 {
          break;
        }
        AfterAfter(frames, [GetFrame(buffer[1], buffer[3], buffer[4])], Parse(buffer[5..]));
        frames := frames + [GetFrame(buffer[1], buffer[3], buffer[4])];
        buffer := buffer[5..];
      }
      assert frames + [] == frames;
      return Success(frames);
    }
  }
}
