/** One bounded request/reply exchange over a connection that is opened for it. */
module Client {
  import opened Wrappers
  import opened Protocol

  const MAX_FRAMES_PER_EXCHANGE: nat := 16
  const READ_SIZE: nat := 1024

  datatype Fault =
    | ConnectRefused
    | ConnectTimeout
    | ResponseTimeout
    | ConnectionLost
    | MalformedReply
    | CommandRejected(status: Byte)
    | ClientClosed

  datatype LsxError = LsxError(fault: Fault, writeAttempted: bool)

  /** What a non-empty `reader.read(1024)` can return. */
  type Chunk = bytes: Bytes | 0 < |bytes| <= READ_SIZE witness [0]

  /** How the reads end once the chunks are exhausted. */
  datatype Ending = EndOfStream | DeadlinePassed | ConnectionBroke

  datatype Draining = Drained | DrainTimedOut | DrainBroke

  datatype Opening = Opened | OpenTimedOut | OpenRefused | OpenFailed

  /** Everything the network does during one exchange. */
  datatype Script = Script(opening: Opening, draining: Draining, chunks: seq<Chunk>, ending: Ending)

  /** `Value` is a returned GET frame, `Acknowledged` is the `None` a SET returns. */
  datatype ExchangeResult =
    | Value(frame: Frame)
    | Acknowledged
    | Failed(error: LsxError)

  /** What one frame means to an exchange that waits for `expected`; None is "keep reading". */
  function Verdict(expected: Option<Byte>, frame: Frame): Option<ExchangeResult> {
    match expected
    case Some(register) =>
      if frame.GetFrame? && frame.register == register then Some(Value(frame))
      else if frame.GetFrame? then None
      else Some(Failed(LsxError(MalformedReply, true)))
    case None =>
      if frame.GetFrame? then None
      else if frame.status != SET_OK_STATUS then Some(Failed(LsxError(CommandRejected(frame.status), true)))
      else Some(Acknowledged)
  }

  datatype Examined = Decided(result: ExchangeResult) | Undecided(examined: nat)

  /** The inner `for frame in parser.feed(chunk)` loop. */
  function Examine(expected: Option<Byte>, frames: seq<Frame>, examined: nat): Examined {
    if frames == [] then Undecided(examined)
    else if examined + 1 > MAX_FRAMES_PER_EXCHANGE then Decided(Failed(LsxError(MalformedReply, true)))
    else
      match Verdict(expected, frames[0])
      case Some(result) => Decided(result)
      case None => Examine(expected, frames[1..], examined + 1)
  }

  /** The error raised when the reads stop without a verdict. */
  function EndingFault(ending: Ending, pending: bool): Fault {
    match ending
    case EndOfStream => if pending then MalformedReply else ConnectionLost
    case DeadlinePassed => if pending then MalformedReply else ResponseTimeout
    case ConnectionBroke => ConnectionLost
  }

  /** A finished exchange and the number of non-empty reads it made. */
  datatype LoopEnd = LoopEnd(result: ExchangeResult, readCount: nat)

  /** The read loop, and the number of non-empty reads it makes. */
  function ReadLoop(expected: Option<Byte>, buffer: Bytes, examined: nat, chunks: seq<Chunk>, ending: Ending)
    : LoopEnd
    decreases |chunks|
  {
    if chunks == [] then LoopEnd(Failed(LsxError(EndingFault(ending, buffer != []), true)), 0)
    else
      match FeedOnce(DEFAULT_BUFFER_LIMIT, buffer, chunks[0])
      case Malformed => LoopEnd(Failed(LsxError(MalformedReply, true)), 1)
      case Parsed(frames, residue) =>
        match Examine(expected, frames, examined)
        case Decided(result) => LoopEnd(result, 1)
        case Undecided(seen) =>
          var rest := ReadLoop(expected, residue, seen, chunks[1..], ending);
          LoopEnd(rest.result, rest.readCount + 1)
  }

  /** A whole exchange; `closed` is the client's own flag. */
  function Exchange(closed: bool, expected: Option<Byte>, script: Script): LoopEnd {
    if closed then LoopEnd(Failed(LsxError(ClientClosed, false)), 0)
    else
      match script.opening
      case OpenTimedOut => LoopEnd(Failed(LsxError(ConnectTimeout, false)), 0)
      case OpenRefused => LoopEnd(Failed(LsxError(ConnectRefused, false)), 0)
      case OpenFailed => LoopEnd(Failed(LsxError(ConnectionLost, false)), 0)
      case Opened =>
        match script.draining
        case DrainTimedOut => LoopEnd(Failed(LsxError(ResponseTimeout, true)), 0)
        case DrainBroke => LoopEnd(Failed(LsxError(ConnectionLost, true)), 0)
        case Drained => ReadLoop(expected, [], 0, script.chunks, script.ending)
  }

  /** `async_get_source`: only a value frame that decodes is a reply. */
  function SourceReply(result: ExchangeResult): Result<SourceStatus, LsxError> {
    match result
    case Failed(error) => Failure(error)
    case Acknowledged => Failure(LsxError(MalformedReply, true))
    case Value(frame) =>
      if frame.SetStatusFrame? then Failure(LsxError(MalformedReply, true))
      else
        match DecodeSourceValue(frame.value)
        case Success(status) => Success(status)
        case Failure(_) => Failure(LsxError(MalformedReply, true))
  }

  /** `async_get_volume`. */
  function VolumeReply(result: ExchangeResult): Result<VolumeStatus, LsxError> {
    match result
    case Failed(error) => Failure(error)
    case Acknowledged => Failure(LsxError(MalformedReply, true))
    case Value(frame) =>
      if frame.SetStatusFrame? then Failure(LsxError(MalformedReply, true))
      else
        match DecodeVolumeValue(frame.value)
        case Success(status) => Success(status)
        case Failure(_) => Failure(LsxError(MalformedReply, true))
  }

  /** A SET returns nothing or raises. */
  function SetReply(result: ExchangeResult): Option<LsxError> {
    if result.Failed? then Some(result.error) else None
  }

  /** How a SET on an open client ends. */
  function SetOutcome(script: Script): Option<LsxError> {
    SetReply(Exchange(false, None, script).result)
  }

  /** The requests an exchange hands to a connection: its own, once one is open. */
  function Handed(closed: bool, request: Bytes, script: Script): seq<Bytes> {
    if !closed && script.opening.Opened? then [request] else []
  }

  class LsxClient {
    var closed: bool
    var writerActive: bool
    /** The requests handed to connections so far. */
    ghost var handed: seq<Bytes>

    constructor ()
      ensures !closed && !writerActive && handed == []
    {
      closed, writerActive := false, false;
      handed := [];
    }

    method Close()
      modifies this
      ensures closed && (old(closed) || !writerActive)
      ensures old(closed) ==> writerActive == old(writerActive)
      ensures handed == old(handed)
    {
      if closed {
        return;
      }
      closed := true;
      writerActive := false;
    }

    /** Looks at the frames of one read in order, counting them against the frame cap. */
    method ExamineFrames(expected: Option<Byte>, frames: seq<Frame>, alreadyExamined: nat) returns (examined: Examined)
      ensures examined == Examine(expected, frames, alreadyExamined)
    {
      var framesExamined: nat := alreadyExamined;
      for i := 0 to |frames|
        invariant Examine(expected, frames, alreadyExamined) == Examine(expected, frames[i..], framesExamined)
      {
        assert frames[i..][0] == frames[i] && frames[i..][1..] == frames[i + 1..];
        framesExamined := framesExamined + 1;
        if framesExamined > MAX_FRAMES_PER_EXCHANGE {
          return Decided(Failed(LsxError(MalformedReply, true)));
        }
        var verdict := Verdict(expected, frames[i]);
        if verdict.Some? {
          return Decided(verdict.value);
        }
      }
      return Undecided(framesExamined);
    }

    /** Reads until a frame decides, the frame cap is passed, framing fails or the reads end. */
    method ReadReplies(expected: Option<Byte>, chunks: seq<Chunk>, ending: Ending)
      returns (result: ExchangeResult, readCount: nat)
      ensures LoopEnd(result, readCount) == ReadLoop(expected, [], 0, chunks, ending)
    {
      var parser := new FrameParser(DEFAULT_BUFFER_LIMIT);
      var framesExamined := 0;
      readCount := 0;
      while readCount < |chunks|
        invariant readCount <= |chunks|
        invariant parser.bufferLimit == DEFAULT_BUFFER_LIMIT
        invariant IsResidue(parser.buffer)
        invariant var rest := ReadLoop(expected, parser.buffer, framesExamined, chunks[readCount..], ending);
                  LoopEnd(rest.result, rest.readCount + readCount) == ReadLoop(expected, [], 0, chunks, ending)
      {
        var chunk := chunks[readCount];
        ghost var before := parser.buffer;
        assert chunks[readCount..][0] == chunk && chunks[readCount..][1..] == chunks[readCount + 1..];
        readCount := readCount + 1;
        var fed := parser.Feed(chunk);
        if fed.Failure? {
          return Failed(LsxError(MalformedReply, true)), readCount;
        }
        ParseIsInverseOfPrint(before + chunk);
        var examined := ExamineFrames(expected, fed.value, framesExamined);
        if examined.Decided? {
          return examined.result, readCount;
        }
        framesExamined := examined.examined;
      }
      var pending := parser.HasPendingData();
      return Failed(LsxError(EndingFault(ending, pending), true)), readCount;
    }

    /** Opens a connection, hands the request over and reads the reply. No connection is left behind. */
    method AsyncExchange(request: Bytes, expected: Option<Byte>, script: Script)
      returns (result: ExchangeResult, readCount: nat)
      modifies this`writerActive, this`handed
      ensures handed == old(handed) + Handed(closed, request, script)
      ensures LoopEnd(result, readCount) == Exchange(closed, expected, script)
      ensures writerActive == (old(writerActive) && (closed || !script.opening.Opened?))
      ensures readCount <= 85
    {
      if closed {
        return Failed(LsxError(ClientClosed, false)), 0;
      }
      match script.opening {
        case OpenTimedOut => return Failed(LsxError(ConnectTimeout, false)), 0;
        case OpenRefused => return Failed(LsxError(ConnectRefused, false)), 0;
        case OpenFailed => return Failed(LsxError(ConnectionLost, false)), 0;
        case Opened =>
      }
      writerActive := true;
      handed := handed + [request];
      match script.draining {
        case DrainTimedOut => result, readCount := Failed(LsxError(ResponseTimeout, true)), 0;
        case DrainBroke => result, readCount := Failed(LsxError(ConnectionLost, true)), 0;
        case Drained =>
          ReadsAreBounded(expected, [], 0, script.chunks, script.ending);
          result, readCount := ReadReplies(expected, script.chunks, script.ending);
      }
      writerActive := false;
    }

    method AsyncGetSource(script: Script) returns (reply: Result<SourceStatus, LsxError>)
      modifies this`writerActive, this`handed
      ensures !old(writerActive) ==> !writerActive
      ensures reply == SourceReply(Exchange(closed, Some(SOURCE_REGISTER), script).result)
      ensures handed == old(handed) + Handed(closed, [GET, SOURCE_REGISTER, GET_MARKER], script)
    {
      var result, _ := AsyncExchange(EncodeGet(SOURCE_REGISTER).value, Some(SOURCE_REGISTER), script);
      return SourceReply(result);
    }

    method AsyncGetVolume(script: Script) returns (reply: Result<VolumeStatus, LsxError>)
      modifies this`writerActive, this`handed
      ensures !old(writerActive) ==> !writerActive
      ensures reply == VolumeReply(Exchange(closed, Some(VOLUME_REGISTER), script).result)
      ensures handed == old(handed) + Handed(closed, [GET, VOLUME_REGISTER, GET_MARKER], script)
    {
      var result, _ := AsyncExchange(EncodeGet(VOLUME_REGISTER).value, Some(VOLUME_REGISTER), script);
      return VolumeReply(result);
    }

    /** An encoder error comes before any exchange. */
    method AsyncSetSource(source: Source, standby: Standby, inverse: bool, powerOn: bool, script: Script)
      returns (reply: Result<Option<LsxError>, CodecError>)
      modifies this`writerActive, this`handed
      ensures !old(writerActive) ==> !writerActive
      ensures reply.Failure? <==> !StandbySupported(standby)
      ensures reply.Success? ==> reply.value == SetReply(Exchange(closed, None, script).result)
      ensures handed == old(handed) +
                if !StandbySupported(standby) then []
                else Handed(closed, EncodeSetSource(source, standby, inverse, powerOn).value, script)
    {
      if StandbySupported(standby) {
        SourceRoundTrip(source, standby, inverse, powerOn);
      }
      var request := EncodeSetSource(source, standby, inverse, powerOn);
      if request.Failure? {
        return Failure(request.error);
      }
      var result, _ := AsyncExchange(request.value, None, script);
      return Success(SetReply(result));
    }

    method AsyncSetVolume(volume: int, muted: bool, script: Script)
      returns (reply: Result<Option<LsxError>, CodecError>)
      modifies this`writerActive, this`handed
      ensures !old(writerActive) ==> !writerActive
      ensures reply.Failure? <==> !(0 <= volume <= 100)
      ensures reply.Success? ==> reply.value == SetReply(Exchange(closed, None, script).result)
      ensures handed == old(handed) +
                if !(0 <= volume <= 100) then []
                else Handed(closed, [SET, VOLUME_REGISTER, SET_MARKER, volume + if muted then 0x80 else 0], script)
    {
      var request := EncodeSetVolume(volume, muted);
      if request.Failure? {
        return Failure(request.error);
      }
      var result, _ := AsyncExchange(request.value, None, script);
      return Success(SetReply(result));
    }
  }

  // ------------------------------------------------------------- properties

  /** No frame list prints to more than five bytes a frame. */
  lemma {:induction false} PrintSize(frames: seq<Frame>)
    ensures 3 * |frames| <= |Print(frames)| <= 5 * |frames|
  {
    if frames != [] {
      PrintSize(frames[1..]);
    }
  }

  lemma {:induction false} ExamineCounts(expected: Option<Byte>, frames: seq<Frame>, examined: nat)
    requires Examine(expected, frames, examined).Undecided?
    requires examined <= MAX_FRAMES_PER_EXCHANGE
    ensures Examine(expected, frames, examined).examined == examined + |frames| <= MAX_FRAMES_PER_EXCHANGE
    decreases |frames|
  {
    if frames != [] {
      ExamineCounts(expected, frames[1..], examined + 1);
    }
  }

  /** An undecided feed keeps less of the 84-byte budget than it found. */
  lemma FeedSpendsBudget(expected: Option<Byte>, buffer: Bytes, examined: nat, chunk: Chunk)
    requires IsResidue(buffer) && examined <= MAX_FRAMES_PER_EXCHANGE
    requires FeedOnce(DEFAULT_BUFFER_LIMIT, buffer, chunk).Parsed?
    requires var Parsed(frames, residue) := FeedOnce(DEFAULT_BUFFER_LIMIT, buffer, chunk);
             Examine(expected, frames, examined).Undecided?
    ensures var Parsed(frames, residue) := FeedOnce(DEFAULT_BUFFER_LIMIT, buffer, chunk);
            var seen := Examine(expected, frames, examined).examined;
            && IsResidue(residue) && seen <= MAX_FRAMES_PER_EXCHANGE
            && 5 * seen + |residue| >= 5 * examined + |buffer| + |chunk|
  {
    var Parsed(frames, residue) := Parse(buffer + chunk);
    ParseIsInverseOfPrint(buffer + chunk);
    PrintSize(frames);
    ExamineCounts(expected, frames, examined);
  }

  /** Sixteen five-byte frames and a four-byte residue leave room for 85 non-empty reads. */
  lemma {:induction false} ReadsAreBounded(
    expected: Option<Byte>, buffer: Bytes, examined: nat, chunks: seq<Chunk>, ending: Ending)
    requires IsResidue(buffer) && examined <= MAX_FRAMES_PER_EXCHANGE
    ensures ReadLoop(expected, buffer, examined, chunks, ending).readCount <= 85 - 5 * examined - |buffer|
    decreases |chunks|
  {
    if chunks != [] && FeedOnce(DEFAULT_BUFFER_LIMIT, buffer, chunks[0]).Parsed? {
      var Parsed(frames, residue) := FeedOnce(DEFAULT_BUFFER_LIMIT, buffer, chunks[0]);
      if Examine(expected, frames, examined).Undecided? {
        FeedSpendsBudget(expected, buffer, examined, chunks[0]);
        ReadsAreBounded(expected, residue, Examine(expected, frames, examined).examined, chunks[1..], ending);
      }
    }
  }

  lemma {:induction false} ReadLoopHasWritten(
    expected: Option<Byte>, buffer: Bytes, examined: nat, chunks: seq<Chunk>, ending: Ending)
    ensures var result := ReadLoop(expected, buffer, examined, chunks, ending).result;
            result.Failed? ==> result.error.writeAttempted
    decreases |chunks|
  {
    if chunks != [] {
      match FeedOnce(DEFAULT_BUFFER_LIMIT, buffer, chunks[0])
      case Malformed =>
      case Parsed(frames, residue) =>
        ExamineHasWritten(expected, frames, examined);
        match Examine(expected, frames, examined)
        case Decided(_) =>
        case Undecided(seen) => ReadLoopHasWritten(expected, residue, seen, chunks[1..], ending);
    }
  }

  lemma {:induction false} ExamineHasWritten(expected: Option<Byte>, frames: seq<Frame>, examined: nat)
    ensures match Examine(expected, frames, examined)
            case Decided(result) => result.Failed? ==> result.error.writeAttempted
            case Undecided(_) => true
  {
    if frames != [] {
      ExamineHasWritten(expected, frames[1..], examined + 1);
    }
  }

  /** An exchange's error says whether bytes were handed over: exactly when a connection was opened. */
  lemma WriteFlagIsExact(closed: bool, expected: Option<Byte>, script: Script)
    ensures var result := Exchange(closed, expected, script).result;
            && (result.Failed? ==> (result.error.writeAttempted <==> !closed && script.opening.Opened?))
            && (!result.Failed? ==> !closed && script.opening.Opened?)
  {
    ReadLoopHasWritten(expected, [], 0, script.chunks, script.ending);
  }

  /** The simple scan the read loop refines: look at the whole frame list at once. */
  function Scan(expected: Option<Byte>, frames: seq<Frame>, examined: nat, pending: bool, ending: Ending)
    : ExchangeResult
  {
    match Examine(expected, frames, examined)
    case Decided(result) => result
    case Undecided(_) => Failed(LsxError(EndingFault(ending, pending), true))
  }

  lemma {:induction false} ExamineConcat(expected: Option<Byte>, a: seq<Frame>, b: seq<Frame>, examined: nat)
    ensures Examine(expected, a + b, examined)
         == match Examine(expected, a, examined)
            case Decided(result) => Decided(result)
            case Undecided(seen) => Examine(expected, b, seen)
    decreases |a|
  {
    if a == [] {
      assert a + b == b;
    } else {
      assert (a + b)[1..] == a[1..] + b;
      ExamineConcat(expected, a[1..], b, examined + 1);
    }
  }

  /** One read of a well-formed stream: the scan goes on from the residue. */
  lemma ScanAfterRead(expected: Option<Byte>, head: Bytes, tail: Bytes, examined: nat, ending: Ending)
    requires Parse(head + tail).Parsed?
    ensures Parse(head).Parsed? && Parse(Parse(head).residue + tail).Parsed?
    ensures Parse(head + tail) == After(Parse(head).frames, Parse(Parse(head).residue + tail))
    ensures var Parsed(frames, residue) := Parse(head + tail);
            Scan(expected, frames, examined, residue != [], ending)
              == match Examine(expected, Parse(head).frames, examined)
                 case Decided(result) => result
                 case Undecided(seen) =>
                   Scan(expected, Parse(Parse(head).residue + tail).frames, seen, residue != [], ending)
  {
    ParseConcat(head, tail);
    ExamineConcat(expected, Parse(head).frames, Parse(Parse(head).residue + tail).frames, examined);
  }

  /** The buffer limit is never reached from here: a feed fails only on its framing. */
  lemma OverflowIsUnreachable(buffer: Bytes, chunk: Chunk)
    requires IsResidue(buffer)
    ensures FeedOnce(DEFAULT_BUFFER_LIMIT, buffer, chunk) == Parse(buffer + chunk)
  {
    assert |buffer + chunk| <= 4 + READ_SIZE;
  }

  /** What the first read of an exchange comes to. */
  lemma FirstRead(expected: Option<Byte>, buffer: Bytes, examined: nat, chunks: seq<Chunk>, ending: Ending)
    requires chunks != [] && IsResidue(buffer)
    ensures var result := ReadLoop(expected, buffer, examined, chunks, ending).result;
            var fed := Parse(buffer + chunks[0]);
            if fed.Malformed? then result == Failed(LsxError(MalformedReply, true))
            else
              var examination := Examine(expected, fed.frames, examined);
              if examination.Decided? then result == examination.result
              else result == ReadLoop(expected, fed.residue, examination.examined, chunks[1..], ending).result
  {
    OverflowIsUnreachable(buffer, chunks[0]);
  }

  /** The stream from the residue on is the first read and what the other reads bring. */
  lemma StreamAfterRead(buffer: Bytes, chunks: seq<Chunk>)
    requires chunks != []
    ensures buffer + Flatten(chunks) == (buffer + chunks[0]) + Flatten(chunks[1..])
  {
  }

  lemma NothingToRead(buffer: Bytes)
    requires IsResidue(buffer)
    ensures buffer + Flatten([]) == buffer && Parse(buffer) == Parsed([], buffer)
  {
    NoFirstFrame(buffer);
    ParsePrint([], buffer);
    assert Print([]) + buffer == buffer;
  }

  lemma {:induction false} LoopRefinesScanFrom(
    expected: Option<Byte>, buffer: Bytes, examined: nat, chunks: seq<Chunk>, ending: Ending)
    requires IsResidue(buffer) && examined <= MAX_FRAMES_PER_EXCHANGE
    requires Parse(buffer + Flatten(chunks)).Parsed?
    ensures var Parsed(frames, residue) := Parse(buffer + Flatten(chunks));
            ReadLoop(expected, buffer, examined, chunks, ending).result
              == Scan(expected, frames, examined, residue != [], ending)
    decreases |chunks|
  {
    if chunks == [] {
      NothingToRead(buffer);
    } else {
      var head, tail := buffer + chunks[0], Flatten(chunks[1..]);
      StreamAfterRead(buffer, chunks);
      ScanAfterRead(expected, head, tail, examined, ending);
      FirstRead(expected, buffer, examined, chunks, ending);
      if Examine(expected, Parse(head).frames, examined).Undecided? {
        FeedSpendsBudget(expected, buffer, examined, chunks[0]);
        var seen := Examine(expected, Parse(head).frames, examined).examined;
        LoopRefinesScanFrom(expected, Parse(head).residue, seen, chunks[1..], ending);
      }
    }
  }

  /**
   * For every stream that is a list of frames and at most one incomplete frame, cut into
   * reads in any way, the exchange returns what a scan of the frame list returns.
   */
  lemma LoopRefinesScan(expected: Option<Byte>, frames: seq<Frame>, residue: Bytes, chunks: seq<Chunk>, ending: Ending)
    requires IsResidue(residue) && Flatten(chunks) == Print(frames) + residue
    ensures ReadLoop(expected, [], 0, chunks, ending).result == Scan(expected, frames, 0, residue != [], ending)
  {
    ParsePrint(frames, residue);
    assert [] + Flatten(chunks) == Flatten(chunks);
    LoopRefinesScanFrom(expected, [], 0, chunks, ending);
  }

  /** The scan is decided by the first deciding frame, when that is among the first sixteen. */
  lemma {:induction false} FirstVerdictDecides(
    expected: Option<Byte>, frames: seq<Frame>, examined: nat, i: nat, pending: bool, ending: Ending)
    requires i < |frames| && examined + i < MAX_FRAMES_PER_EXCHANGE
    requires Verdict(expected, frames[i]).Some?
    requires forall j :: 0 <= j < i ==> Verdict(expected, frames[j]).None?
    ensures Scan(expected, frames, examined, pending, ending) == Verdict(expected, frames[i]).value
    decreases i
  {
    if i > 0 {
      assert Verdict(expected, frames[0]).None?;
      FirstVerdictDecides(expected, frames[1..], examined + 1, i - 1, pending, ending);
    }
  }

  /** With no verdict in the first sixteen frames a seventeenth is refused, else the ending decides. */
  lemma {:induction false} NoVerdictInSixteen(
    expected: Option<Byte>, frames: seq<Frame>, examined: nat, pending: bool, ending: Ending)
    requires examined <= MAX_FRAMES_PER_EXCHANGE
    requires forall j :: 0 <= j < |frames| && examined + j < MAX_FRAMES_PER_EXCHANGE ==>
               Verdict(expected, frames[j]).None?
    ensures Scan(expected, frames, examined, pending, ending)
         == if examined + |frames| > MAX_FRAMES_PER_EXCHANGE then Failed(LsxError(MalformedReply, true))
            else Failed(LsxError(EndingFault(ending, pending), true))
    decreases |frames|
  {
    if frames != [] && examined < MAX_FRAMES_PER_EXCHANGE {
      assert Verdict(expected, frames[0]).None?;
      NoVerdictInSixteen(expected, frames[1..], examined + 1, pending, ending);
    }
  }

  /** Two reads of the same well-formed stream agree, however each was cut. */
  lemma ChunkingIsIrrelevant(expected: Option<Byte>, a: seq<Chunk>, b: seq<Chunk>, ending: Ending)
    requires Flatten(a) == Flatten(b) && Parse(Flatten(a)).Parsed?
    ensures ReadLoop(expected, [], 0, a, ending).result == ReadLoop(expected, [], 0, b, ending).result
  {
    ParseIsInverseOfPrint(Flatten(a));
    var Parsed(frames, residue) := Parse(Flatten(a));
    LoopRefinesScan(expected, frames, residue, a, ending);
    LoopRefinesScan(expected, frames, residue, b, ending);
  }
}
