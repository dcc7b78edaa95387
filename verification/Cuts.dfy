/** When the way a reply is cut into reads matters: a framing error read together with the verdict. */
module Cuts {
  import opened Wrappers
  import opened Protocol
  import opened Client

  const MALFORMED_FAILURE := Failed(LsxError(MalformedReply, true))

  /** The complete frames in front of the first framing error. */
  function FramesBeforeError(bytes: Bytes): seq<Frame> {
    match FirstFrame(bytes)
    case None => []
    case Some(frame) => [frame] + FramesBeforeError(bytes[|PrintFrame(frame)|..])
  }

  /** `bytes` is the print of `frames`, then bytes at which framing fails at once. */
  predicate BreaksAfter(bytes: Bytes, frames: seq<Frame>, rest: Bytes) {
    bytes == Print(frames) + rest && FirstFrame(rest).None? && Parse(rest).Malformed?
  }

  lemma {:induction false} FramesBeforeErrorBreaks(bytes: Bytes) returns (rest: Bytes)
    requires Parse(bytes).Malformed?
    ensures BreaksAfter(bytes, FramesBeforeError(bytes), rest)
  {
    match FirstFrame(bytes)
    case None =>
      rest := bytes;
    case Some(frame) =>
      var next := bytes[|PrintFrame(frame)|..];
      assert bytes == PrintFrame(frame) + next;
      ParseOneFrame(frame, next);
      rest := FramesBeforeErrorBreaks(next);
      PrintCons(frame, FramesBeforeError(next), rest);
  }

  lemma FirstFrameOfPrint(frame: Frame, rest: Bytes)
    ensures FirstFrame(PrintFrame(frame) + rest) == Some(frame)
  {
  }

  lemma SameFirstFrame(a: Frame, restA: Bytes, b: Frame, restB: Bytes)
    requires PrintFrame(a) + restA == PrintFrame(b) + restB
    ensures a == b && restA == restB
  {
    FirstFrameOfPrint(a, restA);
    FirstFrameOfPrint(b, restB);
    assert restA == (PrintFrame(a) + restA)[|PrintFrame(a)|..];
    assert restB == (PrintFrame(b) + restB)[|PrintFrame(b)|..];
  }

  lemma BreakAfterOneFrame(frame: Frame, tail: Bytes, frames: seq<Frame>, rest: Bytes)
    requires PrintFrame(frame) + tail == Print(frames) + rest && FirstFrame(rest).None?
    ensures frames != [] && frames[0] == frame && tail == Print(frames[1..]) + rest
  {
    FirstFrameOfPrint(frame, tail);
    assert Print([]) + rest == rest;
    assert frames != [] && frames == [frames[0]] + frames[1..];
    PrintCons(frames[0], frames[1..], rest);
    SameFirstFrame(frame, tail, frames[0], Print(frames[1..]) + rest);
  }

  /** The frames of a parsed prefix are the first of the frames before the error. */
  lemma {:induction false} BreakIsAfterPrefix(
    first: seq<Frame>, tail: Bytes, frames: seq<Frame>, rest: Bytes) returns (more: seq<Frame>)
    requires Print(first) + tail == Print(frames) + rest && FirstFrame(rest).None?
    ensures frames == first + more && tail == Print(more) + rest
  {
    if first == [] {
      assert Print(first) + tail == tail;
      more := frames;
    } else {
      assert first == [first[0]] + first[1..];
      PrintCons(first[0], first[1..], tail);
      BreakAfterOneFrame(first[0], Print(first[1..]) + tail, frames, rest);
      more := BreakIsAfterPrefix(first[1..], tail, frames[1..], rest);
    }
  }

  /** Reading a well-formed head leaves a stream that breaks after the remaining frames. */
  lemma BreakSurvivesRead(
    first: seq<Frame>, residue: Bytes, tail: Bytes, stream: Bytes, frames: seq<Frame>, rest: Bytes)
    returns (more: seq<Frame>)
    requires stream == (Print(first) + residue) + tail && BreaksAfter(stream, frames, rest)
    ensures frames == first + more && BreaksAfter(residue + tail, more, rest)
  {
    assert stream == Print(first) + (residue + tail);
    more := BreakIsAfterPrefix(first, residue + tail, frames, rest);
  }

  /** One read of a breaking stream that parses leaves a breaking stream. */
  lemma BreakAfterRead(head: Bytes, tail: Bytes, frames: seq<Frame>, rest: Bytes) returns (more: seq<Frame>)
    requires Parse(head).Parsed? && Parse(head + tail).Malformed? && BreaksAfter(head + tail, frames, rest)
    ensures frames == Parse(head).frames + more
    ensures Parse(Parse(head).residue + tail).Malformed? && BreaksAfter(Parse(head).residue + tail, more, rest)
  {
    ParseConcat(head, tail);
    ParseIsInverseOfPrint(head);
    more := BreakSurvivesRead(Parse(head).frames, Parse(head).residue, tail, head + tail, frames, rest);
  }

  lemma {:induction false} MalformedStreamFrom(
    expected: Option<Byte>, buffer: Bytes, examined: nat, chunks: seq<Chunk>, ending: Ending,
    frames: seq<Frame>, rest: Bytes)
    requires IsResidue(buffer) && examined <= MAX_FRAMES_PER_EXCHANGE
    requires Parse(buffer + Flatten(chunks)).Malformed? && BreaksAfter(buffer + Flatten(chunks), frames, rest)
    ensures var result := ReadLoop(expected, buffer, examined, chunks, ending).result;
            result == MALFORMED_FAILURE || Examine(expected, frames, examined) == Decided(result)
    decreases |chunks|
  {
    assert buffer + [] == buffer;
    if chunks != [] {
      var head, tail := buffer + chunks[0], Flatten(chunks[1..]);
      StreamAfterRead(buffer, chunks);
      FirstRead(expected, buffer, examined, chunks, ending);
      if Parse(head).Parsed? {
        var more := BreakAfterRead(head, tail, frames, rest);
        ExamineConcat(expected, Parse(head).frames, more, examined);
        if Examine(expected, Parse(head).frames, examined).Undecided? {
          FeedSpendsBudget(expected, buffer, examined, chunks[0]);
          var seen := Examine(expected, Parse(head).frames, examined).examined;
          MalformedStreamFrom(expected, Parse(head).residue, seen, chunks[1..], ending, more, rest);
        }
      }
    }
  }

  // ------------------------------------------------------------- where it matters

  /** The bytes up to and with the first frame that decides. */
  function VerdictEnd(expected: Option<Byte>, frames: seq<Frame>): nat {
    if frames == [] then 0
    else
      |PrintFrame(frames[0])|
        + if Verdict(expected, frames[0]).Some? then 0 else VerdictEnd(expected, frames[1..])
  }

  /** How far a read can get that still brings the last byte of the deciding one of these frames. */
  function Near(expected: Option<Byte>, size: nat, frames: seq<Frame>): (near: nat)
    ensures near <= size
  {
    var far := VerdictEnd(expected, frames) + READ_SIZE - 1;
    if far < size then far else size
  }

  /** ... and the same for a stream that breaks. */
  function Reach(expected: Option<Byte>, stream: Bytes): (reach: nat)
    ensures reach <= |stream|
  {
    Near(expected, |stream|, FramesBeforeError(stream))
  }

  /** A framing error follows a verdict other than "malformed", and one read can bring both. */
  predicate CutsMatter(expected: Option<Byte>, stream: Bytes) {
    && Parse(stream).Malformed?
    && Examine(expected, FramesBeforeError(stream), 0).Decided?
    && Examine(expected, FramesBeforeError(stream), 0).result != MALFORMED_FAILURE
    && Parse(stream[..Reach(expected, stream)]).Malformed?
  }

  lemma {:induction false} VerdictEndConcat(expected: Option<Byte>, a: seq<Frame>, b: seq<Frame>, examined: nat)
    requires Examine(expected, a, examined).Undecided?
    ensures VerdictEnd(expected, a + b) == |Print(a)| + VerdictEnd(expected, b)
    decreases |a|
  {
    if a == [] {
      assert a + b == b;
    } else {
      assert (a + b)[1..] == a[1..] + b;
      VerdictEndConcat(expected, a[1..], b, examined + 1);
    }
  }

  /** An incomplete frame is shorter than the frame it is the front of. */
  lemma ResidueIsShort(residue: Bytes, tail: Bytes, frame: Frame, rest: Bytes)
    requires IsResidue(residue) && residue + tail == PrintFrame(frame) + rest
    ensures |residue| < |PrintFrame(frame)|
  {
    if |residue| >= 3 {
      assert residue[2] == (residue + tail)[2] == PrintFrame(frame)[2];
    }
  }

  lemma PrefixParses(whole: Bytes, front: Bytes)
    requires front <= whole && Parse(whole).Parsed?
    ensures Parse(front).Parsed?
  {
    assert whole == front + whole[|front|..];
    ParseConcat(front, whole[|front|..]);
  }

  /** Reading frames off the front leaves the rest of a parsing prefix parsing. */
  lemma PrefixAfterFrames(stream: Bytes, first: seq<Frame>, rest: Bytes, reach: nat)
    requires stream == Print(first) + rest && |Print(first)| <= reach <= |stream|
    requires Parse(stream[..reach]).Parsed?
    ensures Parse(rest[..reach - |Print(first)|]).Parsed?
  {
    var front := rest[..reach - |Print(first)|];
    assert stream[..reach] == Print(first) + front;
    ParsePrint(first, []);
    assert Print(first) + [] == Print(first) && [] + front == front;
    ParseConcat(Print(first), front);
  }

  /** What is known of a breaking stream whose verdict comes in time. */
  predicate InTime(expected: Option<Byte>, stream: Bytes, frames: seq<Frame>, rest: Bytes) {
    && Parse(stream).Malformed? && BreaksAfter(stream, frames, rest)
    && Parse(stream[..Near(expected, |stream|, frames)]).Parsed?
  }

  lemma Reassociate(a: Bytes, b: Bytes, c: Bytes)
    ensures (a + b) + c == a + (b + c)
  {
  }

  lemma FrontOfPrefix(head: Bytes, tail: Bytes, reach: nat)
    requires |head| <= reach <= |head + tail|
    ensures head <= (head + tail)[..reach]
  {
  }

  /** What is held before a read is less than the first frame to come. */
  lemma BufferIsShort(buffer: Bytes, tail: Bytes, frames: seq<Frame>, rest: Bytes)
    requires IsResidue(buffer) && frames != [] && buffer + tail == Print(frames) + rest
    ensures |buffer| < |PrintFrame(frames[0])|
  {
    assert frames == [frames[0]] + frames[1..];
    PrintCons(frames[0], frames[1..], rest);
    ResidueIsShort(buffer, tail, frames[0], Print(frames[1..]) + rest);
  }

  /** One read of such a stream parses. */
  lemma ReadInTime(
    expected: Option<Byte>, buffer: Bytes, chunk: Chunk, tail: Bytes, frames: seq<Frame>, rest: Bytes)
    requires IsResidue(buffer) && frames != [] && InTime(expected, (buffer + chunk) + tail, frames, rest)
    ensures Parse(buffer + chunk).Parsed?
  {
    var stream := (buffer + chunk) + tail;
    var near := Near(expected, |stream|, frames);
    Reassociate(buffer, chunk, tail);
    BufferIsShort(buffer, chunk + tail, frames, rest);
    FrontOfPrefix(buffer + chunk, tail, near);
    PrefixParses(stream[..near], buffer + chunk);
  }

  /** ... and without a verdict in it, the verdict still comes in time. */
  lemma StillInTime(
    expected: Option<Byte>, head: Bytes, tail: Bytes, examined: nat, frames: seq<Frame>, more: seq<Frame>, rest: Bytes)
    requires InTime(expected, head + tail, frames, rest) && Parse(head).Parsed?
    requires frames == Parse(head).frames + more && Examine(expected, Parse(head).frames, examined).Undecided?
    requires Parse(Parse(head).residue + tail).Malformed? && BreaksAfter(Parse(head).residue + tail, more, rest)
    ensures InTime(expected, Parse(head).residue + tail, more, rest)
  {
    var first, next := Parse(head).frames, Parse(head).residue + tail;
    ParseIsInverseOfPrint(head);
    Reassociate(Print(first), Parse(head).residue, tail);
    VerdictEndConcat(expected, first, more, examined);
    NearAfterFrames(expected, head + tail, first, next, more);
  }

  lemma NearAfterFrames(expected: Option<Byte>, stream: Bytes, first: seq<Frame>, next: Bytes, more: seq<Frame>)
    requires stream == Print(first) + next
    requires VerdictEnd(expected, first + more) == |Print(first)| + VerdictEnd(expected, more)
    requires Parse(stream[..Near(expected, |stream|, first + more)]).Parsed?
    ensures Parse(next[..Near(expected, |next|, more)]).Parsed?
  {
    PrefixAfterFrames(stream, first, next, Near(expected, |stream|, first + more));
  }

  lemma {:induction false} DecidedInTime(
    expected: Option<Byte>, buffer: Bytes, examined: nat, chunks: seq<Chunk>, ending: Ending,
    frames: seq<Frame>, rest: Bytes)
    requires IsResidue(buffer) && examined <= MAX_FRAMES_PER_EXCHANGE
    requires InTime(expected, buffer + Flatten(chunks), frames, rest) && Examine(expected, frames, examined).Decided?
    ensures ReadLoop(expected, buffer, examined, chunks, ending).result == Examine(expected, frames, examined).result
    decreases |chunks|
  {
    if chunks == [] {
      NothingToRead(buffer);
    } else {
      var head, tail := buffer + chunks[0], Flatten(chunks[1..]);
      StreamAfterRead(buffer, chunks);
      ReadInTime(expected, buffer, chunks[0], tail, frames, rest);
      FirstRead(expected, buffer, examined, chunks, ending);
      var more := BreakAfterRead(head, tail, frames, rest);
      ExamineConcat(expected, Parse(head).frames, more, examined);
      if Examine(expected, Parse(head).frames, examined).Undecided? {
        FeedSpendsBudget(expected, buffer, examined, chunks[0]);
        StillInTime(expected, head, tail, examined, frames, more, rest);
        var seen := Examine(expected, Parse(head).frames, examined).examined;
        DecidedInTime(expected, Parse(head).residue, seen, chunks[1..], ending, more, rest);
      }
    }
  }

  /** What every cutting of a stream gives where the cuts do not matter. */
  lemma EveryCutting(expected: Option<Byte>, chunks: seq<Chunk>, ending: Ending)
    requires Parse(Flatten(chunks)).Malformed? && !CutsMatter(expected, Flatten(chunks))
    ensures var examination := Examine(expected, FramesBeforeError(Flatten(chunks)), 0);
            ReadLoop(expected, [], 0, chunks, ending).result
              == if examination.Decided? then examination.result else MALFORMED_FAILURE
  {
    var stream := Flatten(chunks);
    var frames := FramesBeforeError(stream);
    var rest := FramesBeforeErrorBreaks(stream);
    assert [] + stream == stream;
    MalformedStreamFrom(expected, [], 0, chunks, ending, frames, rest);
    if Examine(expected, frames, 0).Decided? && Examine(expected, frames, 0).result != MALFORMED_FAILURE {
      DecidedInTime(expected, [], 0, chunks, ending, frames, rest);
    }
  }

  /** Cuts are harmless outside that case, for streams of any length. */
  lemma CutsAreHarmless(expected: Option<Byte>, a: seq<Chunk>, b: seq<Chunk>, ending: Ending)
    requires Flatten(a) == Flatten(b) && !CutsMatter(expected, Flatten(a))
    ensures ReadLoop(expected, [], 0, a, ending).result == ReadLoop(expected, [], 0, b, ending).result
  {
    if Parse(Flatten(a)).Parsed? {
      ChunkingIsIrrelevant(expected, a, b, ending);
    } else {
      EveryCutting(expected, a, ending);
      EveryCutting(expected, b, ending);
    }
  }

  // --------------------------------------------------------------- how it matters

  /** One read a byte. */
  function Singles(bytes: Bytes): seq<Chunk> {
    if bytes == [] then [] else [[bytes[0]]] + Singles(bytes[1..])
  }

  lemma {:induction false} FlattenSingles(bytes: Bytes)
    ensures Flatten(Singles(bytes)) == bytes
  {
    if bytes != [] {
      FlattenSingles(bytes[1..]);
      assert Singles(bytes)[1..] == Singles(bytes[1..]);
    }
  }

  lemma {:induction false} FlattenConcat(a: seq<Chunk>, b: seq<Chunk>)
    ensures Flatten(a + b) == Flatten(a) + Flatten(b)
    decreases |a|
  {
    if a == [] {
      assert a + b == b;
    } else {
      assert (a + b)[1..] == a[1..] + b;
      FlattenConcat(a[1..], b);
    }
  }

  /** What is parsed and examined of several reads, by the first of them. */
  lemma ReadsByFirst(expected: Option<Byte>, buffer: Bytes, examined: nat, chunks: seq<Chunk>)
    requires chunks != [] && Parse(buffer + Flatten(chunks)).Parsed?
    ensures var fed, head := Parse(buffer + Flatten(chunks)), Parse(buffer + chunks[0]);
            && head.Parsed?
            && var rest := Parse(head.residue + Flatten(chunks[1..]));
               && rest.Parsed? && fed.residue == rest.residue
               && Examine(expected, fed.frames, examined)
                    == match Examine(expected, head.frames, examined)
                       case Decided(result) => Decided(result)
                       case Undecided(seen) => Examine(expected, rest.frames, seen)
  {
    var head, tail := buffer + chunks[0], Flatten(chunks[1..]);
    StreamAfterRead(buffer, chunks);
    ParseConcat(head, tail);
    ExamineConcat(expected, Parse(head).frames, Parse(Parse(head).residue + tail).frames, examined);
  }

  /** Reads whose bytes parse are a scan of their frames, whatever is read after them. */
  lemma {:induction false} ReadsGoOn(
    expected: Option<Byte>, buffer: Bytes, examined: nat, first: seq<Chunk>, more: seq<Chunk>, ending: Ending)
    requires IsResidue(buffer) && examined <= MAX_FRAMES_PER_EXCHANGE
    requires Parse(buffer + Flatten(first)).Parsed?
    ensures var fed := Parse(buffer + Flatten(first));
            var examination := Examine(expected, fed.frames, examined);
            ReadLoop(expected, buffer, examined, first + more, ending).result
              == if examination.Decided? then examination.result
                 else ReadLoop(expected, fed.residue, examination.examined, more, ending).result
    decreases |first|
  {
    if first == [] {
      NothingToRead(buffer);
      assert first + more == more;
    } else {
      var head := Parse(buffer + first[0]);
      ReadsByFirst(expected, buffer, examined, first);
      assert (first + more)[0] == first[0] && (first + more)[1..] == first[1..] + more;
      FirstRead(expected, buffer, examined, first + more, ending);
      if Examine(expected, head.frames, examined).Undecided? {
        var seen := Examine(expected, head.frames, examined).examined;
        FeedSpendsBudget(expected, buffer, examined, first[0]);
        ReadsGoOn(expected, head.residue, seen, first[1..], more, ending);
      }
    }
  }

  /** The frames in front of the deciding one, that frame, and the others. */
  lemma {:induction false} SplitAtVerdict(expected: Option<Byte>, frames: seq<Frame>, examined: nat)
    returns (before: seq<Frame>, frame: Frame, more: seq<Frame>)
    requires Examine(expected, frames, examined).Decided?
    requires Examine(expected, frames, examined).result != MALFORMED_FAILURE
    ensures frames == before + ([frame] + more) && Verdict(expected, frame).Some?
    ensures Examine(expected, before, examined).Undecided?
    ensures Examine(expected, before + [frame], examined) == Examine(expected, frames, examined)
    decreases |frames|
  {
    if Verdict(expected, frames[0]).Some? {
      before, frame, more := [], frames[0], frames[1..];
      assert before + [frame] == [frame];
    } else {
      var front;
      front, frame, more := SplitAtVerdict(expected, frames[1..], examined + 1);
      before := [frames[0]] + front;
      assert before[1..] == front && (before + [frame])[1..] == front + [frame];
      assert frames == [frames[0]] + frames[1..];
    }
  }

  /** Everything about the deciding frame that the two cuttings need. */
  predicate DecidedBy(
    expected: Option<Byte>, stream: Bytes, before: seq<Frame>, frame: Frame, after: Bytes, result: ExchangeResult)
  {
    && stream == Print(before) + (PrintFrame(frame) + after)
    && Examine(expected, before, 0).Undecided?
    && Examine(expected, before + [frame], 0) == Decided(result)
    && VerdictEnd(expected, FramesBeforeError(stream)) == |Print(before)| + |PrintFrame(frame)|
  }

  lemma {:induction false} PrintConcat(a: seq<Frame>, b: seq<Frame>)
    ensures Print(a + b) == Print(a) + Print(b)
    decreases |a|
  {
    if a == [] {
      assert a + b == b;
    } else {
      assert (a + b)[1..] == a[1..] + b;
      PrintConcat(a[1..], b);
    }
  }

  lemma FindVerdict(expected: Option<Byte>, stream: Bytes)
    returns (before: seq<Frame>, frame: Frame, after: Bytes, result: ExchangeResult)
    requires CutsMatter(expected, stream)
    ensures DecidedBy(expected, stream, before, frame, after, result) && result != MALFORMED_FAILURE
  {
    var frames := FramesBeforeError(stream);
    var rest := FramesBeforeErrorBreaks(stream);
    result := Examine(expected, frames, 0).result;
    var more;
    before, frame, more := SplitAtVerdict(expected, frames, 0);
    VerdictEndConcat(expected, before, [frame] + more, 0);
    PrintConcat(before, [frame] + more);
    PrintCons(frame, more, rest);
    Reassociate(Print(before), Print([frame] + more), rest);
    after := Print(more) + rest;
  }

  lemma FrontParses(before: seq<Frame>, frame: Frame)
    ensures Parse(Print(before) + PrintFrame(frame)) == Parsed(before + [frame], [])
  {
    PrintConcat(before, [frame]);
    assert [frame][1..] == [] && PrintFrame(frame) + Print([]) == PrintFrame(frame);
    ParsePrint(before + [frame], []);
    assert Print(before + [frame]) + [] == Print(before + [frame]);
  }

  /** The cutting `Singles(front)`, then `back`, seen from the end of `front`. */
  lemma AfterSingles(expected: Option<Byte>, front: Bytes, back: seq<Chunk>, ending: Ending)
    requires Parse(front).Parsed?
    ensures Flatten(Singles(front) + back) == front + Flatten(back)
    ensures var fed := Parse(front);
            var examination := Examine(expected, fed.frames, 0);
            ReadLoop(expected, [], 0, Singles(front) + back, ending).result
              == if examination.Decided? then examination.result
                 else ReadLoop(expected, fed.residue, examination.examined, back, ending).result
  {
    FlattenSingles(front);
    FlattenConcat(Singles(front), back);
    assert [] + front == front;
    ReadsGoOn(expected, [], 0, Singles(front), back, ending);
  }

  lemma CutAfterVerdict(
    expected: Option<Byte>, stream: Bytes, before: seq<Frame>, frame: Frame, after: Bytes, result: ExchangeResult,
    ending: Ending) returns (chunks: seq<Chunk>)
    requires DecidedBy(expected, stream, before, frame, after, result)
    ensures Flatten(chunks) == stream && ReadLoop(expected, [], 0, chunks, ending).result == result
  {
    var front := Print(before) + PrintFrame(frame);
    FrontParses(before, frame);
    FlattenSingles(after);
    AfterSingles(expected, front, Singles(after), ending);
    Reassociate(Print(before), PrintFrame(frame), after);
    chunks := Singles(front) + Singles(after);
  }

  /** A stream up to `reach`, cut in front of the last byte of its second part. */
  lemma CutInside(stream: Bytes, first: Bytes, second: Bytes, after: Bytes, reach: nat)
    requires stream == first + (second + after) && |second| > 0 && |first| + |second| <= reach <= |stream|
    ensures var cut := |first| + |second| - 1;
            && stream[..reach] == first + (second[..|second| - 1] + stream[cut..reach])
            && stream == (first + second[..|second| - 1]) + (stream[cut..reach] + stream[reach..])
  {
    var cut := |first| + |second| - 1;
    assert stream[..cut] == first + second[..|second| - 1];
    assert stream == stream[..cut] + (stream[cut..reach] + stream[reach..]);
    assert stream[..reach] == stream[..cut] + stream[cut..reach];
    Reassociate(first, second[..|second| - 1], stream[cut..reach]);
  }

  lemma ErrorAfterFrames(frames: seq<Frame>, rest: Bytes)
    requires Parse(Print(frames) + rest).Malformed?
    ensures Parse(rest).Malformed?
  {
    ParsePrint(frames, []);
    assert Print(frames) + [] == Print(frames) && [] + rest == rest;
    ParseConcat(Print(frames), rest);
  }

  /** The read that brings the last byte of the deciding frame brings the error too. */
  lemma ErrorInOneRead(
    expected: Option<Byte>, seen: nat, before: seq<Frame>, frame: Frame, joint: Chunk, more: seq<Chunk>, ending: Ending)
    requires var residue := PrintFrame(frame)[..|PrintFrame(frame)| - 1];
             Parse(Print(before) + (residue + joint)).Malformed?
    ensures var residue := PrintFrame(frame)[..|PrintFrame(frame)| - 1];
            ReadLoop(expected, residue, seen, [joint] + more, ending).result == MALFORMED_FAILURE
  {
    var residue := PrintFrame(frame)[..|PrintFrame(frame)| - 1];
    ErrorAfterFrames(before, residue + joint);
    FirstRead(expected, residue, seen, [joint] + more, ending);
  }

  /** Single bytes up to the last byte of the deciding frame, one read that brings it and the error, and the rest. */
  lemma JointRead(
    expected: Option<Byte>, before: seq<Frame>, frame: Frame, joint: Chunk, rest: Bytes, ending: Ending)
    requires Examine(expected, before, 0).Undecided?
    requires var residue := PrintFrame(frame)[..|PrintFrame(frame)| - 1];
             Parse(Print(before) + (residue + joint)).Malformed?
    ensures var front := Print(before) + PrintFrame(frame)[..|PrintFrame(frame)| - 1];
            ReadLoop(expected, [], 0, Singles(front) + ([joint] + Singles(rest)), ending).result == MALFORMED_FAILURE
  {
    var residue := PrintFrame(frame)[..|PrintFrame(frame)| - 1];
    ParsePrint(before, residue);
    AfterSingles(expected, Print(before) + residue, [joint] + Singles(rest), ending);
    ErrorInOneRead(
      expected, Examine(expected, before, 0).examined, before, frame, joint, Singles(rest), ending);
  }

  lemma JointFlattens(front: Bytes, joint: Chunk, rest: Bytes)
    ensures Flatten(Singles(front) + ([joint] + Singles(rest))) == front + (joint + rest)
  {
    FlattenSingles(front);
    FlattenSingles(rest);
    FlattenConcat(Singles(front), [joint] + Singles(rest));
    assert ([joint] + Singles(rest))[1..] == Singles(rest);
  }

  lemma CutBeforeVerdict(
    expected: Option<Byte>, stream: Bytes, before: seq<Frame>, frame: Frame, after: Bytes, result: ExchangeResult,
    ending: Ending) returns (chunks: seq<Chunk>)
    requires DecidedBy(expected, stream, before, frame, after, result) && CutsMatter(expected, stream)
    ensures Flatten(chunks) == stream && ReadLoop(expected, [], 0, chunks, ending).result == MALFORMED_FAILURE
  {
    var reach := Reach(expected, stream);
    var front := Print(before) + PrintFrame(frame)[..|PrintFrame(frame)| - 1];
    CutInside(stream, Print(before), PrintFrame(frame), after, reach);
    var joint: Chunk := stream[|Print(before)| + |PrintFrame(frame)| - 1..reach];
    JointRead(expected, before, frame, joint, stream[reach..], ending);
    JointFlattens(front, joint, stream[reach..]);
    chunks := Singles(front) + ([joint] + Singles(stream[reach..]));
  }

  /** The stream can be cut in two ways that give different outcomes. */
  predicate Differ(expected: Option<Byte>, stream: Bytes, a: seq<Chunk>, b: seq<Chunk>, ending: Ending) {
    && Flatten(a) == Flatten(b) == stream
    && ReadLoop(expected, [], 0, a, ending).result != ReadLoop(expected, [], 0, b, ending).result
  }

  /** For every stream: two cuttings give different outcomes exactly in that case. */
  lemma CutsMatterExactly(expected: Option<Byte>, stream: Bytes, ending: Ending)
    ensures CutsMatter(expected, stream)
       <==> exists a: seq<Chunk>, b: seq<Chunk> :: Differ(expected, stream, a, b, ending)
  {
    if CutsMatter(expected, stream) {
      var before, frame, after, result := FindVerdict(expected, stream);
      var a := CutBeforeVerdict(expected, stream, before, frame, after, result, ending);
      var b := CutAfterVerdict(expected, stream, before, frame, after, result, ending);
      assert Differ(expected, stream, a, b, ending);
    } else {
      forall a: seq<Chunk>, b: seq<Chunk> | Flatten(a) == Flatten(b) == stream
        ensures !Differ(expected, stream, a, b, ending)
      {
        CutsAreHarmless(expected, a, b, ending);
      }
    }
  }

  /** An acknowledgement and one stray byte: enough for a SET to be reported malformed. */
  lemma StrayByteMatters()
    ensures CutsMatter(None, [RESPONSE, SET_OK_STATUS, FRAME_END, 0])
  {
    var stream := [RESPONSE, SET_OK_STATUS, FRAME_END, 0];
    var frame := SetStatusFrame(SET_OK_STATUS);
    assert stream == PrintFrame(frame) + [0] && stream[3..] == [0];
    ParseOneFrame(frame, [0]);
    assert FirstFrame([0]).None? && Parse([0]).Malformed?;
    assert FramesBeforeError(stream) == [frame] + FramesBeforeError([0]) == [frame];
    assert stream[..4] == stream;
  }
}
