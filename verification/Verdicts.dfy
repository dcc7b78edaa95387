/** Which bytes from the speaker make an exchange succeed, stated on the frames and on the wire. */
module Verdicts {
  import opened Wrappers
  import opened Protocol
  import opened Client

  // ------------------------------------------------------------------ the wire

  /** The bytes of every request, and of every frame that is read, spelled out. */
  lemma WireFormat(register: Byte, value: Byte, trailer: Byte, volume: int, muted: bool)
    ensures EncodeGet(SOURCE_REGISTER) == Success([0x47, 0x30, 0x80])
    ensures EncodeGet(VOLUME_REGISTER) == Success([0x47, 0x25, 0x80])
    ensures EncodeSetVolume(volume, muted)
         == if 0 <= volume <= 100 then Success([0x53, 0x25, 0x81, if muted then volume + 128 else volume])
            else Failure(ValueError)
    ensures Parse([0x52, register, 0x81, value, trailer]) == Parsed([GetFrame(register, value, trailer)], [])
    ensures Parse([0x52, value, 0xFF]) == Parsed([SetStatusFrame(value)], [])
  {
    ParseOneFrame(GetFrame(register, value, trailer), []);
    ParseOneFrame(SetStatusFrame(value), []);
    assert PrintFrame(GetFrame(register, value, trailer)) + [] == [0x52, register, 0x81, value, trailer];
    assert PrintFrame(SetStatusFrame(value)) + [] == [0x52, value, 0xFF];
  }

  /** The low bits of a source byte that name a source; Bluetooth has a second one when paired. */
  predicate Names(nibble: int, source: Source) {
    match source
    case Wifi => nibble == 2
    case Bluetooth => nibble == 9 || nibble == 15
    case Aux => nibble == 10
    case Opt => nibble == 11
  }

  predicate StandbyBits(bits: int, standby: Standby) {
    || (standby == Some(20) && bits == 0)
    || (standby == Some(60) && bits == 0x10)
    || (standby == None && bits == 0x20)
  }

  /** The source byte that carries these, with this nibble for the source. */
  predicate Carries(value: int, nibble: int, status: SourceStatus) {
    && Names(nibble, status.source)
    && exists bits :: StandbyBits(bits, status.standby)
         && value == nibble + bits + (if status.inverse then 0x40 else 0) + (if status.powerOn then 0 else 0x80)
  }

  /**
   * Decoding a source byte gives a status exactly when the byte carries it; the byte 48, which
   * carries nothing, stands for Wi-Fi, 60 minutes, inverse and on.
   */
  lemma DecodesExactly(value: int, status: SourceStatus)
    ensures DecodeSourceValue(value) == Success(status)
       <==> (value == 48 && status == SourceStatus(Wifi, Some(60), true, true))
            || exists nibble :: Carries(value, nibble, status)
  {
    if exists nibble :: Carries(value, nibble, status) {
      var nibble :| Carries(value, nibble, status);
      CarriedIsDecoded(value, nibble, status);
    }
    if DecodeSourceValue(value) == Success(status) {
      DecodedIsCarried(value, status);
    }
  }

  lemma CarriedIsDecoded(value: int, nibble: int, status: SourceStatus)
    requires Carries(value, nibble, status)
    ensures DecodeSourceValue(value) == Success(status)
  {
    var bits :| StandbyBits(bits, status.standby)
      && value == nibble + bits + (if status.inverse then 0x40 else 0) + (if status.powerOn then 0 else 0x80);
    var low := nibble + bits;
    var code := low + if status.inverse then 0x40 else 0;
    assert low < 0x40 && low % 0x10 == nibble && low / 0x10 == bits / 0x10;
    assert code % 0x40 == low && code < 0x80;
    assert value % 0x80 == code;
  }

  lemma DecodedIsCarried(value: int, status: SourceStatus)
    requires DecodeSourceValue(value) == Success(status)
    ensures (value == 48 && status == SourceStatus(Wifi, Some(60), true, true))
         || exists nibble :: Carries(value, nibble, status)
  {
    if value != 48 {
      var low := value % 0x80 % 0x40;
      var nibble, bits := low % 0x10, low / 0x10 * 0x10;
      assert value != 0x80;
      assert StandbyBits(bits, status.standby);
      assert value == nibble + bits + (if status.inverse then 0x40 else 0) + (if status.powerOn then 0 else 0x80);
      assert Carries(value, nibble, status);
    }
  }

  /** A source SET carries its arguments, with the one nibble of each source that can be set. */
  lemma SourceSetCarries(source: Source, standby: Standby, inverse: bool, powerOn: bool)
    ensures EncodeSetSource(source, standby, inverse, powerOn).Success? <==> standby in [None, Some(20), Some(60)]
    ensures standby in [None, Some(20), Some(60)] ==>
              exists value: Byte :: value % 16 != 15
                && EncodeSetSource(source, standby, inverse, powerOn) == Success([0x53, 0x30, 0x81, value])
                && Carries(value, value % 16, SourceStatus(source, standby, inverse, powerOn))
  {
    if standby in [None, Some(20), Some(60)] {
      SourceRoundTrip(source, standby, inverse, powerOn);
      var value := SourceCode(source, standby, inverse, powerOn);
      var bits := if standby == None then 0x20 else if standby == Some(20) then 0 else 0x10;
      assert StandbyBits(bits, standby);
      assert value % 16 == SourceBase(source);
      assert Carries(value, value % 16, SourceStatus(source, standby, inverse, powerOn));
    }
  }

  // -------------------------------------------------------------- set exchanges

  /** A status frame is the first among the first sixteen frames, at place `i`. */
  predicate StatusAt(frames: seq<Frame>, i: nat, status: Byte) {
    i < 16 && i < |frames| && frames[i] == SetStatusFrame(status) && forall j :: 0 <= j < i ==> frames[j].GetFrame?
  }

  ghost predicate FirstStatus(frames: seq<Frame>, status: Byte) {
    exists i :: StatusAt(frames, i, status)
  }

  /** The error when nothing decides: too many frames, or the way the reads ended. */
  function Unanswered(frames: seq<Frame>, pending: bool, ending: Ending): ExchangeResult {
    var fault :=
      if |frames| > 16 then MalformedReply
      else if ending.ConnectionBroke? then ConnectionLost
      else if pending then MalformedReply
      else if ending.EndOfStream? then ConnectionLost
      else ResponseTimeout;
    Failed(LsxError(fault, true))
  }

  /** The first of the first sixteen frames with a verdict, or sixteen (or all) without one. */
  lemma {:induction false} FindVerdict(expected: Option<Byte>, frames: seq<Frame>, i: nat) returns (k: nat)
    requires i <= |frames| && i <= 16 && forall j :: 0 <= j < i ==> Verdict(expected, frames[j]).None?
    ensures i <= k <= |frames| && k <= 16 && forall j :: 0 <= j < k ==> Verdict(expected, frames[j]).None?
    ensures (k < 16 && k < |frames| && Verdict(expected, frames[k]).Some?) || k == 16 || k == |frames|
    decreases |frames| - i
  {
    if i == 16 || i == |frames| || Verdict(expected, frames[i]).Some? {
      k := i;
    } else {
      k := FindVerdict(expected, frames, i + 1);
    }
  }

  /** The result by the first frame with a verdict. */
  lemma ScanFinds(expected: Option<Byte>, frames: seq<Frame>, pending: bool, ending: Ending) returns (k: nat)
    ensures k <= |frames| && k <= 16 && forall j :: 0 <= j < k ==> Verdict(expected, frames[j]).None?
    ensures var result := Scan(expected, frames, 0, pending, ending);
            if k < 16 && k < |frames|
            then Verdict(expected, frames[k]) == Some(result) else result == Unanswered(frames, pending, ending)
  {
    k := FindVerdict(expected, frames, 0);
    if k < 16 && k < |frames| {
      FirstVerdictDecides(expected, frames, 0, k, pending, ending);
    } else {
      NoVerdictInSixteen(expected, frames, 0, pending, ending);
    }
  }

  /**
   * A SET is acknowledged exactly when the first status among the first sixteen frames is 0x11,
   * and rejected with exactly the first status when that is another.
   */
  lemma SetIsDecidedByFirstStatus(frames: seq<Frame>, residue: Bytes, chunks: seq<Chunk>, ending: Ending)
    requires IsResidue(residue) && Flatten(chunks) == Print(frames) + residue
    ensures var result := ReadLoop(None, [], 0, chunks, ending).result;
            && (result == Acknowledged <==> FirstStatus(frames, 0x11))
            && (forall x: Byte ::
                  (result == Failed(LsxError(CommandRejected(x), true))) <==> (x != 0x11 && FirstStatus(frames, x)))
            && ((forall x: Byte :: !FirstStatus(frames, x)) ==> result == Unanswered(frames, residue != [], ending))
  {
    LoopRefinesScan(None, frames, residue, chunks, ending);
    var k := ScanFinds(None, frames, residue != [], ending);
    assert forall j :: 0 <= j < k ==> frames[j].GetFrame?;
    forall i: nat, x: Byte | StatusAt(frames, i, x)
      ensures i == k
    {
    }
    if k < 16 && k < |frames| {
      assert StatusAt(frames, k, frames[k].status);
    }
  }

  // -------------------------------------------------------------- get exchanges

  /** The first sixteen frames hold a value of the register, and no status or other such value before it. */
  predicate ValueAt(frames: seq<Frame>, i: nat, register: Byte, frame: Frame) {
    && i < 16 && i < |frames| && frames[i] == frame && frame.GetFrame? && frame.register == register
    && forall j :: 0 <= j < i ==> frames[j].GetFrame? && frames[j].register != register
  }

  ghost predicate FirstValue(frames: seq<Frame>, register: Byte, frame: Frame) {
    exists i :: ValueAt(frames, i, register, frame)
  }

  /** A status frame among the first sixteen comes before any value of the register. */
  predicate StrayStatusAt(frames: seq<Frame>, i: nat, register: Byte) {
    && i < 16 && i < |frames| && frames[i].SetStatusFrame?
    && forall j :: 0 <= j < i ==> frames[j].GetFrame? && frames[j].register != register
  }

  ghost predicate StrayStatus(frames: seq<Frame>, register: Byte) {
    exists i :: StrayStatusAt(frames, i, register)
  }

  /** A GET returns exactly the first value of its register; a status that comes first is malformed. */
  lemma GetIsDecidedByFirstValue(
    register: Byte, frames: seq<Frame>, residue: Bytes, chunks: seq<Chunk>, ending: Ending)
    requires IsResidue(residue) && Flatten(chunks) == Print(frames) + residue
    ensures var result := ReadLoop(Some(register), [], 0, chunks, ending).result;
            && (forall f: Frame :: result == Value(f) <==> FirstValue(frames, register, f))
            && (StrayStatus(frames, register) ==> result == Failed(LsxError(MalformedReply, true)))
            && (!StrayStatus(frames, register) && (forall f: Frame :: !FirstValue(frames, register, f)) ==>
                  result == Unanswered(frames, residue != [], ending))
  {
    LoopRefinesScan(Some(register), frames, residue, chunks, ending);
    var k := ScanFinds(Some(register), frames, residue != [], ending);
    assert forall j :: 0 <= j < k ==> frames[j].GetFrame? && frames[j].register != register;
    forall i: nat, f: Frame | ValueAt(frames, i, register, f)
      ensures i == k
    {
    }
    forall i: nat | StrayStatusAt(frames, i, register)
      ensures i == k
    {
    }
    if k < 16 && k < |frames| {
      assert frames[k].GetFrame? ==> ValueAt(frames, k, register, frames[k]);
      assert frames[k].SetStatusFrame? ==> StrayStatusAt(frames, k, register);
    }
  }

  // ------------------------------------------------------------- whole exchanges

  /** Nothing went wrong before the reads. */
  predicate Asked(closed: bool, script: Script) {
    !closed && script.opening == Opened && script.draining == Drained
  }

  /** A failure before the reads has its own error, and says whether bytes were handed over. */
  lemma FailuresBeforeReading(closed: bool, expected: Option<Byte>, script: Script)
    requires !Asked(closed, script)
    ensures var (fault, wrote) :=
              if closed then (ClientClosed, false)
              else if script.opening.OpenTimedOut? then (ConnectTimeout, false)
              else if script.opening.OpenRefused? then (ConnectRefused, false)
              else if script.opening.OpenFailed? then (ConnectionLost, false)
              else if script.draining.DrainTimedOut? then (ResponseTimeout, true)
              else (ConnectionLost, true);
            Exchange(closed, expected, script).result == Failed(LsxError(fault, wrote))
  {
  }

  /** A SET returns without an error exactly when it was asked and its first status is OK. */
  lemma SetSucceedsExactly(closed: bool, script: Script, frames: seq<Frame>, residue: Bytes)
    requires IsResidue(residue) && Flatten(script.chunks) == Print(frames) + residue
    ensures SetReply(Exchange(closed, None, script).result) == None
       <==> Asked(closed, script) && FirstStatus(frames, 0x11)
  {
    if Asked(closed, script) {
      SetIsDecidedByFirstStatus(frames, residue, script.chunks, script.ending);
      NoValueForSet(frames, residue, script.chunks, script.ending);
    } else {
      FailuresBeforeReading(closed, None, script);
    }
  }

  /** A SET never returns a value frame. */
  lemma NoValueForSet(frames: seq<Frame>, residue: Bytes, chunks: seq<Chunk>, ending: Ending)
    requires IsResidue(residue) && Flatten(chunks) == Print(frames) + residue
    ensures !ReadLoop(None, [], 0, chunks, ending).result.Value?
  {
    LoopRefinesScan(None, frames, residue, chunks, ending);
    var k := ScanFinds(None, frames, residue != [], ending);
  }

  /** A volume GET returns a volume exactly when the first value of register 0x25 carries it. */
  lemma GetVolumeSucceedsExactly(
    closed: bool, script: Script, frames: seq<Frame>, residue: Bytes, volume: Volume, muted: bool)
    requires IsResidue(residue) && Flatten(script.chunks) == Print(frames) + residue
    ensures VolumeReply(Exchange(closed, Some(0x25), script).result) == Success(VolumeStatus(volume, muted))
       <==> && Asked(closed, script)
            && exists f: Frame :: FirstValue(frames, 0x25, f) && f.value == if muted then volume + 128 else volume
  {
    if Asked(closed, script) {
      GetIsDecidedByFirstValue(0x25, frames, residue, script.chunks, script.ending);
    } else {
      FailuresBeforeReading(closed, Some(0x25), script);
    }
  }

  /** A source GET returns a status exactly when the first value of register 0x30 decodes to it. */
  lemma GetSourceSucceedsExactly(
    closed: bool, script: Script, frames: seq<Frame>, residue: Bytes, status: SourceStatus)
    requires IsResidue(residue) && Flatten(script.chunks) == Print(frames) + residue
    ensures SourceReply(Exchange(closed, Some(0x30), script).result) == Success(status)
       <==> && Asked(closed, script)
            && exists f: Frame :: FirstValue(frames, 0x30, f) && DecodeSourceValue(f.value) == Success(status)
  {
    if Asked(closed, script) {
      GetIsDecidedByFirstValue(0x30, frames, residue, script.chunks, script.ending);
    } else {
      FailuresBeforeReading(closed, Some(0x30), script);
    }
  }
}
