/** The control PDUs that carry timing parameters, channel maps and instants. */
module ControlPdus {
  import opened Octets
  import opened Wrappers
  import opened Timing
  import opened ChannelSelection

  datatype ControlPduError = Malformed | InvalidParameters | InstantPassed

  const CONNECTION_UPDATE_IND := 0x00
  const CHANNEL_MAP_IND := 0x01
  const CONNECTION_PARAM_REQ := 0x0f
  const CONNECTION_PARAM_RSP := 0x10
  const NO_OFFSET: u16 := 0xffff

  // LL_CONNECTION_UPDATE_IND

  datatype ConnectionUpdateInd = ConnectionUpdateInd(
    windowSize: u8, windowOffset: u16, interval: u16, latency: u16, supervisionTimeout: u16, instant: u16)

  predicate UpdateIsValid(u: ConnectionUpdateInd) {
    ConnectionTimingIsValid(u.windowSize, u.windowOffset, u.interval, u.latency, u.supervisionTimeout)
  }

  function ParseConnectionUpdate(payload: seq<u8>, counter: u16)
    : (r: Result<ConnectionUpdateInd, ControlPduError>)
    ensures r.Ok? ==> UpdateIsValid(r.value) && Until(counter, r.value.instant) <= 32_766
  {
    if |payload| != 12 || payload[0] != CONNECTION_UPDATE_IND then Err(Malformed)
    else
      var update := ConnectionUpdateInd(
        payload[1], FromLe16(payload[2], payload[3]), FromLe16(payload[4], payload[5]),
        FromLe16(payload[6], payload[7]), FromLe16(payload[8], payload[9]),
        FromLe16(payload[10], payload[11]));
      if !UpdateIsValid(update) then Err(InvalidParameters)
      else if ClassifyInstant(counter, update.instant).Passed? then Err(InstantPassed)
      else Ok(update)
  }

  function EncodeConnectionUpdate(u: ConnectionUpdateInd): seq<u8> {
    [CONNECTION_UPDATE_IND, u.windowSize] + Le16(u.windowOffset) + Le16(u.interval) + Le16(u.latency)
    + Le16(u.supervisionTimeout) + Le16(u.instant)
  }

  /** An update survives the air exactly when it is valid and its instant has not passed. */
  lemma ConnectionUpdateRoundTrip(u: ConnectionUpdateInd, counter: u16)
    ensures ParseConnectionUpdate(EncodeConnectionUpdate(u), counter)
         == if !UpdateIsValid(u) then Err(InvalidParameters)
            else if Until(counter, u.instant) > 32_766 then Err(InstantPassed)
            else Ok(u)
  {
    var bytes := EncodeConnectionUpdate(u);
    assert bytes[2..4] == Le16(u.windowOffset) && bytes[4..6] == Le16(u.interval);
    assert bytes[6..8] == Le16(u.latency) && bytes[8..10] == Le16(u.supervisionTimeout);
    assert bytes[10..12] == Le16(u.instant);
  }

  // LL_CHANNEL_MAP_IND

  datatype ChannelMapInd = ChannelMapInd(bitmap: ChannelMap, instant: u16)

  function ParseChannelMap(payload: seq<u8>, counter: u16): (r: Result<ChannelMapInd, ControlPduError>)
    ensures r.Ok? ==> MapIsValid(r.value.bitmap) && Until(counter, r.value.instant) <= 32_766
  {
    if |payload| != 8 || payload[0] != CHANNEL_MAP_IND then Err(Malformed)
    else
      var update := ChannelMapInd(payload[1..6], FromLe16(payload[6], payload[7]));
      if !MapIsValid(update.bitmap) then Err(InvalidParameters)
      else if ClassifyInstant(counter, update.instant).Passed? then Err(InstantPassed)
      else Ok(update)
  }

  lemma ChannelMapRoundTrip(u: ChannelMapInd, counter: u16)
    ensures ParseChannelMap([CHANNEL_MAP_IND] + u.bitmap + Le16(u.instant), counter)
         == if !MapIsValid(u.bitmap) then Err(InvalidParameters)
            else if Until(counter, u.instant) > 32_766 then Err(InstantPassed)
            else Ok(u)
  {
    var bytes := [CHANNEL_MAP_IND] + u.bitmap + Le16(u.instant);
    assert bytes[1..6] == u.bitmap && bytes[6..8] == Le16(u.instant);
  }

  // LL_CONNECTION_PARAM_REQ and LL_CONNECTION_PARAM_RSP

  type Offsets = o: seq<u16> | |o| == 6 witness [0, 0, 0, 0, 0, 0]

  datatype ConnectionParamPdu = ConnectionParamPdu(
    intervalMin: u16, intervalMax: u16, latency: u16, supervisionTimeout: u16,
    preferredPeriodicity: u8, referenceEventCount: u16, offsets: Offsets)

  /** The first `count` offsets are distinct and below the interval; the others are absent. */
  predicate OffsetList(offsets: Offsets, intervalMax: u16, count: nat)
    requires count <= 6
  {
    && (forall i :: 0 <= i < count ==> offsets[i] != NO_OFFSET && offsets[i] < intervalMax)
    && (forall i, j :: 0 <= i < j < count ==> offsets[i] != offsets[j])
    && (forall i :: count <= i < 6 ==> offsets[i] == NO_OFFSET)
  }

  lemma OffsetCountIsUnique(offsets: Offsets, intervalMax: u16, a: nat, b: nat)
    requires a <= 6 && b <= 6 && OffsetList(offsets, intervalMax, a) && OffsetList(offsets, intervalMax, b)
    ensures a == b
  {
    assert a < 6 ==> offsets[a] == NO_OFFSET;
    assert b < 6 ==> offsets[b] == NO_OFFSET;
  }

  predicate ParamsAreValid(p: ConnectionParamPdu, counter: u16) {
    && ConnectionParameterRangeIsValid(p.intervalMin, p.intervalMax, p.latency, p.supervisionTimeout)
    && p.preferredPeriodicity <= p.intervalMax
    && exists count :: 0 <= count <= 6 && OffsetList(p.offsets, p.intervalMax, count)
         && (count == 0 || Until(counter, p.referenceEventCount) <= 32_766)
  }

  /** The validation loops of the source accept exactly the valid parameter sets. */
  method ParametersAreValid(p: ConnectionParamPdu, counter: u16) returns (valid: bool)
    ensures valid == ParamsAreValid(p, counter)
  {
    if !ConnectionParameterRangeIsValid(p.intervalMin, p.intervalMax, p.latency, p.supervisionTimeout)
      || p.preferredPeriodicity > p.intervalMax {
      return false;
    }
    var sawInvalid := false;
    var haveValidOffset := false;
    var index := 0;
    ghost var count := 0;
    while index < 6
      invariant 0 <= count <= index <= 6
      invariant sawInvalid <==> count < index
      invariant haveValidOffset <==> count > 0
      invariant forall i :: 0 <= i < count ==> p.offsets[i] != NO_OFFSET && p.offsets[i] < p.intervalMax
      invariant forall i, j :: 0 <= i < j < count ==> p.offsets[i] != p.offsets[j]
      invariant forall i :: count <= i < index ==> p.offsets[i] == NO_OFFSET
    {
      var offset := p.offsets[index];
      if offset == NO_OFFSET {
        sawInvalid := true;
      } else {
        assert sawInvalid ==> p.offsets[count] == NO_OFFSET;
        if sawInvalid || offset >= p.intervalMax {
          return false;
        }
        var previous := 0;
        while previous < index
          invariant 0 <= previous <= index
          invariant forall i :: 0 <= i < previous ==> p.offsets[i] != offset
        {
          if p.offsets[previous] == offset {
            return false;
          }
          previous := previous + 1;
        }
        haveValidOffset := true;
        count := count + 1;
      }
      index := index + 1;
    }
    assert OffsetList(p.offsets, p.intervalMax, count);
    forall other | 0 <= other <= 6 && OffsetList(p.offsets, p.intervalMax, other)
      ensures other == count
    {
      OffsetCountIsUnique(p.offsets, p.intervalMax, count, other);
    }
    return !haveValidOffset || !ClassifyInstant(counter, p.referenceEventCount).Passed?;
  }

  function OffsetBytes(offsets: Offsets, n: nat): (bytes: seq<u8>)
    requires n <= 6
    ensures |bytes| == 2 * n
  {
    if n == 0 then [] else OffsetBytes(offsets, n - 1) + Le16(offsets[n - 1])
  }

  function ParamHead(p: ConnectionParamPdu, opcode: u8): (bytes: seq<u8>)
    ensures |bytes| == 12
  {
    [opcode] + Le16(p.intervalMin) + Le16(p.intervalMax) + Le16(p.latency) + Le16(p.supervisionTimeout)
    + [p.preferredPeriodicity] + Le16(p.referenceEventCount)
  }

  function EncodeParams(p: ConnectionParamPdu, opcode: u8): (bytes: seq<u8>)
    ensures |bytes| == 24
  {
    ParamHead(p, opcode) + OffsetBytes(p.offsets, 6)
  }

  function DecodeFields(payload: seq<u8>): ConnectionParamPdu
    requires |payload| == 24
  {
    ConnectionParamPdu(
      FromLe16(payload[1], payload[2]), FromLe16(payload[3], payload[4]),
      FromLe16(payload[5], payload[6]), FromLe16(payload[7], payload[8]),
      payload[9], FromLe16(payload[10], payload[11]),
      seq(6, i requires 0 <= i < 6 => FromLe16(payload[12 + 2 * i], payload[13 + 2 * i])))
  }

  function DecodeParams(payload: seq<u8>, opcode: u8, counter: u16)
    : Result<ConnectionParamPdu, ControlPduError>
  {
    if |payload| != 24 || payload[0] != opcode then Err(Malformed)
    else if ParamsAreValid(DecodeFields(payload), counter) then Ok(DecodeFields(payload))
    else Err(InvalidParameters)
  }

  method ParseParams(payload: seq<u8>, opcode: u8, counter: u16)
    returns (r: Result<ConnectionParamPdu, ControlPduError>)
    ensures r == DecodeParams(payload, opcode, counter)
  {
    if |payload| != 24 || payload[0] != opcode {
      return Err(Malformed);
    }
    var offsets := new u16[6](_ => 0);
    for n := 0 to 6
      invariant forall i :: 0 <= i < n ==> offsets[i] == FromLe16(payload[12 + 2 * i], payload[13 + 2 * i])
    {
      offsets[n] := FromLe16(payload[12 + 2 * n], payload[13 + 2 * n]);
    }
    var parameters := ConnectionParamPdu(
      FromLe16(payload[1], payload[2]), FromLe16(payload[3], payload[4]),
      FromLe16(payload[5], payload[6]), FromLe16(payload[7], payload[8]),
      payload[9], FromLe16(payload[10], payload[11]), offsets[..]);
    assert parameters.offsets == DecodeFields(payload).offsets;
    var valid := ParametersAreValid(parameters, counter);
    r := if valid then Ok(parameters) else Err(InvalidParameters);
  }

  method WriteParams(p: ConnectionParamPdu, opcode: u8, output: array<u8>)
    requires output.Length == 24
    requires opcode == CONNECTION_PARAM_REQ || opcode == CONNECTION_PARAM_RSP
    modifies output
    ensures output[..] == EncodeParams(p, opcode)
  {
    output[0] := opcode;
    assert output[..1] == [opcode];
    WriteLe16(output, 1, p.intervalMin);
    WriteLe16(output, 3, p.intervalMax);
    WriteLe16(output, 5, p.latency);
    WriteLe16(output, 7, p.supervisionTimeout);
    ghost var head := output[..9];
    output[9] := p.preferredPeriodicity;
    assert output[..10] == head + [p.preferredPeriodicity];
    WriteLe16(output, 10, p.referenceEventCount);
    for n := 0 to 6
      invariant output[..12 + 2 * n] == ParamHead(p, opcode) + OffsetBytes(p.offsets, n)
    {
      WriteLe16(output, 12 + 2 * n, p.offsets[n]);
    }
    assert output[..] == output[..24];
  }

  method WriteLe16(output: array<u8>, at: nat, x: u16)
    requires at + 2 <= output.Length
    modifies output
    ensures output[..at + 2] == old(output[..at]) + Le16(x)
  {
    output[at] := x % 0x100;
    output[at + 1] := x / 0x100;
  }

  lemma {:induction false} OffsetBytesAt(offsets: Offsets, n: nat, i: nat)
    requires i < n <= 6
    ensures OffsetBytes(offsets, n)[2 * i..2 * i + 2] == Le16(offsets[i])
  {
    if i < n - 1 {
      OffsetBytesAt(offsets, n - 1, i);
      assert OffsetBytes(offsets, n)[2 * i..2 * i + 2] == OffsetBytes(offsets, n - 1)[2 * i..2 * i + 2];
    }
  }

  lemma FieldsOfEncoding(p: ConnectionParamPdu, opcode: u8)
    ensures EncodeParams(p, opcode)[0] == opcode
    ensures DecodeFields(EncodeParams(p, opcode)) == p
  {
    var bytes := EncodeParams(p, opcode);
    assert bytes[1..3] == Le16(p.intervalMin) && bytes[3..5] == Le16(p.intervalMax);
    assert bytes[5..7] == Le16(p.latency) && bytes[7..9] == Le16(p.supervisionTimeout);
    assert bytes[10..12] == Le16(p.referenceEventCount);
    forall i | 0 <= i < 6
      ensures FromLe16(bytes[12 + 2 * i], bytes[13 + 2 * i]) == p.offsets[i]
    {
      OffsetBytesAt(p.offsets, 6, i);
      assert bytes[12 + 2 * i..14 + 2 * i] == OffsetBytes(p.offsets, 6)[2 * i..2 * i + 2];
    }
    assert DecodeFields(bytes).offsets == p.offsets;
  }

  /** Written parameters parse back to themselves exactly when they are valid. */
  lemma ParamsRoundTrip(p: ConnectionParamPdu, opcode: u8, counter: u16)
    ensures DecodeParams(EncodeParams(p, opcode), opcode, counter) == Ok(p) <==> ParamsAreValid(p, counter)
    ensures !ParamsAreValid(p, counter) ==>
      DecodeParams(EncodeParams(p, opcode), opcode, counter) == Err(InvalidParameters)
  {
    FieldsOfEncoding(p, opcode);
  }

  /** No two accepted payloads mean the same parameters. */
  lemma ParamsDecodeIsInjective(payload: seq<u8>, opcode: u8, counter: u16)
    requires DecodeParams(payload, opcode, counter).Ok?
    ensures EncodeParams(DecodeParams(payload, opcode, counter).value, opcode) == payload
  {
    DecodedHead(payload, opcode);
    DecodedOffsets(payload, 6);
  }

  lemma DecodedHead(payload: seq<u8>, opcode: u8)
    requires |payload| == 24 && payload[0] == opcode
    ensures ParamHead(DecodeFields(payload), opcode) == payload[..12]
  {
    Le16OfField(payload[1], payload[2]);
    Le16OfField(payload[3], payload[4]);
    Le16OfField(payload[5], payload[6]);
    Le16OfField(payload[7], payload[8]);
    Le16OfField(payload[10], payload[11]);
  }

  lemma {:induction false} DecodedOffsets(payload: seq<u8>, n: nat)
    requires |payload| == 24 && n <= 6
    ensures OffsetBytes(DecodeFields(payload).offsets, n) == payload[12..12 + 2 * n]
  {
    if n > 0 {
      DecodedOffsets(payload, n - 1);
      Le16OfField(payload[10 + 2 * n], payload[11 + 2 * n]);
    }
  }

  // Where the fields are on air.

  /** An accepted LL_CONNECTION_UPDATE_IND has its fields, little endian, at these octets. */
  lemma UpdateFieldsOnAir(payload: seq<u8>, counter: u16)
    ensures var r := ParseConnectionUpdate(payload, counter);
      r.Ok? ==>
        && |payload| == 12 && payload[0] == 0x00 && r.value.windowSize == payload[1]
        && r.value.windowOffset == payload[2] + 0x100 * (payload[3] as int)
        && r.value.interval == payload[4] + 0x100 * (payload[5] as int)
        && r.value.latency == payload[6] + 0x100 * (payload[7] as int)
        && r.value.supervisionTimeout == payload[8] + 0x100 * (payload[9] as int)
        && r.value.instant == payload[10] + 0x100 * (payload[11] as int)
  {
  }

  /** An accepted LL_CHANNEL_MAP_IND has its map at octets 1 to 5 and its instant at 6 and 7. */
  lemma MapFieldsOnAir(payload: seq<u8>, counter: u16)
    ensures var r := ParseChannelMap(payload, counter);
      r.Ok? ==>
        && |payload| == 8 && payload[0] == 0x01 && r.value.bitmap == payload[1..6]
        && r.value.instant == payload[6] + 0x100 * (payload[7] as int)
  {
  }

  /** The parameter PDUs have their fields, little endian, at these octets, and the offsets from octet 12 on. */
  lemma ParamFieldsOnAir(p: ConnectionParamPdu, opcode: u8, i: nat)
    requires i < 6
    ensures var b := EncodeParams(p, opcode);
      && |b| == 24 && b[0] == opcode && b[9] == p.preferredPeriodicity
      && b[1] == p.intervalMin % 0x100 && b[2] == p.intervalMin / 0x100
      && b[3] == p.intervalMax % 0x100 && b[4] == p.intervalMax / 0x100
      && b[5] == p.latency % 0x100 && b[6] == p.latency / 0x100
      && b[7] == p.supervisionTimeout % 0x100 && b[8] == p.supervisionTimeout / 0x100
      && b[10] == p.referenceEventCount % 0x100 && b[11] == p.referenceEventCount / 0x100
      && b[12 + 2 * i] == p.offsets[i] % 0x100 && b[13 + 2 * i] == p.offsets[i] / 0x100
  {
    var b := EncodeParams(p, opcode);
    OffsetBytesAt(p.offsets, 6, i);
    assert b[12 + 2 * i..14 + 2 * i] == OffsetBytes(p.offsets, 6)[2 * i..2 * i + 2] == Le16(p.offsets[i]);
    assert b[12 + 2 * i] == b[12 + 2 * i..14 + 2 * i][0] && b[13 + 2 * i] == b[12 + 2 * i..14 + 2 * i][1];
  }
}
