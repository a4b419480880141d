/** CONNECT_IND construction and parsing. */
module ConnectInd {
  import opened Octets
  import opened Wrappers
  import opened Timing
  import opened ChannelSelection

  type AddressBytes = a: seq<u8> | |a| == 6 witness [0, 0, 0, 0, 0, 0]

  datatype DeviceAddress = DeviceAddress(bytes: AddressBytes, random: bool)

  datatype ConnectRequest = ConnectRequest(
    initiatorAddress: AddressBytes, initiatorAddressRandom: bool, accessAddress: u32, crcInit: u32,
    windowSize: u8, windowOffset: u16, interval: u16, latency: u16, supervisionTimeout: u16,
    channelMap: ChannelMap, hopIncrement: u8, sleepClockAccuracy: u8)

  datatype ParseError =
    NotConnectInd | InvalidLength | DifferentAdvertiser | InvalidAccessAddress
    | InvalidHopIncrement | InvalidTiming | InvalidChannelMap

  predicate TimingIsValid(c: ConnectRequest) {
    ConnectionTimingIsValid(c.windowSize, c.windowOffset, c.interval, c.latency, c.supervisionTimeout)
  }

  function Le24(x: nat): (bytes: seq<u8>)
    ensures |bytes| == 3
  {
    [x % 0x100, (x / 0x100) % 0x100, (x / 0x1_0000) % 0x100]
  }

  function FromLe24(a: u8, b: u8, c: u8): u32 {
    FromLe16(a, b) + 0x1_0000 * (c as int)
  }

  function FromLe32(a: u8, b: u8, c: u8, d: u8): u32 {
    FromLe16(a, b) + 0x1_0000 * (FromLe16(c, d) as int)
  }

  function Le32(x: u32): (bytes: seq<u8>)
    ensures |bytes| == 4
    ensures FromLe32(bytes[0], bytes[1], bytes[2], bytes[3]) == x
  {
    [(x % 0x1_0000) % 0x100, (x % 0x1_0000) / 0x100, (x / 0x1_0000) % 0x100, (x / 0x1_0000) / 0x100]
  }

  function Addresses(advertiser: DeviceAddress, c: ConnectRequest): (bytes: seq<u8>)
    ensures |bytes| == 14
  {
    [0x05 + (if c.initiatorAddressRandom then 0x40 else 0) + (if advertiser.random then 0x80 else 0), 34]
    + c.initiatorAddress + advertiser.bytes
  }

  function Parameters(c: ConnectRequest): (bytes: seq<u8>)
    requires c.hopIncrement < 32 && c.sleepClockAccuracy < 8
    ensures |bytes| == 22
  {
    Le32(c.accessAddress) + Le24(c.crcInit) + [c.windowSize] + Le16(c.windowOffset) + Le16(c.interval)
    + Le16(c.latency) + Le16(c.supervisionTimeout) + c.channelMap + [c.hopIncrement + 32 * c.sleepClockAccuracy]
  }

  function Encode(advertiser: DeviceAddress, c: ConnectRequest): (bytes: seq<u8>)
    requires c.hopIncrement < 32 && c.sleepClockAccuracy < 8
    ensures |bytes| == 36
  {
    Addresses(advertiser, c) + Parameters(c)
  }

  /** What the source requires before it writes a PDU. */
  predicate Buildable(initiator: DeviceAddress, c: ConnectRequest, addressIsValid: u32 -> bool) {
    && c.initiatorAddress == initiator.bytes && c.initiatorAddressRandom == initiator.random
    && addressIsValid(c.accessAddress)
    && 5 <= c.hopIncrement <= 16 && c.sleepClockAccuracy <= 7
    && TimingIsValid(c) && MapIsValid(c.channelMap)
  }

  /** `addressIsValid` stands for the access-address rules, which both directions share. */
  method Build(initiator: DeviceAddress, advertiser: DeviceAddress, c: ConnectRequest,
               addressIsValid: u32 -> bool, output: array<u8>) returns (built: bool)
    requires output.Length == 36
    modifies output
    ensures built == Buildable(initiator, c, addressIsValid)
    ensures output[..] == if built then Encode(advertiser, c) else old(output[..])
  {
    var mapIsValid := DataChannelMapIsValid(c.channelMap);
    if c.initiatorAddress != initiator.bytes || c.initiatorAddressRandom != initiator.random
      || !addressIsValid(c.accessAddress)
      || !(5 <= c.hopIncrement <= 16) || c.sleepClockAccuracy > 7
      || !TimingIsValid(c) || !mapIsValid {
      return false;
    }
    WriteAddresses(output, c, advertiser);
    WriteParameters(output, c);
    assert output[..] == output[..36];
    return true;
  }

  method WriteAddresses(output: array<u8>, c: ConnectRequest, advertiser: DeviceAddress)
    requires output.Length == 36
    modifies output
    ensures output[..14] == Addresses(advertiser, c)
  {
    var header := 0x05 + (if c.initiatorAddressRandom then 0x40 else 0) + (if advertiser.random then 0x80 else 0);
    Write(output, 0, [header, 34]);
    Write(output, 2, c.initiatorAddress);
    Write(output, 8, advertiser.bytes);
  }

  method WriteParameters(output: array<u8>, c: ConnectRequest)
    requires output.Length == 36 && c.hopIncrement < 32 && c.sleepClockAccuracy < 8
    modifies output
    ensures output[..36] == old(output[..14]) + Parameters(c)
  {
    Write(output, 14, Le32(c.accessAddress));
    Write(output, 18, Le24(c.crcInit));
    Write(output, 21, [c.windowSize]);
    Write(output, 22, Le16(c.windowOffset));
    Write(output, 24, Le16(c.interval));
    Write(output, 26, Le16(c.latency));
    Write(output, 28, Le16(c.supervisionTimeout));
    Write(output, 30, c.channelMap);
    Write(output, 35, [c.hopIncrement + 32 * c.sleepClockAccuracy]);
  }

  method Write(output: array<u8>, at: nat, bytes: seq<u8>)
    requires at + |bytes| <= output.Length
    modifies output
    ensures output[..at + |bytes|] == old(output[..at]) + bytes
  {
    for i := 0 to |bytes|
      invariant output[..at] == old(output[..at])
      invariant output[at..at + i] == bytes[..i]
    {
      output[at + i] := bytes[i];
      assert output[at..at + i + 1] == output[at..at + i] + [bytes[i]];
    }
    assert output[..at + |bytes|] == output[..at] + output[at..at + |bytes|];
  }

  function Parse(packet: seq<u8>, address: DeviceAddress, addressIsValid: u32 -> bool)
    : Result<ConnectRequest, ParseError>
  {
    if |packet| < 36 || packet[0] % 16 != 0x05 then Err(NotConnectInd)
    else if packet[1] % 64 != 34 then Err(InvalidLength)
    else
      var payload := packet[2..36];
      if payload[6..12] != address.bytes then Err(DifferentAdvertiser)
      else
        var accessAddress := FromLe32(payload[12], payload[13], payload[14], payload[15]);
        var crcInit := FromLe24(payload[16], payload[17], payload[18]);
        var hopSca := payload[33];
        if !addressIsValid(accessAddress) then Err(InvalidAccessAddress)
        else if !(5 <= hopSca % 32 <= 16) then Err(InvalidHopIncrement)
        else
          var c := ConnectRequest(
            payload[..6], (packet[0] / 64) % 2 != 0, accessAddress, crcInit,
            payload[19], FromLe16(payload[20], payload[21]), FromLe16(payload[22], payload[23]),
            FromLe16(payload[24], payload[25]), FromLe16(payload[26], payload[27]),
            payload[28..33], hopSca % 32, hopSca / 32);
          if !TimingIsValid(c) then Err(InvalidTiming)
          else if !MapIsValid(c.channelMap) then Err(InvalidChannelMap)
          else Ok(c)
  }

  lemma Le24Value(x: u32)
    ensures var b := Le24(x); FromLe24(b[0], b[1], b[2]) == x % 0x100_0000
  {
    var middle := x / 0x100;
    var top, low := middle / 0x100, 0x100 * (middle % 0x100) + x % 0x100;
    Remainder(x, 0x1_0000, top, low);
    Remainder(x, 0x100_0000, top / 0x100, 0x1_0000 * (top % 0x100) + low);
  }

  lemma Remainder(x: nat, d: nat, q: nat, r: nat)
    requires 0 <= r < d && x == d * q + r
    ensures x / d == q && x % d == r
  {
    MulCancel(q, x / d + 1, d);
    MulCancel(x / d, q + 1, d);
  }

  lemma EncodedAddresses(advertiser: DeviceAddress, c: ConnectRequest)
    ensures var p := Addresses(advertiser, c);
      p[0] % 16 == 5 && p[1] == 34 && p[2..8] == c.initiatorAddress && p[8..14] == advertiser.bytes
      && ((p[0] / 64) % 2 != 0 <==> c.initiatorAddressRandom)
  {
  }

  lemma EncodedParameters(c: ConnectRequest)
    requires c.hopIncrement < 32 && c.sleepClockAccuracy < 8
    ensures var p := Parameters(c);
      && FromLe32(p[0], p[1], p[2], p[3]) == c.accessAddress
      && FromLe24(p[4], p[5], p[6]) == c.crcInit % 0x100_0000 && p[7] == c.windowSize
      && FromLe16(p[8], p[9]) == c.windowOffset && FromLe16(p[10], p[11]) == c.interval
      && FromLe16(p[12], p[13]) == c.latency && FromLe16(p[14], p[15]) == c.supervisionTimeout
      && p[16..21] == c.channelMap && p[21] % 32 == c.hopIncrement && p[21] / 32 == c.sleepClockAccuracy
  {
    var p := Parameters(c);
    Le24Value(c.crcInit);
    assert p[0..4] == Le32(c.accessAddress) && p[4..7] == Le24(c.crcInit) && p[8..10] == Le16(c.windowOffset);
    assert p[10..12] == Le16(c.interval) && p[12..14] == Le16(c.latency);
    assert p[14..16] == Le16(c.supervisionTimeout);
    assert p[21] == c.hopIncrement + 32 * c.sleepClockAccuracy;
  }

  /** A built request parses back with its CRC initial value reduced to the 24 bits that are sent. */
  lemma BuiltRequestParses(initiator: DeviceAddress, advertiser: DeviceAddress, address: DeviceAddress,
                           c: ConnectRequest, addressIsValid: u32 -> bool)
    requires Buildable(initiator, c, addressIsValid) && address.bytes == advertiser.bytes
    ensures Parse(Encode(advertiser, c), address, addressIsValid)
         == Ok(c.(crcInit := c.crcInit % 0x100_0000))
  {
    var packet := Encode(advertiser, c);
    var payload := packet[2..36];
    EncodedAddresses(advertiser, c);
    EncodedParameters(c);
    assert packet[..14] == Addresses(advertiser, c);
    assert payload == Addresses(advertiser, c)[2..] + Parameters(c);
    assert payload[12..] == Parameters(c);
    assert payload[..6] == c.initiatorAddress && payload[6..12] == advertiser.bytes;
    assert payload[28..33] == payload[12..][16..21];
  }

  lemma CrcInitSurvives(parsed: Result<ConnectRequest, ParseError>, c: ConnectRequest)
    requires parsed == Ok(c.(crcInit := c.crcInit % 0x100_0000))
    ensures parsed == Ok(c) <==> c.crcInit < 0x100_0000
  {
  }

  /** Build then parse is the identity exactly for 24-bit CRC initial values. */
  lemma ConnectRoundTrip(initiator: DeviceAddress, advertiser: DeviceAddress,
                         c: ConnectRequest, addressIsValid: u32 -> bool)
    requires Buildable(initiator, c, addressIsValid)
    ensures Parse(Encode(advertiser, c), advertiser, addressIsValid) == Ok(c) <==> c.crcInit < 0x100_0000
  {
    BuiltRequestParses(initiator, advertiser, advertiser, c, addressIsValid);
    CrcInitSurvives(Parse(Encode(advertiser, c), advertiser, addressIsValid), c);
  }

  /** Whatever parses satisfies the timing, hop and map rules a connection starts from. */
  lemma ParsedRequestIsSound(packet: seq<u8>, address: DeviceAddress, addressIsValid: u32 -> bool)
    ensures var r := Parse(packet, address, addressIsValid);
      r.Ok? ==> TimingIsValid(r.value) && MapIsValid(r.value.channelMap) && 5 <= r.value.hopIncrement <= 16
  {
  }

  /** A built CONNECT_IND has its fields, little endian, at these octets (section 2.3.3.1). */
  lemma ConnectFieldsOnAir(advertiser: DeviceAddress, c: ConnectRequest)
    requires c.hopIncrement < 32 && c.sleepClockAccuracy < 8
    ensures var b := Encode(advertiser, c);
      && |b| == 36 && b[1] == 34
      && b[0] == 5 + (if c.initiatorAddressRandom then 0x40 else 0) + (if advertiser.random then 0x80 else 0)
      && b[2..8] == c.initiatorAddress && b[8..14] == advertiser.bytes
      && b[14] == c.accessAddress % 0x1_0000 % 0x100 && b[15] == c.accessAddress % 0x1_0000 / 0x100
      && b[16] == c.accessAddress / 0x1_0000 % 0x100 && b[17] == c.accessAddress / 0x1_0000 / 0x100
      && b[18] == c.crcInit % 0x100 && b[19] == c.crcInit / 0x100 % 0x100 && b[20] == c.crcInit / 0x1_0000 % 0x100
      && b[21] == c.windowSize && b[22] == c.windowOffset % 0x100 && b[23] == c.windowOffset / 0x100
      && b[24] == c.interval % 0x100 && b[25] == c.interval / 0x100
      && b[26] == c.latency % 0x100 && b[27] == c.latency / 0x100
      && b[28] == c.supervisionTimeout % 0x100 && b[29] == c.supervisionTimeout / 0x100
      && b[30..35] == c.channelMap && b[35] == c.hopIncrement + 0x20 * c.sleepClockAccuracy
  {
    var a, p, b := Addresses(advertiser, c), Parameters(c), Encode(advertiser, c);
    AddressOctets(advertiser, c);
    ParameterOctets(c);
    assert b[2..8] == a[2..8] && b[8..14] == a[8..14] && b[30..35] == p[16..21];
    assert forall k :: 0 <= k < 22 ==> b[14 + k] == p[k];
  }

  lemma AddressOctets(advertiser: DeviceAddress, c: ConnectRequest)
    ensures var a := Addresses(advertiser, c);
      && a[0] == 5 + (if c.initiatorAddressRandom then 0x40 else 0) + (if advertiser.random then 0x80 else 0)
      && a[1] == 34 && a[2..8] == c.initiatorAddress && a[8..14] == advertiser.bytes
  {
  }

  lemma ParameterOctets(c: ConnectRequest)
    requires c.hopIncrement < 32 && c.sleepClockAccuracy < 8
    ensures var p := Parameters(c);
      && p[..4] == Le32(c.accessAddress) && p[4..7] == Le24(c.crcInit) && p[7] == c.windowSize
      && p[8..10] == Le16(c.windowOffset) && p[10..12] == Le16(c.interval) && p[12..14] == Le16(c.latency)
      && p[14..16] == Le16(c.supervisionTimeout) && p[16..21] == c.channelMap
      && p[21] == c.hopIncrement + 0x20 * c.sleepClockAccuracy
  {
  }

  /** Parsing accepts exactly the CONNECT_INDs to this advertiser whose fields are all valid. */
  lemma ParsesExactly(packet: seq<u8>, address: DeviceAddress, addressIsValid: u32 -> bool)
    ensures Parse(packet, address, addressIsValid).Ok? <==>
      && |packet| >= 36 && packet[0] % 16 == 5 && packet[1] % 64 == 34 && packet[8..14] == address.bytes
      && addressIsValid(FromLe32(packet[14], packet[15], packet[16], packet[17]))
      && 5 <= packet[35] % 32 <= 16 && MapIsValid(packet[30..35])
      && ConnectionTimingIsValid(packet[21], FromLe16(packet[22], packet[23]), FromLe16(packet[24], packet[25]),
                                 FromLe16(packet[26], packet[27]), FromLe16(packet[28], packet[29]))
  {
    if |packet| >= 36 {
      var payload := packet[2..36];
      assert payload[6..12] == packet[8..14] && payload[28..33] == packet[30..35];
    }
  }
}
