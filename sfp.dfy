/**
 * The Sfp port object: the shared port-to-EEPROM table its constructor fills, the
 * EEPROM byte reader, get_transceiver_info, and the reset sequence.  File contents
 * are parameters: the EEPROM files as a map from path to bytes, the CPLD registers
 * as integers or RegisterFile objects.
 */
module SfpPort {
  import opened Outcomes
  import opened Bits
  import opened Text
  import opened Layout
  import opened Registers
  import TransceiverInfo

  /** The class-level `_port_to_eeprom_mapping` dict: one table shared by every Sfp. */
  class PortToEeprom {
    var paths: map<int, string>

    constructor ()
      ensures paths == map[]
    {
      paths := map[];
    }
  }

  /** The EEPROM files by path; a path that is not a key cannot be opened. */
  type Eeproms = map<string, seq<Byte>>

  /** `seek(offset)` then `read(n)` on a file: up to n bytes from offset, fewer at the end of the file. */
  function ReadAt(contents: seq<Byte>, offset: nat, n: nat): (raw: seq<Byte>)
    ensures |raw| == if offset + n <= |contents| then n else if offset <= |contents| then |contents| - offset else 0
    ensures forall i :: 0 <= i < |raw| ==> raw[i] == contents[offset + i]
  {
    if offset >= |contents| then []
    else if offset + n <= |contents| then contents[offset..offset + n]
    else contents[offset..]
  }

  /** The list the reader starts from: n placeholders. */
  function Placeholders(n: nat): seq<string> {
    seq(n, _ => Placeholder)
  }

  /**
   * The reader's list once the first m bytes of raw have replaced their
   * placeholders: n entries, the first m of them in hex.
   */
  function Rendered(raw: seq<Byte>, m: nat, n: nat): seq<string>
    requires m <= |raw|
  {
    seq(n, i requires 0 <= i < n => if i < m then ByteHex(raw[i]) else Placeholder)
  }

  /**
   * The byte reader as intended (`sys` imported, Python 3 branch): the port's path is
   * looked up outside the try, so a missing port raises KeyError; then every byte read
   * replaces its placeholder by its two hex digits.  A file that cannot be opened, or a
   * short read (whose first missing byte raises IndexError inside the try), leaves the
   * remaining entries as placeholders.
   */
  function EepromBytes(paths: map<int, string>, port: int, eeproms: Eeproms, offset: nat, n: nat): (r: Outcome<seq<string>>)
    ensures r.Raised? <==> port !in paths
    ensures r.Raised? ==> r.error == KeyError
    ensures r.Returned? ==> |r.value| == n
  {
    if port !in paths then Raised(KeyError)
    else if paths[port] !in eeproms then Returned(Placeholders(n))
    else
      var raw := ReadAt(eeproms[paths[port]], offset, n);
      Returned(Rendered(raw, |raw|, n))
  }

  /**
   * The byte reader as written: `sys` is never imported, so `sys.version_info` raises
   * NameError inside the try on every successful read; the except swallows it and the
   * placeholders come back untouched.
   */
  function EepromBytesAsWritten(paths: map<int, string>, port: int, n: nat): (r: Outcome<seq<string>>)
    ensures r.Raised? <==> port !in paths
    ensures r.Raised? ==> r.error == KeyError
    ensures r.Returned? ==> |r.value| == n && forall i :: 0 <= i < n ==> r.value[i] == Placeholder
  {
    if port !in paths then Raised(KeyError) else Returned(Placeholders(n))
  }

  /** Entry i of a rendered read is byte offset + i of the file in hex when there is one, else "0x00". */
  lemma RenderedRead(contents: seq<Byte>, offset: nat, n: nat, i: nat)
    requires i < n
    ensures var raw := ReadAt(contents, offset, n); var r := Rendered(raw, |raw|, n);
      |r| == n &&
      if offset + i < |contents| then r[i] == ByteHex(contents[offset + i]) else r[i] == Placeholder
  {
    var raw := ReadAt(contents, offset, n);
    var r := Rendered(raw, |raw|, n);
    if offset + i < |contents| {
      assert i < |raw|;
      assert r[i] == ByteHex(raw[i]);
    } else {
      assert i >= |raw|;
    }
  }

  /** Overwriting entry k with the next byte extends the rendered prefix by one. */
  lemma RenderedStep(raw: seq<Byte>, k: nat, n: nat)
    requires k < |raw| && k < n
    ensures Rendered(raw, k, n)[k := ByteHex(raw[k])] == Rendered(raw, k + 1, n)
  {
    var left := Rendered(raw, k, n)[k := ByteHex(raw[k])];
    var right := Rendered(raw, k + 1, n);
    assert |left| == n == |right|;
    forall j | 0 <= j < n
      ensures left[j] == right[j]
    {
      if j != k {
        assert left[j] == Rendered(raw, k, n)[j];
      }
    }
  }

  /**
   * The reader returns exactly n entries: entry i is byte offset + i of the port's
   * EEPROM in two lower-case hex digits (ByteHex, which parses back to the byte)
   * when the file has that byte, and "0x00" otherwise.
   */
  lemma EepromBytesRendersBytes(paths: map<int, string>, port: int, eeproms: Eeproms, offset: nat, n: nat, i: nat)
    requires i < n
    ensures EepromBytes(paths, port, eeproms, offset, n).Raised? <==> port !in paths
    ensures port in paths ==>
      var r := EepromBytes(paths, port, eeproms, offset, n).value;
      && |r| == n
      && if paths[port] in eeproms && offset + i < |eeproms[paths[port]]| then
           r[i] == ByteHex(eeproms[paths[port]][offset + i])
         else r[i] == Placeholder
  {
    if port in paths && paths[port] in eeproms {
      RenderedRead(eeproms[paths[port]], offset, n, i);
    }
  }

  /**
   * As written, a byte the EEPROM does hold still reads back as the placeholder,
   * where the intended reader returns its hex digits.
   */
  lemma ReaderAsWrittenDiscardsBytes(paths: map<int, string>, port: int, eeproms: Eeproms, offset: nat)
    requires port in paths && paths[port] in eeproms && offset < |eeproms[paths[port]]|
    ensures EepromBytesAsWritten(paths, port, 1) == Returned([Placeholder])
    ensures EepromBytes(paths, port, eeproms, offset, 1) == Returned([ByteHex(eeproms[paths[port]][offset])])
    ensures ByteHex(eeproms[paths[port]][offset]) != Placeholder
  {
    assert Placeholders(1) == [Placeholder];
    var contents := eeproms[paths[port]];
    var raw := ReadAt(contents, offset, 1);
    assert raw == [contents[offset]];
    assert Rendered(raw, 1, 1) == [ByteHex(contents[offset])];
    ByteHexIsNotPlaceholder(contents[offset]);
  }

  /** Which parser object a memory map uses. */
  function InterfaceIdFor(m: MemoryMap, sff8436: TransceiverInfo.InterfaceId, sff8472: TransceiverInfo.InterfaceId): TransceiverInfo.InterfaceId {
    match m
    case Sff8436UpperPage00 => sff8436
    case Sff8472A0 => sff8472
  }

  /** The read of one serial-ID field. */
  function FieldBytes(paths: map<int, string>, port: int, eeproms: Eeproms, m: MemoryMap, f: Field): Outcome<seq<string>> {
    EepromBytes(paths, port, eeproms, FieldSpan(m, f).offset, FieldSpan(m, f).width)
  }

  /**
   * get_transceiver_info: `{}` for a port that is not present; otherwise the seven
   * field reads of the port's layout, each handed to its parser, then the assembly.
   */
  function TransceiverInfoOf(
    paths: map<int, string>, port: int, infoDictKeys: seq<TransceiverInfo.InfoKey>, presence: Option<nat>,
    eeproms: Eeproms, sff8436: TransceiverInfo.InterfaceId, sff8472: TransceiverInfo.InterfaceId)
    : (r: Outcome<map<TransceiverInfo.InfoKey, TransceiverInfo.Info>>)
    ensures r.Raised? ==> Presence(port, presence)
    ensures r.Returned? && r.value != map[] ==> Presence(port, presence) && port in paths
  {
    var m := MemoryMapOf(port);
    var id := InterfaceIdFor(m, sff8436, sff8472);
    if !Presence(port, presence) then Returned(map[])
    else
      var bulk :- FieldBytes(paths, port, eeproms, m, InterfaceBulk);
      var name :- FieldBytes(paths, port, eeproms, m, VendorName);
      var pn :- FieldBytes(paths, port, eeproms, m, VendorPn);
      var rev :- FieldBytes(paths, port, eeproms, m, VendorRev);
      var sn :- FieldBytes(paths, port, eeproms, m, VendorSn);
      var oui :- FieldBytes(paths, port, eeproms, m, VendorOui);
      var date :- FieldBytes(paths, port, eeproms, m, VendorDate);
      TransceiverInfo.Assemble(infoDictKeys, m, TransceiverInfo.Parsed(
        id.parseSfpInfoBulk(bulk), id.parseVendorName(name), id.parseVendorPn(pn), id.parseVendorRev(rev),
        id.parseVendorSn(sn), id.parseVendorOui(oui), id.parseVendorDate(date)))
  }

  /** The read of one serial-ID field by the reader as written. */
  function FieldBytesAsWritten(paths: map<int, string>, port: int, m: MemoryMap, f: Field): Outcome<seq<string>> {
    EepromBytesAsWritten(paths, port, FieldSpan(m, f).width)
  }

  /**
   * get_transceiver_info as written: every read hands its parser placeholders only,
   * so the EEPROMs are not a parameter.
   */
  function TransceiverInfoOfAsWritten(
    paths: map<int, string>, port: int, infoDictKeys: seq<TransceiverInfo.InfoKey>, presence: Option<nat>,
    sff8436: TransceiverInfo.InterfaceId, sff8472: TransceiverInfo.InterfaceId)
    : (r: Outcome<map<TransceiverInfo.InfoKey, TransceiverInfo.Info>>)
    ensures r.Raised? ==> Presence(port, presence)
    ensures r.Returned? && r.value != map[] ==> Presence(port, presence) && port in paths
  {
    var m := MemoryMapOf(port);
    var id := InterfaceIdFor(m, sff8436, sff8472);
    if !Presence(port, presence) then Returned(map[])
    else
      var bulk :- FieldBytesAsWritten(paths, port, m, InterfaceBulk);
      var name :- FieldBytesAsWritten(paths, port, m, VendorName);
      var pn :- FieldBytesAsWritten(paths, port, m, VendorPn);
      var rev :- FieldBytesAsWritten(paths, port, m, VendorRev);
      var sn :- FieldBytesAsWritten(paths, port, m, VendorSn);
      var oui :- FieldBytesAsWritten(paths, port, m, VendorOui);
      var date :- FieldBytesAsWritten(paths, port, m, VendorDate);
      TransceiverInfo.Assemble(infoDictKeys, m, TransceiverInfo.Parsed(
        id.parseSfpInfoBulk(bulk), id.parseVendorName(name), id.parseVendorPn(pn), id.parseVendorRev(rev),
        id.parseVendorSn(sn), id.parseVendorOui(oui), id.parseVendorDate(date)))
  }

  /**
   * As written, get_transceiver_info returns, whatever the EEPROMs hold, what the
   * intended one returns when no EEPROM file can be opened.
   */
  lemma TransceiverInfoAsWrittenReadsNothing(
    paths: map<int, string>, port: int, infoDictKeys: seq<TransceiverInfo.InfoKey>, presence: Option<nat>,
    sff8436: TransceiverInfo.InterfaceId, sff8472: TransceiverInfo.InterfaceId)
    ensures TransceiverInfoOfAsWritten(paths, port, infoDictKeys, presence, sff8436, sff8472) ==
      TransceiverInfoOf(paths, port, infoDictKeys, presence, map[], sff8436, sff8472)
  {
    var m := MemoryMapOf(port);
    forall f: Field
      ensures FieldBytesAsWritten(paths, port, m, f) == FieldBytes(paths, port, map[], m, f)
    {
    }
  }

  /** A port that is not present, or not a port, gets the empty dict. */
  lemma AbsentPortHasNoInfo(
    paths: map<int, string>, port: int, infoDictKeys: seq<TransceiverInfo.InfoKey>, presence: Option<nat>,
    eeproms: Eeproms, sff8436: TransceiverInfo.InterfaceId, sff8472: TransceiverInfo.InterfaceId)
    requires !IsPort(port) || presence.None? || Bit(presence.value, 39 - port) == 1
    ensures TransceiverInfoOf(paths, port, infoDictKeys, presence, eeproms, sff8436, sff8472) == Returned(map[])
  {
    PresenceIsActiveLow(port, presence);
  }

  /**
   * For a present port, a dict that comes back has exactly the keys of info_dict_keys,
   * and application_advertisement is 'N/A'.
   */
  lemma PresentPortInfoKeys(
    paths: map<int, string>, port: int, presence: Option<nat>,
    eeproms: Eeproms, sff8436: TransceiverInfo.InterfaceId, sff8472: TransceiverInfo.InterfaceId)
    ensures var r := TransceiverInfoOf(paths, port, TransceiverInfo.InfoDictKeys, presence, eeproms, sff8436, sff8472);
      Presence(port, presence) && r.Returned? ==>
        (forall k :: k in r.value <==> k in TransceiverInfo.InfoDictKeys) &&
        r.value[TransceiverInfo.ApplicationAdvertisement] == TransceiverInfo.Text(TransceiverInfo.NotAvailable)
  {
    var r := TransceiverInfoOf(paths, port, TransceiverInfo.InfoDictKeys, presence, eeproms, sff8436, sff8472);
    if Presence(port, presence) && r.Returned? {
      var m := MemoryMapOf(port);
      var id := InterfaceIdFor(m, sff8436, sff8472);
      var p := TransceiverInfo.Parsed(
        id.parseSfpInfoBulk(FieldBytes(paths, port, eeproms, m, InterfaceBulk).value),
        id.parseVendorName(FieldBytes(paths, port, eeproms, m, VendorName).value),
        id.parseVendorPn(FieldBytes(paths, port, eeproms, m, VendorPn).value),
        id.parseVendorRev(FieldBytes(paths, port, eeproms, m, VendorRev).value),
        id.parseVendorSn(FieldBytes(paths, port, eeproms, m, VendorSn).value),
        id.parseVendorOui(FieldBytes(paths, port, eeproms, m, VendorOui).value),
        id.parseVendorDate(FieldBytes(paths, port, eeproms, m, VendorDate).value));
      TransceiverInfo.AssembledInfoKeys(m, p);
    }
  }

  /** The entries the constructor has written once it reaches port x. */
  function PathsBelow(x: int): map<int, string> {
    map y | y in PortSet() && y < x :: EepromPath(y + EepromOffset)
  }

  /** Updating a union at a key updates its right-hand side. */
  lemma UnionUpdate(m: map<int, string>, n: map<int, string>, k: int, v: string)
    ensures (m + n)[k := v] == m + n[k := v]
  {
  }

  /** Port x's entry is the one the next turn adds. */
  lemma PathsBelowGrows(x: int)
    requires IsPort(x)
    ensures PathsBelow(x + 1) == PathsBelow(x)[x := EepromPath(x + EepromOffset)]
  {
    var next := PathsBelow(x + 1);
    var grown := PathsBelow(x)[x := EepromPath(x + EepromOffset)];
    assert next.Keys == grown.Keys by {
      forall y ensures y in next <==> y in grown {
      }
    }
  }

  /** One more turn of the constructor's loop adds port x's entry. */
  lemma PathsBelowStep(paths: map<int, string>, x: int)
    requires IsPort(x)
    ensures (paths + PathsBelow(x))[x := EepromPath(x + EepromOffset)] == paths + PathsBelow(x + 1)
  {
    UnionUpdate(paths, PathsBelow(x), x, EepromPath(x + EepromOffset));
    PathsBelowGrows(x);
  }

  /** Before port 0 nothing is written; after port 33 the whole table is. */
  lemma PathsBelowEnds()
    ensures PathsBelow(PortStart) == map[]
    ensures PathsBelow(PortEnd + 1) == PathTable()
  {
    assert forall y :: y in PathsBelow(PortEnd + 1) <==> y in PortSet();
  }

  /** Filling the shared table a second time changes nothing. */
  lemma ConstructionIsIdempotent(paths: map<int, string>)
    ensures (paths + PathTable()) + PathTable() == paths + PathTable()
  {
  }

  class Sfp {
    var index: int
    var portNum: int
    var infoDictKeys: seq<TransceiverInfo.InfoKey>
    /** The shared `_port_to_eeprom_mapping`. */
    const mapping: PortToEeprom

    /**
     * Sfp(sfp_index): records the index and writes the EEPROM path of every port
     * 0..33 into the shared table, overwriting what other instances wrote there.
     */
    constructor (shared: PortToEeprom, sfpIndex: int := 0)
      modifies shared
      ensures index == sfpIndex && portNum == sfpIndex && mapping == shared
      ensures infoDictKeys == TransceiverInfo.InfoDictKeys
      ensures shared.paths == old(shared.paths) + PathTable()
    {
      index := sfpIndex;
      portNum := sfpIndex;
      mapping := shared;
      infoDictKeys := TransceiverInfo.InfoDictKeys;
      new;
      ghost var start := shared.paths;
      PathsBelowEnds();
      var x := PortStart;
      while x < PortEnd + 1
        invariant PortStart <= x <= PortEnd + 1
        invariant index == sfpIndex && portNum == sfpIndex && mapping == shared
        invariant infoDictKeys == TransceiverInfo.InfoDictKeys
        invariant shared.paths == start + PathsBelow(x)
      {
        PathsBelowStep(start, x);
        shared.paths := shared.paths[x := EepromPath(x + EepromOffset)];
        x := x + 1;
      }
    }

    /** __read_eeprom_specific_bytes as written. */
    method ReadEepromSpecificBytesAsWritten(offset: nat, numBytes: nat, eeproms: Eeproms) returns (r: Outcome<seq<string>>)
      ensures r == EepromBytesAsWritten(mapping.paths, portNum, numBytes)
    {
      var eepromRaw: seq<string> := [];
      var i := 0;
      while i < numBytes
        invariant 0 <= i <= numBytes
        invariant eepromRaw == Placeholders(i)
      {
        eepromRaw := eepromRaw + [Placeholder];
        i := i + 1;
      }
      if portNum !in mapping.paths {
        return Raised(KeyError);
      }
      // open, seek and read either fail or succeed; either way the next step,
      // `sys.version_info`, raises NameError, which the except swallows.
      r := Returned(eepromRaw);
    }

    /** __read_eeprom_specific_bytes as intended. */
    method ReadEepromSpecificBytes(offset: nat, numBytes: nat, eeproms: Eeproms) returns (r: Outcome<seq<string>>)
      ensures r == EepromBytes(mapping.paths, portNum, eeproms, offset, numBytes)
    {
      var eepromRaw: seq<string> := [];
      var i := 0;
      while i < numBytes
        invariant 0 <= i <= numBytes
        invariant eepromRaw == Placeholders(i)
      {
        eepromRaw := eepromRaw + [Placeholder];
        i := i + 1;
      }
      if portNum !in mapping.paths {
        return Raised(KeyError);
      }
      var path := mapping.paths[portNum];
      if path in eeproms {
        var raw := ReadAt(eeproms[path], offset, numBytes);
        assert eepromRaw == Rendered(raw, 0, numBytes) by {
          assert forall j :: 0 <= j < numBytes ==> eepromRaw[j] == Placeholder;
        }
        var n := 0;
        while n < numBytes
          invariant 0 <= n <= numBytes && n <= |raw|
          invariant eepromRaw == Rendered(raw, n, numBytes)
        {
          if n >= |raw| {
            break;  // raw[n] raises IndexError; the except keeps what was filled so far
          }
          RenderedStep(raw, n, numBytes);
          eepromRaw := eepromRaw[n := ByteHex(raw[n])];
          n := n + 1;
        }
        assert n == |raw|;
      }
      r := Returned(eepromRaw);
    }

    /** get_transceiver_info, reading with the corrected reader. */
    method GetTransceiverInfo(
      presence: Option<nat>, eeproms: Eeproms, sff8436: TransceiverInfo.InterfaceId, sff8472: TransceiverInfo.InterfaceId)
      returns (r: Outcome<map<TransceiverInfo.InfoKey, TransceiverInfo.Info>>)
      ensures r == TransceiverInfoOf(mapping.paths, portNum, infoDictKeys, presence, eeproms, sff8436, sff8472)
    {
      var m := MemoryMapOf(portNum);
      var id := InterfaceIdFor(m, sff8436, sff8472);
      if !Presence(portNum, presence) {
        return Returned(map[]);
      }
      var bulkRaw :- ReadEepromSpecificBytes(FieldSpan(m, InterfaceBulk).offset, FieldSpan(m, InterfaceBulk).width, eeproms);
      var nameRaw :- ReadEepromSpecificBytes(FieldSpan(m, VendorName).offset, FieldSpan(m, VendorName).width, eeproms);
      var pnRaw :- ReadEepromSpecificBytes(FieldSpan(m, VendorPn).offset, FieldSpan(m, VendorPn).width, eeproms);
      var revRaw :- ReadEepromSpecificBytes(FieldSpan(m, VendorRev).offset, FieldSpan(m, VendorRev).width, eeproms);
      var snRaw :- ReadEepromSpecificBytes(FieldSpan(m, VendorSn).offset, FieldSpan(m, VendorSn).width, eeproms);
      var ouiRaw :- ReadEepromSpecificBytes(FieldSpan(m, VendorOui).offset, FieldSpan(m, VendorOui).width, eeproms);
      var dateRaw :- ReadEepromSpecificBytes(FieldSpan(m, VendorDate).offset, FieldSpan(m, VendorDate).width, eeproms);
      var parsed := TransceiverInfo.Parsed(
        id.parseSfpInfoBulk(bulkRaw), id.parseVendorName(nameRaw), id.parseVendorPn(pnRaw), id.parseVendorRev(revRaw),
        id.parseVendorSn(snRaw), id.parseVendorOui(ouiRaw), id.parseVendorDate(dateRaw));
      r := TransceiverInfo.AssembleInfo(infoDictKeys, m, parsed);
    }

    /** get_transceiver_info as written, reading with the reader as written. */
    method GetTransceiverInfoAsWritten(
      presence: Option<nat>, eeproms: Eeproms, sff8436: TransceiverInfo.InterfaceId, sff8472: TransceiverInfo.InterfaceId)
      returns (r: Outcome<map<TransceiverInfo.InfoKey, TransceiverInfo.Info>>)
      ensures r == TransceiverInfoOfAsWritten(mapping.paths, portNum, infoDictKeys, presence, sff8436, sff8472)
    {
      var m := MemoryMapOf(portNum);
      var id := InterfaceIdFor(m, sff8436, sff8472);
      if !Presence(portNum, presence) {
        return Returned(map[]);
      }
      var bulkRaw :- ReadEepromSpecificBytesAsWritten(FieldSpan(m, InterfaceBulk).offset, FieldSpan(m, InterfaceBulk).width, eeproms);
      var nameRaw :- ReadEepromSpecificBytesAsWritten(FieldSpan(m, VendorName).offset, FieldSpan(m, VendorName).width, eeproms);
      var pnRaw :- ReadEepromSpecificBytesAsWritten(FieldSpan(m, VendorPn).offset, FieldSpan(m, VendorPn).width, eeproms);
      var revRaw :- ReadEepromSpecificBytesAsWritten(FieldSpan(m, VendorRev).offset, FieldSpan(m, VendorRev).width, eeproms);
      var snRaw :- ReadEepromSpecificBytesAsWritten(FieldSpan(m, VendorSn).offset, FieldSpan(m, VendorSn).width, eeproms);
      var ouiRaw :- ReadEepromSpecificBytesAsWritten(FieldSpan(m, VendorOui).offset, FieldSpan(m, VendorOui).width, eeproms);
      var dateRaw :- ReadEepromSpecificBytesAsWritten(FieldSpan(m, VendorDate).offset, FieldSpan(m, VendorDate).width, eeproms);
      var parsed := TransceiverInfo.Parsed(
        id.parseSfpInfoBulk(bulkRaw), id.parseVendorName(nameRaw), id.parseVendorPn(pnRaw), id.parseVendorRev(revRaw),
        id.parseVendorSn(snRaw), id.parseVendorOui(ouiRaw), id.parseVendorDate(dateRaw));
      r := TransceiverInfo.AssembleInfo(infoDictKeys, m, parsed);
    }

    /** get_reset_status as written: the port is left in reset and NameError escapes. */
    method GetResetStatusAsWritten(reg: RegisterFile) returns (r: Outcome<bool>)
      modifies reg
      ensures r == ResetAsWritten(portNum, old(reg.Content())).result
      ensures reg.writes == old(reg.writes) + ResetAsWritten(portNum, old(reg.Content())).writes
      ensures reg.openable == old(reg.openable)
      ensures reg.value == if r.Raised? then ResetAsWritten(portNum, old(reg.Content())).writes[0] else old(reg.value)
    {
      if portNum < PortStart || portNum > PortEndQsfp {
        return Returned(false);
      }
      if !reg.openable {
        return Returned(false);
      }
      var regValue := reg.value;
      var mask := Pow2(QsfpControlBit(portNum));
      regValue := AndNot(regValue, mask);
      reg.Write(regValue);
      r := Raised(NameError("time"));
    }

    /** get_reset_status as intended: pulse the port's ResetL bit low, then high again. */
    method GetResetStatus(reg: RegisterFile) returns (r: Outcome<bool>)
      modifies reg
      ensures r == Reset(portNum, old(reg.Content())).result
      ensures reg.writes == old(reg.writes) + Reset(portNum, old(reg.Content())).writes
      ensures reg.openable == old(reg.openable)
      ensures reg.value == if r == Returned(true) then Reset(portNum, old(reg.Content())).writes[1] else old(reg.value)
    {
      if portNum < PortStart || portNum > PortEndQsfp {
        return Returned(false);
      }
      if !reg.openable {
        return Returned(false);
      }
      var regValue := reg.value;
      var mask := Pow2(QsfpControlBit(portNum));
      regValue := AndNot(regValue, mask);
      reg.Write(regValue);
      // time.sleep(1) lets the port settle; the same register file is opened again.
      regValue := Or(regValue, mask);
      reg.Write(regValue);
      r := Returned(true);
    }
  }
}
