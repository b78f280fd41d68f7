# Delta AG9032v2 SFP/QSFP port object, modelled in Dafny

This project models the `Sfp` class of the Delta AG9032v2 platform driver for SONiC
(`sonic_platform/sfp.py`). The switch has 32 QSFP ports (indices 0..31) and two SFP
ports (32 and 33). The model covers:

- **The shared port-to-EEPROM table.** Every `Sfp(sfp_index)` writes the sysfs path
  `/sys/bus/i2c/devices/{x+20}-0050/eeprom` for ports 0..33 into a class-level dict
  that all instances share. In the model this is the `PortToEeprom` class, with an
  `Sfp` constructor whose loop fills it.
- **The EEPROM byte reader.** It starts from `num_bytes` placeholders `"0x00"`. It
  looks up the port's path, which raises KeyError for an unknown port. As intended,
  it then seeks, reads and renders each byte as `hex(b)[2:].zfill(2)`, and any
  exception inside the `try` is swallowed. As written, `sys` is not imported, so the
  first rendering step raises NameError, which the `try` swallows: only placeholders
  come back (see Findings). The model has both readers.
- **get_transceiver_info.**
  - A port that is not present gets `{}`.
  - Otherwise seven serial-ID fields are read at the offsets of the port's layout:
    SFF-8436 upper page 00 from byte 128 for QSFP, SFF-8472 A0h from byte 0 for SFP.
  - Each field goes to the matching parser of `sff8436InterfaceId` or
    `sff8472InterfaceId`.
  - The result is assembled into a dict keyed by `info_dict_keys`. Keys left unwritten
    stay `'N/A'`; the cable type/length come from the last cable-length key present
    (else `"Unknown"`); the compliance codes are filtered from the parser's dict.
  - Every `KeyError`/`TypeError` the assembly can raise is an explicit error outcome.
- **The CPLD register bits.**
  - `get_presence`: ModPrsL, active low, bit `39 - port`.
  - `get_lpmode`: LPMode, active high, bit `32 - port`. The mask
    `1 << (port_end - port_num) - 1` parses as `1 << (32 - port)`.
  - `get_reset_status`: ResetL, active low, same bit. As intended, it clears the bit,
    writes the register back, waits, then sets the bit again. As written, `time` is
    not imported, so the wait raises NameError after the clearing write and the port
    stays in reset (see Findings). The model has both versions.

Python's `&`, `|` and `& ~` on non-negative integers are defined bit by bit
(module `Bits`). Register files are `RegisterFile` objects, or `Option<nat>` values
where only a read is involved. EEPROM files are a map from path to bytes. The two
interface-id parsers are a datatype of function values, so the model holds for any
parser that returns either a falsy result or a truthy one with a 'data' dict whose
values are strings, integers or nested dicts; parsers
that raise, that return `{}`, or whose records lack 'value' are outside it (see
"## Left out"). Python exceptions are the `Raised` case of `Outcome`.

Modules: `Outcomes`, `Bits`, `Text`, `Layout`, `Registers`, `TransceiverInfo`, `SfpPort`.

## Model

| member | source | states |
|---|---|---|
| Bits.AndWithPow2 | platform/broadcom/sonic-platform-modules-delta/ag9032v2/sonic_platform/sfp.py:348-351 | `reg & (1 << k)` is the mask itself when bit k of reg is set and 0 otherwise, so the mask test reads exactly one bit |
| Text.ByteHex | platform/broadcom/sonic-platform-modules-delta/ag9032v2/sonic_platform/sfp.py:177 | `hex(b)[2:].zfill(2)` of a byte is two lower-case hex digits that parse back to the byte |
| Text.ByteHexInjective | platform/broadcom/sonic-platform-modules-delta/ag9032v2/sonic_platform/sfp.py:177 | different bytes are rendered differently |
| Text.ByteHexIsNotPlaceholder | platform/broadcom/sonic-platform-modules-delta/ag9032v2/sonic_platform/sfp.py:166-177 | a rendered byte can never be mistaken for the placeholder "0x00" |
| Text.DecimalRoundTrip | platform/broadcom/sonic-platform-modules-delta/ag9032v2/sonic_platform/sfp.py:151-154 | `str(n)` of a bus number parses back to n |
| Layout.Ports | platform/broadcom/sonic-platform-modules-delta/ag9032v2/sonic_platform/sfp.py:153 | `range(port_start, port_end + 1)` is exactly the indices 0..33 |
| Layout.MemoryMapOf | platform/broadcom/sonic-platform-modules-delta/ag9032v2/sonic_platform/sfp.py:215-218 | among the valid ports, exactly the SFP ones (from PORT_START_SFP, 32) read the SFF-8472 layout; every index up to PORT_END_QSFP reads SFF-8436 |
| Layout.PortSelectsMemoryMap | platform/broadcom/sonic-platform-modules-delta/ag9032v2/sonic_platform/sfp.py:215-249 | SFP ports (index > 31) read SFF-8472 from offset 0 with a 21-byte bulk and a 4-byte revision; all other indices read SFF-8436 from offset 128 with 20 and 2 |
| Layout.FieldSpansInsidePage | platform/broadcom/sonic-platform-modules-delta/ag9032v2/sonic_platform/sfp.py:22-46 | every field read lies inside the first 92 bytes of the serial-ID page |
| Layout.FieldSpansOverlap | platform/broadcom/sonic-platform-modules-delta/ag9032v2/sonic_platform/sfp.py:28-46 | no QSFP byte is read twice; on SFP only byte 20 is, by the bulk and the vendor name |
| Layout.QsfpPortsAsWritten | platform/broadcom/sonic-platform-modules-delta/ag9032v2/sonic_platform/sfp.py:137-138 | `qsfp_ports` as written holds 31 indices, exactly 0..30 |
| Layout.QsfpPorts | platform/broadcom/sonic-platform-modules-delta/ag9032v2/sonic_platform/sfp.py:137-138 | `qsfp_ports` as intended holds 32 indices, exactly 0..31 |
| Layout.QsfpPortsAsWrittenMissesPort31 | platform/broadcom/sonic-platform-modules-delta/ag9032v2/sonic_platform/sfp.py:137-138 | `range(PORT_START, PORT_END_QSFP)` leaves out port 31, which reads the QSFP layout |
| Layout.QsfpPortsMatchMemoryMap | platform/broadcom/sonic-platform-modules-delta/ag9032v2/sonic_platform/sfp.py:137-138 | the corrected list holds exactly the valid ports that read the QSFP layout |
| Layout.EepromPathFormat | platform/broadcom/sonic-platform-modules-delta/ag9032v2/sonic_platform/sfp.py:151-154 | the EEPROM path is the prefix `/sys/bus/i2c/devices/`, the bus number in decimal, and the suffix `-0050/eeprom`; the number between them reads back as the bus |
| Layout.EepromPathInjective | platform/broadcom/sonic-platform-modules-delta/ag9032v2/sonic_platform/sfp.py:151-154 | different i2c buses get different EEPROM paths |
| Layout.PathTableIsOneToOne | platform/broadcom/sonic-platform-modules-delta/ag9032v2/sonic_platform/sfp.py:151-154 | the table covers exactly ports 0..33 and no two ports share an EEPROM path |
| Layout.PathTable | platform/broadcom/sonic-platform-modules-delta/ag9032v2/sonic_platform/sfp.py:153-154 | the table written by the constructor maps exactly ports 0..33, each to the EEPROM path of i2c bus port + 20 |
| Registers.PresenceBit | platform/broadcom/sonic-platform-modules-delta/ag9032v2/sonic_platform/sfp.py:348 | the presence shift `port_end - port_num + 6` is 39 - port, a distinct bit in 6..39 per port |
| Registers.Presence | platform/broadcom/sonic-platform-modules-delta/ag9032v2/sonic_platform/sfp.py:326-354 | get_presence: True only for a valid index whose register file opens |
| Registers.PresenceIsActiveLow | platform/broadcom/sonic-platform-modules-delta/ag9032v2/sonic_platform/sfp.py:332-354 | a port is present iff it is a valid index, the file opens, and its ModPrsL bit is 0 |
| Registers.PresenceReadsOwnBit | platform/broadcom/sonic-platform-modules-delta/ag9032v2/sonic_platform/sfp.py:347-354 | presence depends only on the port's own bit |
| Registers.QsfpControlBit | platform/broadcom/sonic-platform-modules-delta/ag9032v2/sonic_platform/sfp.py:377 | the lpmode/reset shift is 32 - port, in 1..32 |
| Registers.LpmodeAsWritten | platform/broadcom/sonic-platform-modules-delta/ag9032v2/sonic_platform/sfp.py:404-431 | get_lpmode as written: the only exception is UnboundLocalError, for a QSFP port whose file cannot be opened; True only for a QSFP port whose file opens |
| Registers.Lpmode | platform/broadcom/sonic-platform-modules-delta/ag9032v2/sonic_platform/sfp.py:404-431 | get_lpmode as intended: True only for a QSFP port whose register file opens |
| Registers.LpmodeAsWrittenRaisesOnlyWithoutFile | platform/broadcom/sonic-platform-modules-delta/ag9032v2/sonic_platform/sfp.py:410-431 | get_lpmode as written raises UnboundLocalError exactly when a QSFP port's file cannot be opened, and otherwise agrees with the corrected Lpmode |
| Registers.LpmodeIsActiveHigh | platform/broadcom/sonic-platform-modules-delta/ag9032v2/sonic_platform/sfp.py:410-431 | a port is in low-power mode iff it is a QSFP port, the file opens, and its LPMode bit is 1 |
| Registers.ResetSkipsOtherPorts | platform/broadcom/sonic-platform-modules-delta/ag9032v2/sonic_platform/sfp.py:362-369 | SFP ports, invalid indices and unopenable files return False and write nothing |
| Registers.ResetAsWritten | platform/broadcom/sonic-platform-modules-delta/ag9032v2/sonic_platform/sfp.py:356-388 | get_reset_status as written never returns True; it raises exactly when it has made its one write, which happens only for a QSFP port whose file opens |
| Registers.Reset | platform/broadcom/sonic-platform-modules-delta/ag9032v2/sonic_platform/sfp.py:356-402 | get_reset_status as intended always returns; True exactly when it made its two writes, which is exactly for a QSFP port whose file opens; otherwise nothing is written |
| Registers.ResetPulsesOwnBit | platform/broadcom/sonic-platform-modules-delta/ag9032v2/sonic_platform/sfp.py:376-402 | a reset writes twice, first with the port's bit clear and then set, leaving every other bit unchanged, and returns True |
| Registers.ResetRestoresRegister | platform/broadcom/sonic-platform-modules-delta/ag9032v2/sonic_platform/sfp.py:376-402 | for a port out of reset, the register ends exactly as it started |
| Registers.ResetAsWrittenLeavesPortInReset | platform/broadcom/sonic-platform-modules-delta/ag9032v2/sonic_platform/sfp.py:376-388 | as written, only the clearing write happens before NameError, so the port stays in reset |
| Registers.RegisterFile.Write | platform/broadcom/sonic-platform-modules-delta/ag9032v2/sonic_platform/sfp.py:383-384 | writing a value makes it the register's contents and appends it to the write log |
| TransceiverInfo.PresentCodesAreFiltered | platform/broadcom/sonic-platform-modules-delta/ag9032v2/sonic_platform/sfp.py:299-301 | the compliance codes are exactly the tuple's keys present in the parser's dict, with their values |
| TransceiverInfo.InfoDictKeysListsAll | platform/broadcom/sonic-platform-modules-delta/ag9032v2/sonic_platform/sfp.py:156-158 | info_dict_keys lists every key of the transceiver dict |
| TransceiverInfo.InfoDictKeyNames | platform/broadcom/sonic-platform-modules-delta/ag9032v2/sonic_platform/sfp.py:156-158 | read by name, info_dict_keys is the constructor's list of 17 key strings, in order |
| TransceiverInfo.NamesAreDistinct | platform/broadcom/sonic-platform-modules-delta/ag9032v2/sonic_platform/sfp.py:156-158 | no two keys of the dict share a name |
| TransceiverInfo.AssignedKeysAreInfoDictKeys | platform/broadcom/sonic-platform-modules-delta/ag9032v2/sonic_platform/sfp.py:156-158 | every key the assembly writes is in info_dict_keys; application_advertisement is never written |
| TransceiverInfo.BulkIdentityWrites | platform/broadcom/sonic-platform-modules-delta/ag9032v2/sonic_platform/sfp.py:273-279 | a truthy bulk parse must hold all six identity entries (else KeyError); it overwrites exactly those six keys, type, connector, encoding, ext_identifier, ext_rateselect_compliance and type_abbrv_name, with the bulk values "type", "Connector", "EncodingCodes", "Extended Identifier", "RateIdentifier" and "type_abbrv_name"; a falsy one writes nothing |
| TransceiverInfo.WithVendorWrites | platform/broadcom/sonic-platform-modules-delta/ag9032v2/sonic_platform/sfp.py:281-290 | manufacturer, model, hardware_rev, serial, vendor_oui and vendor_date each get their parser's value ("Vendor Name", "Vendor PN", "Vendor Rev", "Vendor SN", "Vendor OUI", "VendorDataCode(YYYY-MM-DD Lot)"), or 'N/A' when that parser returned a falsy result; cable_type and cable_length become "Unknown"; no other key changes; a truthy result without its entry raises KeyError |
| TransceiverInfo.WithCableWrites | platform/broadcom/sonic-platform-modules-delta/ag9032v2/sonic_platform/sfp.py:289-297 | cable_type/cable_length come from the last cable-length key present in the bulk data, and stay as they were when none is |
| TransceiverInfo.WithBulkDetailsWrites | platform/broadcom/sonic-platform-modules-delta/ag9032v2/sonic_platform/sfp.py:292-321 | the layout-specific part succeeds iff the bulk data has the specification-compliance and nominal-rate entries in a usable shape; it writes only the cable, compliance and bit-rate keys: the cable entries from the last cable-length key present (unchanged when none is), the filtered compliance codes, and `str()` of the layout's nominal-rate entry |
| TransceiverInfo.AssembleReturnsIffCompletes | platform/broadcom/sonic-platform-modules-delta/ag9032v2/sonic_platform/sfp.py:270-321 | assembling the dict returns a value exactly when no step can raise |
| TransceiverInfo.WithBulkDetailsReturns | platform/broadcom/sonic-platform-modules-delta/ag9032v2/sonic_platform/sfp.py:292-321 | the layout-specific part returns exactly when the bulk data has the compliance entry, in a shape the compliance scan accepts, and the layout's nominal-rate entry |
| TransceiverInfo.AssembleRaisesOnlyLookupErrors | platform/broadcom/sonic-platform-modules-delta/ag9032v2/sonic_platform/sfp.py:270-321 | the only exceptions that escape the assembly are KeyError (a missing entry) and TypeError (a falsy bulk result, or a compliance value that cannot be scanned) |
| TransceiverInfo.Assemble | platform/broadcom/sonic-platform-modules-delta/ag9032v2/sonic_platform/sfp.py:270-324 | the assembly of the dict; a dict comes back only when the bulk parse gave a truthy result |
| TransceiverInfo.AssembledInfo | platform/broadcom/sonic-platform-modules-delta/ag9032v2/sonic_platform/sfp.py:270-324 | a returned dict comes from parser results under which no step raises; it has info_dict_keys plus the written keys; unwritten keys are 'N/A'; the six identity entries are the bulk values; the six vendor entries are the vendor parsers' values or 'N/A'; the cable entries follow the last cable-length key present, else "Unknown"; specification_compliance holds the filtered codes; nominal_bit_rate is `str()` of the layout's rate entry |
| TransceiverInfo.AssembledDomain | platform/broadcom/sonic-platform-modules-delta/ag9032v2/sonic_platform/sfp.py:270-321 | a returned dict has the seeded keys plus the written ones, and every key not written is 'N/A' |
| TransceiverInfo.AssembledFields | platform/broadcom/sonic-platform-modules-delta/ag9032v2/sonic_platform/sfp.py:281-321 | when no step raises, the six vendor entries are their parsers' values or 'N/A'; the cable entries follow the last cable-length key present, else "Unknown"; specification_compliance holds the filtered codes; nominal_bit_rate is `str()` of the layout's rate entry |
| TransceiverInfo.AssembledIdentity | platform/broadcom/sonic-platform-modules-delta/ag9032v2/sonic_platform/sfp.py:273-279 | when no step raises, the six identity entries are the bulk values they are copied from: no later step overwrites them |
| TransceiverInfo.AssembledInfoKeys | platform/broadcom/sonic-platform-modules-delta/ag9032v2/sonic_platform/sfp.py:156-158 | with the constructor's info_dict_keys, a returned dict has exactly those keys, and application_advertisement is 'N/A' |
| TransceiverInfo.ScanCableLengths | platform/broadcom/sonic-platform-modules-delta/ag9032v2/sonic_platform/sfp.py:293-297 | the cable-length loop computes the last-key-wins cable entries |
| TransceiverInfo.ScanComplianceCodes | platform/broadcom/sonic-platform-modules-delta/ag9032v2/sonic_platform/sfp.py:299-304 | the compliance loop collects the filtered codes, raising TypeError where `in` (on an integer) or the indexing (on a string) does |
| TransceiverInfo.FillVendorFields | platform/broadcom/sonic-platform-modules-delta/ag9032v2/sonic_platform/sfp.py:281-290 | the vendor assignments compute the vendor stage, raising KeyError where a truthy parser result lacks its key |
| TransceiverInfo.FillBulkDetails | platform/broadcom/sonic-platform-modules-delta/ag9032v2/sonic_platform/sfp.py:292-321 | the layout-specific assignments compute the cable, compliance and bit-rate stage or its exception |
| TransceiverInfo.AssembleInfo | platform/broadcom/sonic-platform-modules-delta/ag9032v2/sonic_platform/sfp.py:270-324 | the assembly code computes the specified dict or the exception |
| SfpPort.PortToEeprom.constructor | platform/broadcom/sonic-platform-modules-delta/ag9032v2/sonic_platform/sfp.py:122 | the shared table starts out empty |
| SfpPort.RenderedRead | platform/broadcom/sonic-platform-modules-delta/ag9032v2/sonic_platform/sfp.py:173-177 | entry i of a read is byte offset+i in hex when the file has that byte, else the placeholder |
| SfpPort.EepromBytes | platform/broadcom/sonic-platform-modules-delta/ag9032v2/sonic_platform/sfp.py:162-187 | the reader as intended raises KeyError exactly for a port without a table entry, and otherwise returns num_bytes entries |
| SfpPort.EepromBytesAsWritten | platform/broadcom/sonic-platform-modules-delta/ag9032v2/sonic_platform/sfp.py:162-187 | the reader as written raises KeyError exactly for a port without a table entry, and otherwise returns num_bytes placeholders "0x00" |
| SfpPort.EepromBytesRendersBytes | platform/broadcom/sonic-platform-modules-delta/ag9032v2/sonic_platform/sfp.py:162-187 | the reader raises iff the port has no table entry; otherwise it returns num_bytes entries, each the hex of the byte at offset+i or "0x00" when the file is unreadable or shorter |
| SfpPort.ReaderAsWrittenDiscardsBytes | platform/broadcom/sonic-platform-modules-delta/ag9032v2/sonic_platform/sfp.py:175-182 | as written, any byte the EEPROM holds (0xff, say) is read back as "0x00", where the intended reader gives the byte's hex, which differs from the placeholder |
| SfpPort.AbsentPortHasNoInfo | platform/broadcom/sonic-platform-modules-delta/ag9032v2/sonic_platform/sfp.py:214-220 | an invalid index, an unreadable presence file or a set ModPrsL bit gives `{}` |
| SfpPort.TransceiverInfoOf | platform/broadcom/sonic-platform-modules-delta/ag9032v2/sonic_platform/sfp.py:189-324 | get_transceiver_info with the intended reader: it raises only for a present port, and a non-empty dict comes back only for a present port that has a table entry |
| SfpPort.TransceiverInfoOfAsWritten | platform/broadcom/sonic-platform-modules-delta/ag9032v2/sonic_platform/sfp.py:189-324 | get_transceiver_info with the reader as written: it raises only for a present port, and a non-empty dict comes back only for a present port that has a table entry |
| SfpPort.TransceiverInfoAsWrittenReadsNothing | platform/broadcom/sonic-platform-modules-delta/ag9032v2/sonic_platform/sfp.py:162-324 | as written, get_transceiver_info gives, whatever the EEPROMs hold, what the intended one gives when no EEPROM file can be opened: the parsers see only placeholders |
| SfpPort.PresentPortInfoKeys | platform/broadcom/sonic-platform-modules-delta/ag9032v2/sonic_platform/sfp.py:189-324 | for a present port, a returned dict has exactly the info_dict_keys |
| SfpPort.ConstructionIsIdempotent | platform/broadcom/sonic-platform-modules-delta/ag9032v2/sonic_platform/sfp.py:153-154 | constructing a second port object leaves the shared table as the first left it |
| SfpPort.Sfp.constructor | platform/broadcom/sonic-platform-modules-delta/ag9032v2/sonic_platform/sfp.py:145-158 | sets index and port_num (sfp_index defaults to 0), merges the full path table into the shared dict over older entries, and sets info_dict_keys |
| SfpPort.Sfp.ReadEepromSpecificBytesAsWritten | platform/broadcom/sonic-platform-modules-delta/ag9032v2/sonic_platform/sfp.py:162-187 | as written the reader returns only placeholders, or raises KeyError for a port without a table entry |
| SfpPort.Sfp.ReadEepromSpecificBytes | platform/broadcom/sonic-platform-modules-delta/ag9032v2/sonic_platform/sfp.py:162-187 | the placeholder and overwrite loops compute the intended reader's list |
| SfpPort.Sfp.GetTransceiverInfo | platform/broadcom/sonic-platform-modules-delta/ag9032v2/sonic_platform/sfp.py:189-324 | the method computes the presence test, the seven layout-dependent reads, the parses and the assembled dict or exception |
| SfpPort.Sfp.GetTransceiverInfoAsWritten | platform/broadcom/sonic-platform-modules-delta/ag9032v2/sonic_platform/sfp.py:189-324 | the method with the reader as written computes the as-written dict or exception, independent of the EEPROM contents |
| SfpPort.Sfp.GetResetStatusAsWritten | platform/broadcom/sonic-platform-modules-delta/ag9032v2/sonic_platform/sfp.py:356-388 | the register receives the clearing write and NameError is raised |
| SfpPort.Sfp.GetResetStatus | platform/broadcom/sonic-platform-modules-delta/ag9032v2/sonic_platform/sfp.py:356-402 | the register receives the clear-then-set writes and ends with the second one; the method returns True, or False with no writes |

## Left out

- Opening, reading and writing files are modelled as data: EEPROM contents as a path-to-bytes map, register files as integers.
- The `int(content, 16)` parse of a register file is not modelled: the model is given the register's value. A file whose text is not hex (ValueError) is not modelled, and register values are natural numbers, so a file holding a negative hex number such as "-1" is not modelled either.
- The `hex(value)` text written back to the reset register is not modelled: the model logs the integer value.
- `time.sleep(1)` in get_reset_status and the error `print`s are side effects outside the model.
- In get_reset_status the register is reopened for the second write. The model assumes that reopen succeeds, because it is the same file.
- The Python 2 branch of the byte reader (`ord(raw[n])`) is left out; only the Python 3 branch is modelled.
- SfpPort.Sfp.ReadEepromSpecificBytes: offset and num_bytes are natural numbers. Every caller passes non-negative constants, so a negative seek or a negative range is not modelled.
- SfpPort.TransceiverInfoOf and SfpPort.Sfp.GetTransceiverInfo read with the intended reader; with the reader as written every parser sees only placeholders, which SfpPort.TransceiverInfoOfAsWritten models (see Findings).
- TransceiverInfo.Assemble: a parser result is `None` or a 'data' dict, so two Python outcomes are not represented. A falsy `{}` bulk result raises KeyError at `{}['data']` (sfp.py:294, 309), where the model's falsy result raises TypeError. A truthy result without a 'data' entry raises KeyError at sfp.py:274 or 281, which the model cannot produce.
- The internals of sff8436InterfaceId and sff8472InterfaceId are not part of this model. Each parser is an arbitrary function from the read entries to an optional dict, so a parser that raises is not modelled. Each `{'value': v}` record is collapsed to v, so a record without 'value' (KeyError) is not modelled.
- TransceiverInfo.AssembledInfo: `str()` of parser values and of the compliance dict is not rendered to text. The `Stringified` and `Codes` constructors stand for it.
- `not sfpi_obj` is always false, because the interface-id objects are truthy, so it is dropped from the presence test.
- The DOM, threshold and other EEPROM offsets, the unimplemented getters (tx_disable, rx_los, tx_fault and the rest), and the trivial port_start/port_end properties are outside the modelled core.
- Concurrency between port objects sharing the class-level table is not modelled.
- TransceiverInfo.Value: a parser value is a string, an integer or a nested dict. A list or tuple value is not modelled; in the compliance scan (sfp.py:300, 315) it would make `key in value` a membership test and a match raise TypeError at `value[key]`. Floats, None and booleans behave like the integer case.
- The constructor's call of the base-class initialiser `SfpBase.__init__(self)` (sfp.py:160) is outside the model.
- SfpPort.Sfp.constructor: the class-level `_port_to_eeprom_mapping` is a `PortToEeprom` object passed to each constructor; the table is shared only when every caller passes the same object, which the model assumes.

## Findings

| source | as written | input that shows it | evidently intended | confidence | as-written member | corrected member |
|---|---|---|---|---|---|---|
| platform/broadcom/sonic-platform-modules-delta/ag9032v2/sonic_platform/sfp.py:11-19, 175, 181 | `sys` is never imported. `sys.version_info` raises NameError inside the `try`, and `except Exception` swallows it, so every read returns only "0x00" placeholders | port 0, whose EEPROM holds byte 0xff at offset 0, read with offset 0 and 1 byte | the entry "ff" | not executed | SfpPort.Sfp.ReadEepromSpecificBytesAsWritten, SfpPort.ReaderAsWrittenDiscardsBytes | SfpPort.Sfp.ReadEepromSpecificBytes, SfpPort.EepromBytesRendersBytes |
| platform/broadcom/sonic-platform-modules-delta/ag9032v2/sonic_platform/sfp.py:384-392 | `time` is never imported, so `time.sleep(1)` raises NameError after the clearing write. The port is left held in reset. Line 392 also names the undefined `QSFP_RESET_REGISTER_DEVICE_FILE` | port 0 with a readable reset register | the bit is set again, the register is restored and True is returned, as the comment at line 390 says (the docstring at lines 357-361 describes a status query instead) | not executed | SfpPort.Sfp.GetResetStatusAsWritten, Registers.ResetAsWrittenLeavesPortInReset | SfpPort.Sfp.GetResetStatus, Registers.ResetPulsesOwnBit |
| platform/broadcom/sonic-platform-modules-delta/ag9032v2/sonic_platform/sfp.py:137-138 | `range(PORT_START, PORT_END_QSFP)` stops at 30 | port 31, a QSFP port | `range(PORT_START, PORT_END_QSFP + 1)` | not executed | Layout.QsfpPortsAsWritten, Layout.QsfpPortsAsWrittenMissesPort31 | Layout.QsfpPorts, Layout.QsfpPortsMatchMemoryMap |
| platform/broadcom/sonic-platform-modules-delta/ag9032v2/sonic_platform/sfp.py:414-419 | the `except IOError` only prints, so the following `reg_file.readline()` raises UnboundLocalError | port 0 when qsfp_lpmode cannot be opened | return False, as get_presence and get_reset_status do | not executed | Registers.LpmodeAsWritten, Registers.LpmodeAsWrittenRaisesOnlyWithoutFile | Registers.Lpmode, Registers.LpmodeIsActiveHigh |
