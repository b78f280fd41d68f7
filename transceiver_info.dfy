/**
 * How get_transceiver_info turns the serial-ID parsers' results into the
 * transceiver-info dict: seed every key with 'N/A', copy the identity and vendor
 * fields, scan the cable-length keys for the cable type and length, and filter the
 * specification-compliance codes.  The SFF-8436 / SFF-8472 parsers themselves are
 * not modelled: they are arbitrary functions given as parameters.
 */
module TransceiverInfo {
  import opened Outcomes
  import Layout
  type MemoryMap = Layout.MemoryMap

  /** A value produced by a parser; each `{'value': v, ...}` record appears as its v. */
  datatype Value = Str(s: string) | Int(i: int) | Dict(entries: map<string, Value>)

  /** The 'data' dict of a parser result. */
  type Data = map<string, Value>

  /** One parse method: the raw hex strings in, a truthy result carrying its 'data' dict or a falsy one out. */
  type Parse = seq<string> -> Option<Data>

  /** The parse methods of an sff8436InterfaceId or sff8472InterfaceId object. */
  datatype InterfaceId = InterfaceId(
    parseSfpInfoBulk: Parse,
    parseVendorName: Parse,
    parseVendorPn: Parse,
    parseVendorRev: Parse,
    parseVendorSn: Parse,
    parseVendorOui: Parse,
    parseVendorDate: Parse)

  /** The results of the seven parses, in the order they are made. */
  datatype Parsed = Parsed(
    bulk: Option<Data>,
    vendorName: Option<Data>,
    vendorPn: Option<Data>,
    vendorRev: Option<Data>,
    vendorSn: Option<Data>,
    vendorOui: Option<Data>,
    vendorDate: Option<Data>)

  /**
   * A value of the transceiver-info dict: a literal string, a parser value stored
   * as it is, `str(v)` of a parser value, or `str(compliance_code_dict)` given by
   * the dict's entries in insertion order.
   */
  datatype Info = Text(s: string) | Copied(v: Value) | Stringified(v: Value) | Codes(entries: seq<(string, Value)>)

  const NotAvailable: string := "N/A"
  const Unknown: string := "Unknown"

  /** A key of the transceiver-info dict; Name() is the string the dict uses. */
  datatype InfoKey =
    | Type
    | HardwareRev
    | Serial
    | Manufacturer
    | Model
    | Connector
    | Encoding
    | ExtIdentifier
    | ExtRateselectCompliance
    | CableType
    | CableLength
    | NominalBitRate
    | SpecificationCompliance
    | VendorDate
    | VendorOui
    | ApplicationAdvertisement
    | TypeAbbrvName
  {
    function Name(): string {
      match this
      case Type => "type"
      case HardwareRev => "hardware_rev"
      case Serial => "serial"
      case Manufacturer => "manufacturer"
      case Model => "model"
      case Connector => "connector"
      case Encoding => "encoding"
      case ExtIdentifier => "ext_identifier"
      case ExtRateselectCompliance => "ext_rateselect_compliance"
      case CableType => "cable_type"
      case CableLength => "cable_length"
      case NominalBitRate => "nominal_bit_rate"
      case SpecificationCompliance => "specification_compliance"
      case VendorDate => "vendor_date"
      case VendorOui => "vendor_oui"
      case ApplicationAdvertisement => "application_advertisement"
      case TypeAbbrvName => "type_abbrv_name"
    }
  }

  /** `self.info_dict_keys`, as the constructor sets it. */
  const InfoDictKeys: seq<InfoKey> := [
    Type, HardwareRev, Serial, Manufacturer, Model, Connector, Encoding, ExtIdentifier, ExtRateselectCompliance,
    CableType, CableLength, NominalBitRate, SpecificationCompliance, VendorDate, VendorOui, ApplicationAdvertisement, TypeAbbrvName]

  /** Read by name, info_dict_keys is the constructor's list of 17 key strings. */
  lemma InfoDictKeyNames()
    ensures seq(|InfoDictKeys|, i requires 0 <= i < |InfoDictKeys| => InfoDictKeys[i].Name()) == [
      "type", "hardware_rev", "serial", "manufacturer", "model", "connector", "encoding", "ext_identifier",
      "ext_rateselect_compliance", "cable_type", "cable_length", "nominal_bit_rate", "specification_compliance",
      "vendor_date", "vendor_oui", "application_advertisement", "type_abbrv_name"]
  {
  }

  /** No two keys share a name, so the dict has one entry per key. */
  lemma NamesAreDistinct(k: InfoKey, l: InfoKey)
    ensures k.Name() == l.Name() ==> k == l
  {
  }

  const QsfpCableLengthTup: seq<string> := [
    "Length(km)", "Length OM3(2m)", "Length OM2(m)", "Length OM1(m)", "Length Cable Assembly(m)"]

  const QsfpComplianceCodeTup: seq<string> := [
    "10/40G Ethernet Compliance Code", "SONET Compliance codes", "SAS/SATA compliance codes",
    "Gigabit Ethernet Compliant codes", "Fibre Channel link length/Transmitter Technology",
    "Fibre Channel transmission media", "Fibre Channel Speed"]

  const SfpCableLengthTup: seq<string> := [
    "LengthSMFkm-UnitsOfKm", "LengthSMF(UnitsOf100m)", "Length50um(UnitsOf10m)", "Length62.5um(UnitsOfm)",
    "LengthCable(UnitsOfm)", "LengthOM3(UnitsOf10m)"]

  const SfpComplianceCodeTup: seq<string> := [
    "10GEthernetComplianceCode", "InfinibandComplianceCode", "ESCONComplianceCodes", "SONETComplianceCodes",
    "EthernetComplianceCodes", "FibreChannelLinkLength", "FibreChannelTechnology", "SFP+CableTechnology",
    "FibreChannelTransmissionMedia", "FibreChannelSpeed"]

  function CableLengthKeys(m: MemoryMap): seq<string> {
    match m
    case Sff8436UpperPage00 => QsfpCableLengthTup
    case Sff8472A0 => SfpCableLengthTup
  }

  function ComplianceKeys(m: MemoryMap): seq<string> {
    match m
    case Sff8436UpperPage00 => QsfpComplianceCodeTup
    case Sff8472A0 => SfpComplianceCodeTup
  }

  function NominalBitRateKey(m: MemoryMap): string {
    match m
    case Sff8436UpperPage00 => "Nominal Bit Rate(100Mbs)"
    case Sff8472A0 => "NominalSignallingRate(UnitsOf100Mbd)"
  }

  /** `dict.fromkeys(keys, v)` */
  function FromKeys(keys: seq<InfoKey>, v: Info): (d: map<InfoKey, Info>)
    ensures forall k :: k in d <==> k in keys
    ensures forall k :: k in d ==> d[k] == v
  {
    map k | k in keys :: v
  }

  /** `d[key]` on a 'data' dict. */
  function Lookup(d: Data, key: string): Outcome<Value> {
    if key in d then Returned(d[key]) else Raised(KeyError)
  }

  /** `parsed['data'][key]['value'] if parsed else 'N/A'` */
  function VendorField(parsed: Option<Data>, key: string): Outcome<Info> {
    match parsed
    case None => Returned(Text(NotAvailable))
    case Some(d) => if key in d then Returned(Copied(d[key])) else Raised(KeyError)
  }

  /** VendorField where it returns. */
  function VendorValue(parsed: Option<Data>, key: string): Info
    requires parsed.Some? ==> key in parsed.value
  {
    if parsed.None? then Text(NotAvailable) else Copied(parsed.value[key])
  }

  predicate HasIdentity(bulk: Data) {
    && "type" in bulk && "Connector" in bulk && "EncodingCodes" in bulk
    && "Extended Identifier" in bulk && "RateIdentifier" in bulk && "type_abbrv_name" in bulk
  }

  predicate HasVendorKeys(p: Parsed) {
    && (p.vendorName.Some? ==> "Vendor Name" in p.vendorName.value)
    && (p.vendorPn.Some? ==> "Vendor PN" in p.vendorPn.value)
    && (p.vendorRev.Some? ==> "Vendor Rev" in p.vendorRev.value)
    && (p.vendorSn.Some? ==> "Vendor SN" in p.vendorSn.value)
    && (p.vendorOui.Some? ==> "Vendor OUI" in p.vendorOui.value)
    && (p.vendorDate.Some? ==> "VendorDataCode(YYYY-MM-DD Lot)" in p.vendorDate.value)
  }

  predicate HasBulkDetails(m: MemoryMap, bulk: Data) {
    && "Specification compliance" in bulk
    && ComplianceCodes(ComplianceKeys(m), bulk["Specification compliance"]).Returned?
    && NominalBitRateKey(m) in bulk
  }

  /**
   * The identity fields copied from a truthy bulk result; a falsy one leaves the dict
   * alone.  A missing key raises KeyError at its lookup, before anything is written.
   */
  function BulkIdentity(info: map<InfoKey, Info>, bulk: Option<Data>): Outcome<map<InfoKey, Info>> {
    match bulk
    case None => Returned(info)
    case Some(b) =>
      if !HasIdentity(b) then Raised(KeyError)
      else
        Returned(info[Type := Copied(b["type"])][Connector := Copied(b["Connector"])]
          [Encoding := Copied(b["EncodingCodes"])][ExtIdentifier := Copied(b["Extended Identifier"])]
          [ExtRateselectCompliance := Copied(b["RateIdentifier"])][TypeAbbrvName := Copied(b["type_abbrv_name"])])
  }

  /**
   * The index of the last key of `keys` that d has, or -1 when it has none: a scan
   * of `keys` that records every key present ends with this one.
   */
  function LastIndexPresent(keys: seq<string>, d: Data): (r: int)
    ensures -1 <= r < |keys|
    ensures r >= 0 ==> keys[r] in d
    ensures forall j :: r < j < |keys| ==> keys[j] !in d
    decreases |keys|
  {
    if keys == [] then -1
    else if keys[|keys| - 1] in d then |keys| - 1
    else LastIndexPresent(keys[..|keys| - 1], d)
  }

  /** The key the cable-length scan leaves in cable_type, if any: the last one d has. */
  function LastKeyPresent(keys: seq<string>, d: Data): (r: Option<string>)
    ensures r.Some? ==> r.value in d
  {
    var i := LastIndexPresent(keys, d);
    if i < 0 then None else Some(keys[i])
  }

  /** The dict after the cable-length scan. */
  function WithCable(info: map<InfoKey, Info>, keys: seq<string>, d: Data): map<InfoKey, Info> {
    match LastKeyPresent(keys, d)
    case None => info
    case Some(k) => info[CableType := Text(k)][CableLength := Stringified(d[k])]
  }

  /** Python's `key in s` for two strings: key occurs in s as a substring. */
  predicate Contains(s: string, key: string)
    decreases |s|
  {
    key <= s || (s != [] && Contains(s[1..], key))
  }

  /** The entries of compliance_code_dict: the keys of `keys` present in m, in the order of `keys`. */
  function PresentCodes(keys: seq<string>, m: map<string, Value>): seq<(string, Value)>
    decreases |keys|
  {
    if keys == [] then []
    else
      var k := keys[|keys| - 1];
      PresentCodes(keys[..|keys| - 1], m) + if k in m then [(k, m[k])] else []
  }

  /**
   * The compliance-code scan over the 'Specification compliance' value: a dict is
   * filtered; on a string `key in s` is a substring test, and a hit then fails to
   * index the string by a string; `in` on an int fails at once.
   */
  function ComplianceCodes(keys: seq<string>, spec: Value): Outcome<seq<(string, Value)>> {
    match spec
    case Dict(m) => Returned(PresentCodes(keys, m))
    case Str(s) => if exists k :: k in keys && Contains(s, k) then Raised(TypeError) else Returned([])
    case Int(_) => if keys == [] then Returned([]) else Raised(TypeError)
  }

  /**
   * The vendor fields, each from its parser or 'N/A', then cable_type and cable_length
   * set to "Unknown".  A truthy result without its key raises KeyError.
   */
  function WithVendor(info: map<InfoKey, Info>, p: Parsed): Outcome<map<InfoKey, Info>> {
    if !HasVendorKeys(p) then Raised(KeyError)
    else
      Returned(info[Manufacturer := VendorValue(p.vendorName, "Vendor Name")][Model := VendorValue(p.vendorPn, "Vendor PN")]
        [HardwareRev := VendorValue(p.vendorRev, "Vendor Rev")][Serial := VendorValue(p.vendorSn, "Vendor SN")]
        [VendorOui := VendorValue(p.vendorOui, "Vendor OUI")]
        [VendorDate := VendorValue(p.vendorDate, "VendorDataCode(YYYY-MM-DD Lot)")]
        [CableType := Text(Unknown)][CableLength := Text(Unknown)])
  }

  /** The layout-specific tail: cable scan, compliance scan, nominal bit rate, all from the bulk data. */
  function WithBulkDetails(info: map<InfoKey, Info>, m: MemoryMap, data: Data): Outcome<map<InfoKey, Info>> {
    var cabled := WithCable(info, CableLengthKeys(m), data);
    var spec :- Lookup(data, "Specification compliance");
    var codes :- ComplianceCodes(ComplianceKeys(m), spec);
    var rate :- Lookup(data, NominalBitRateKey(m));
    Returned(cabled[SpecificationCompliance := Codes(codes)][NominalBitRate := Stringified(rate)])
  }

  /**
   * The transceiver-info dict get_transceiver_info builds for a present port from the
   * parser results, or the exception that escapes it.  A falsy bulk result skips the
   * identity fields but then fails the cable scan with TypeError.
   */
  function Assemble(infoDictKeys: seq<InfoKey>, m: MemoryMap, p: Parsed): (r: Outcome<map<InfoKey, Info>>)
    ensures r.Returned? ==> p.bulk.Some?
  {
    var identified :- BulkIdentity(FromKeys(infoDictKeys, Text(NotAvailable)), p.bulk);
    var vendor :- WithVendor(identified, p);
    var data :- if p.bulk.Some? then Returned(p.bulk.value) else Raised(TypeError);
    WithBulkDetails(vendor, m, data)
  }

  /**
   * compliance_code_dict holds exactly the keys of the tuple that the parsed
   * compliance dict has, each with the parsed value, and nothing else.
   */
  lemma {:induction false} PresentCodesAreFiltered(keys: seq<string>, m: map<string, Value>)
    ensures |PresentCodes(keys, m)| <= |keys|
    ensures forall c :: c in PresentCodes(keys, m) ==> c.0 in keys && c.0 in m && c.1 == m[c.0]
    ensures forall k :: k in keys && k in m ==> (k, m[k]) in PresentCodes(keys, m)
    decreases |keys|
  {
    if keys != [] {
      var init := keys[..|keys| - 1];
      PresentCodesAreFiltered(init, m);
      assert keys == init + [keys[|keys| - 1]];
    }
  }

  /** d is info with the keys of `written` written and every other key left as it was. */
  ghost predicate Overwrites(d: map<InfoKey, Info>, info: map<InfoKey, Info>, written: set<InfoKey>) {
    && (forall k :: k in d <==> k in info || k in written)
    && (forall k :: k in info && k !in written ==> d[k] == info[k])
  }

  /** d holds each identity field as the bulk value it is copied from. */
  predicate IdentityCopied(d: map<InfoKey, Info>, b: Data) {
    && HasIdentity(b)
    && Type in d && d[Type] == Copied(b["type"])
    && Connector in d && d[Connector] == Copied(b["Connector"])
    && Encoding in d && d[Encoding] == Copied(b["EncodingCodes"])
    && ExtIdentifier in d && d[ExtIdentifier] == Copied(b["Extended Identifier"])
    && ExtRateselectCompliance in d && d[ExtRateselectCompliance] == Copied(b["RateIdentifier"])
    && TypeAbbrvName in d && d[TypeAbbrvName] == Copied(b["type_abbrv_name"])
  }

  /** d holds each vendor field as its parser's value, or 'N/A' where that parser's result is falsy. */
  predicate VendorCopied(d: map<InfoKey, Info>, p: Parsed) {
    && HasVendorKeys(p)
    && Manufacturer in d && d[Manufacturer] == VendorValue(p.vendorName, "Vendor Name")
    && Model in d && d[Model] == VendorValue(p.vendorPn, "Vendor PN")
    && HardwareRev in d && d[HardwareRev] == VendorValue(p.vendorRev, "Vendor Rev")
    && Serial in d && d[Serial] == VendorValue(p.vendorSn, "Vendor SN")
    && VendorOui in d && d[VendorOui] == VendorValue(p.vendorOui, "Vendor OUI")
    && VendorDate in d && d[VendorDate] == VendorValue(p.vendorDate, "VendorDataCode(YYYY-MM-DD Lot)")
  }

  const IdentityKeys: set<InfoKey> := {Type, Connector, Encoding, ExtIdentifier, ExtRateselectCompliance, TypeAbbrvName}
  const VendorKeys: set<InfoKey> := {Manufacturer, Model, HardwareRev, Serial, VendorOui, VendorDate, CableType, CableLength}
  const BulkDetailKeys: set<InfoKey> := {CableType, CableLength, SpecificationCompliance, NominalBitRate}

  /** The vendor keys filled from the vendor parsers (the others of VendorKeys are the cable fields). */
  const VendorFieldKeys: set<InfoKey> := {Manufacturer, Model, HardwareRev, Serial, VendorOui, VendorDate}

  /** No later stage writes an identity key, and the bulk details write no parser-filled vendor key. */
  lemma KeySetsDisjoint()
    ensures IdentityKeys !! VendorKeys && IdentityKeys !! BulkDetailKeys && VendorFieldKeys !! BulkDetailKeys
  {
  }

  /** The keys get_transceiver_info writes after seeding the dict. */
  function AssignedKeys(): set<InfoKey> {
    IdentityKeys + VendorKeys + BulkDetailKeys
  }

  /** info_dict_keys names every key of the dict. */
  lemma InfoDictKeysListsAll(k: InfoKey)
    ensures k in InfoDictKeys
  {
    match k
    case Type => assert InfoDictKeys[0] == k;
    case HardwareRev => assert InfoDictKeys[1] == k;
    case Serial => assert InfoDictKeys[2] == k;
    case Manufacturer => assert InfoDictKeys[3] == k;
    case Model => assert InfoDictKeys[4] == k;
    case Connector => assert InfoDictKeys[5] == k;
    case Encoding => assert InfoDictKeys[6] == k;
    case ExtIdentifier => assert InfoDictKeys[7] == k;
    case ExtRateselectCompliance => assert InfoDictKeys[8] == k;
    case CableType => assert InfoDictKeys[9] == k;
    case CableLength => assert InfoDictKeys[10] == k;
    case NominalBitRate => assert InfoDictKeys[11] == k;
    case SpecificationCompliance => assert InfoDictKeys[12] == k;
    case VendorDate => assert InfoDictKeys[13] == k;
    case VendorOui => assert InfoDictKeys[14] == k;
    case ApplicationAdvertisement => assert InfoDictKeys[15] == k;
    case TypeAbbrvName => assert InfoDictKeys[16] == k;
  }

  /** Every written key is one of info_dict_keys; application_advertisement is the one never written. */
  lemma AssignedKeysAreInfoDictKeys()
    ensures forall k :: k in AssignedKeys() ==> k in InfoDictKeys
    ensures ApplicationAdvertisement in InfoDictKeys && ApplicationAdvertisement !in AssignedKeys()
  {
    forall k: InfoKey ensures k in InfoDictKeys {
      InfoDictKeysListsAll(k);
    }
    assert ApplicationAdvertisement !in IdentityKeys;
    assert ApplicationAdvertisement !in VendorKeys;
    assert ApplicationAdvertisement !in BulkDetailKeys;
  }

  /** The parser results under which the assembly runs to the end without an exception. */
  predicate Completes(m: MemoryMap, p: Parsed) {
    p.bulk.Some? && HasIdentity(p.bulk.value) && HasVendorKeys(p) && HasBulkDetails(m, p.bulk.value)
  }

  lemma BulkIdentityWrites(info: map<InfoKey, Info>, bulk: Option<Data>)
    ensures BulkIdentity(info, bulk).Returned? <==> bulk.None? || HasIdentity(bulk.value)
    ensures BulkIdentity(info, bulk).Returned? ==>
      Overwrites(BulkIdentity(info, bulk).value, info, if bulk.None? then {} else IdentityKeys)
    ensures bulk.Some? && BulkIdentity(info, bulk).Returned? ==> IdentityCopied(BulkIdentity(info, bulk).value, bulk.value)
  {
  }

  lemma WithVendorWrites(info: map<InfoKey, Info>, p: Parsed)
    ensures WithVendor(info, p).Returned? <==> HasVendorKeys(p)
    ensures WithVendor(info, p).Returned? ==> Overwrites(WithVendor(info, p).value, info, VendorKeys)
    ensures WithVendor(info, p).Returned? ==> VendorCopied(WithVendor(info, p).value, p)
    ensures WithVendor(info, p).Returned? ==>
      WithVendor(info, p).value[CableType] == Text(Unknown) && WithVendor(info, p).value[CableLength] == Text(Unknown)
  {
  }

  /** The cable scan writes cable_type and cable_length when some key is present, and nothing otherwise. */
  lemma WithCableWrites(info: map<InfoKey, Info>, keys: seq<string>, data: Data)
    ensures LastIndexPresent(keys, data) < 0 ==> WithCable(info, keys, data) == info
    ensures LastIndexPresent(keys, data) >= 0 ==>
      Overwrites(WithCable(info, keys, data), info, {CableType, CableLength}) &&
      WithCable(info, keys, data)[CableType] == Text(keys[LastIndexPresent(keys, data)]) &&
      WithCable(info, keys, data)[CableLength] == Stringified(data[keys[LastIndexPresent(keys, data)]])
  {
  }

  lemma WithBulkDetailsWrites(info: map<InfoKey, Info>, m: MemoryMap, data: Data)
    requires CableType in info && CableLength in info
    ensures WithBulkDetails(info, m, data).Returned? <==> HasBulkDetails(m, data)
    ensures WithBulkDetails(info, m, data).Returned? ==>
      var d := WithBulkDetails(info, m, data).value;
      var cableKeys := CableLengthKeys(m);
      var i := LastIndexPresent(cableKeys, data);
      && Overwrites(d, info, BulkDetailKeys)
      && (i < 0 ==> d[CableType] == info[CableType] && d[CableLength] == info[CableLength])
      && (i >= 0 ==> d[CableType] == Text(cableKeys[i]) && d[CableLength] == Stringified(data[cableKeys[i]]))
      && d[SpecificationCompliance] ==
           Codes(ComplianceCodes(ComplianceKeys(m), data["Specification compliance"]).value)
      && d[NominalBitRate] == Stringified(data[NominalBitRateKey(m)])
  {
    WithCableWrites(info, CableLengthKeys(m), data);
  }

  /**
   * The assembly raises exactly when a parser result lacks a key it looks up, the bulk
   * result is falsy, or the compliance value cannot be scanned.
   */
  lemma AssembleReturnsIffCompletes(keys: seq<InfoKey>, m: MemoryMap, p: Parsed)
    ensures Assemble(keys, m, p).Returned? <==> Completes(m, p)
  {
    var identified := BulkIdentity(FromKeys(keys, Text(NotAvailable)), p.bulk);
    if identified.Returned? {
      var vendor := WithVendor(identified.value, p);
      if vendor.Returned? && p.bulk.Some? {
        WithBulkDetailsReturns(vendor.value, m, p.bulk.value);
      }
    }
  }

  /** The layout-specific tail returns exactly when the bulk data has what it looks up, in a shape it can scan. */
  lemma WithBulkDetailsReturns(info: map<InfoKey, Info>, m: MemoryMap, data: Data)
    ensures WithBulkDetails(info, m, data).Returned? <==> HasBulkDetails(m, data)
  {
  }

  /** The only exceptions that escape the assembly are KeyError and TypeError. */
  lemma AssembleRaisesOnlyLookupErrors(keys: seq<InfoKey>, m: MemoryMap, p: Parsed)
    ensures Assemble(keys, m, p).Raised? ==>
      Assemble(keys, m, p).error == KeyError || Assemble(keys, m, p).error == TypeError
  {
  }

  /** Two rounds of writes are one round writing both sets of keys. */
  lemma OverwritesChain(d: map<InfoKey, Info>, mid: map<InfoKey, Info>, info: map<InfoKey, Info>, first: set<InfoKey>, second: set<InfoKey>)
    requires Overwrites(mid, info, first) && Overwrites(d, mid, second)
    ensures Overwrites(d, info, first + second)
  {
  }

  /** A completed assembly is the three stages run one after the other, none of them raising. */
  lemma AssembleStages(keys: seq<InfoKey>, m: MemoryMap, p: Parsed)
    requires Assemble(keys, m, p).Returned?
    ensures p.bulk.Some?
    ensures BulkIdentity(FromKeys(keys, Text(NotAvailable)), p.bulk).Returned?
    ensures WithVendor(BulkIdentity(FromKeys(keys, Text(NotAvailable)), p.bulk).value, p).Returned?
    ensures Assemble(keys, m, p) ==
      WithBulkDetails(WithVendor(BulkIdentity(FromKeys(keys, Text(NotAvailable)), p.bulk).value, p).value, m, p.bulk.value)
  {
  }

  /** A completed assembly has the seeded keys and the written ones, and every key not written is still 'N/A'. */
  lemma AssembledDomain(keys: seq<InfoKey>, m: MemoryMap, p: Parsed)
    requires Assemble(keys, m, p).Returned?
    ensures var d := Assemble(keys, m, p).value;
      forall k :: k in d <==> k in keys || k in AssignedKeys()
    ensures var d := Assemble(keys, m, p).value;
      forall k :: k in keys && k !in AssignedKeys() ==> d[k] == Text(NotAvailable)
  {
    AssembleStages(keys, m, p);
    var seeded := FromKeys(keys, Text(NotAvailable));
    BulkIdentityWrites(seeded, p.bulk);
    var identified := BulkIdentity(seeded, p.bulk).value;
    WithVendorWrites(identified, p);
    var vendor := WithVendor(identified, p).value;
    WithBulkDetailsWrites(vendor, m, p.bulk.value);
    var d := WithBulkDetails(vendor, m, p.bulk.value).value;
    OverwritesChain(vendor, identified, seeded, IdentityKeys, VendorKeys);
    OverwritesChain(d, vendor, seeded, IdentityKeys + VendorKeys, BulkDetailKeys);
  }

  /** Writes to keys other than the identity keys keep the identity fields. */
  lemma IdentityCopiedKept(d: map<InfoKey, Info>, info: map<InfoKey, Info>, b: Data, written: set<InfoKey>)
    requires IdentityCopied(info, b) && Overwrites(d, info, written) && IdentityKeys !! written
    ensures IdentityCopied(d, b)
  {
  }

  /** Writes to keys other than the six parser-filled vendor keys keep the vendor fields. */
  lemma VendorCopiedKept(d: map<InfoKey, Info>, info: map<InfoKey, Info>, p: Parsed, written: set<InfoKey>)
    requires VendorCopied(info, p) && Overwrites(d, info, written)
    requires VendorFieldKeys !! written
    ensures VendorCopied(d, p)
  {
  }

  /** The identity entries of a completed assembly: each is the bulk value it is copied from, never overwritten later. */
  lemma AssembledIdentity(keys: seq<InfoKey>, m: MemoryMap, p: Parsed)
    requires Completes(m, p)
    ensures Assemble(keys, m, p).Returned?
    ensures IdentityCopied(Assemble(keys, m, p).value, p.bulk.value)
  {
    AssembleReturnsIffCompletes(keys, m, p);
    AssembleStages(keys, m, p);
    var seeded := FromKeys(keys, Text(NotAvailable));
    BulkIdentityWrites(seeded, p.bulk);
    var identified := BulkIdentity(seeded, p.bulk).value;
    WithVendorWrites(identified, p);
    var vendor := WithVendor(identified, p).value;
    WithBulkDetailsWrites(vendor, m, p.bulk.value);
    KeySetsDisjoint();
    IdentityCopiedKept(vendor, identified, p.bulk.value, VendorKeys);
    IdentityCopiedKept(Assemble(keys, m, p).value, vendor, p.bulk.value, BulkDetailKeys);
  }

  /** The vendor, cable, compliance and bit-rate entries of a completed assembly. */
  lemma AssembledFields(keys: seq<InfoKey>, m: MemoryMap, p: Parsed)
    requires Completes(m, p)
    ensures Assemble(keys, m, p).Returned?
    ensures VendorCopied(Assemble(keys, m, p).value, p)
    ensures var d := Assemble(keys, m, p).value;
      CableType in d && CableLength in d && SpecificationCompliance in d && NominalBitRate in d
    ensures var d := Assemble(keys, m, p).value;
      var cableKeys := CableLengthKeys(m);
      var i := LastIndexPresent(cableKeys, p.bulk.value);
      if i < 0 then d[CableType] == Text(Unknown) && d[CableLength] == Text(Unknown)
      else d[CableType] == Text(cableKeys[i]) && d[CableLength] == Stringified(p.bulk.value[cableKeys[i]])
    ensures var d := Assemble(keys, m, p).value;
      d[SpecificationCompliance] ==
        Codes(ComplianceCodes(ComplianceKeys(m), p.bulk.value["Specification compliance"]).value)
    ensures Assemble(keys, m, p).value[NominalBitRate] == Stringified(p.bulk.value[NominalBitRateKey(m)])
  {
    AssembleReturnsIffCompletes(keys, m, p);
    AssembleStages(keys, m, p);
    var seeded := FromKeys(keys, Text(NotAvailable));
    var identified := BulkIdentity(seeded, p.bulk).value;
    WithVendorWrites(identified, p);
    var vendor := WithVendor(identified, p).value;
    WithBulkDetailsWrites(vendor, m, p.bulk.value);
    KeySetsDisjoint();
    VendorCopiedKept(Assemble(keys, m, p).value, vendor, p, BulkDetailKeys);
  }

  /**
   * What a completed assembly holds: the seeded keys and the written ones, every key
   * not written still 'N/A'; the identity fields copied from the bulk data; the vendor
   * fields from their parsers or 'N/A'; cable_type and cable_length from the last
   * cable-length key the bulk data has, or "Unknown"; the compliance codes the scan
   * keeps; str() of the nominal bit rate.
   */
  lemma AssembledInfo(keys: seq<InfoKey>, m: MemoryMap, p: Parsed)
    requires Assemble(keys, m, p).Returned?
    ensures Completes(m, p)
    ensures var d := Assemble(keys, m, p).value;
      forall k :: k in d <==> k in keys || k in AssignedKeys()
    ensures var d := Assemble(keys, m, p).value;
      forall k :: k in keys && k !in AssignedKeys() ==> d[k] == Text(NotAvailable)
    ensures IdentityCopied(Assemble(keys, m, p).value, p.bulk.value)
    ensures VendorCopied(Assemble(keys, m, p).value, p)
    ensures var d := Assemble(keys, m, p).value;
      var cableKeys := CableLengthKeys(m);
      var i := LastIndexPresent(cableKeys, p.bulk.value);
      if i < 0 then d[CableType] == Text(Unknown) && d[CableLength] == Text(Unknown)
      else d[CableType] == Text(cableKeys[i]) && d[CableLength] == Stringified(p.bulk.value[cableKeys[i]])
    ensures var d := Assemble(keys, m, p).value;
      d[SpecificationCompliance] ==
        Codes(ComplianceCodes(ComplianceKeys(m), p.bulk.value["Specification compliance"]).value)
    ensures Assemble(keys, m, p).value[NominalBitRate] == Stringified(p.bulk.value[NominalBitRateKey(m)])
  {
    AssembleReturnsIffCompletes(keys, m, p);
    AssembledDomain(keys, m, p);
    AssembledIdentity(keys, m, p);
    AssembledFields(keys, m, p);
  }

  /** With the constructor's info_dict_keys, the dict has exactly those keys and application_advertisement stays 'N/A'. */
  lemma AssembledInfoKeys(m: MemoryMap, p: Parsed)
    requires Assemble(InfoDictKeys, m, p).Returned?
    ensures forall k :: k in Assemble(InfoDictKeys, m, p).value <==> k in InfoDictKeys
    ensures Assemble(InfoDictKeys, m, p).value[ApplicationAdvertisement] == Text(NotAvailable)
  {
    AssembledInfo(InfoDictKeys, m, p);
    AssignedKeysAreInfoDictKeys();
  }

  /** The cable-length loop: every key of `keys` that data has overwrites cable_type and cable_length. */
  method ScanCableLengths(info: map<InfoKey, Info>, keys: seq<string>, data: Data) returns (r: map<InfoKey, Info>)
    ensures r == WithCable(info, keys, data)
  {
    r := info;
    var i := 0;
    while i < |keys|
      invariant 0 <= i <= |keys|
      invariant r == WithCable(info, keys[..i], data)
    {
      assert keys[..i + 1][..i] == keys[..i];
      if keys[i] in data {
        r := r[CableType := Text(keys[i])];
        r := r[CableLength := Stringified(data[keys[i]])];
      }
      i := i + 1;
    }
    assert keys[..|keys|] == keys;
  }

  /** The compliance-code loop: builds compliance_code_dict, or fails as `in` and indexing on spec do. */
  method ScanComplianceCodes(keys: seq<string>, spec: Value) returns (r: Outcome<seq<(string, Value)>>)
    ensures r == ComplianceCodes(keys, spec)
  {
    var codes: seq<(string, Value)> := [];
    var j := 0;
    while j < |keys|
      invariant 0 <= j <= |keys|
      invariant ComplianceCodes(keys[..j], spec) == Returned(codes)
    {
      var key := keys[j];
      assert keys[..j + 1] == keys[..j] + [key];
      assert keys[..j + 1][..j] == keys[..j];
      match spec {
        case Dict(entries) =>
          assert codes == PresentCodes(keys[..j], entries);
          assert PresentCodes(keys[..j + 1], entries) ==
            PresentCodes(keys[..j], entries) + if key in entries then [(key, entries[key])] else [];
          if key in entries {
            codes := codes + [(key, entries[key])];
          }
          assert codes == PresentCodes(keys[..j + 1], entries);
        case Str(s) =>
          if Contains(s, key) {
            assert key in keys;
            return Raised(TypeError);
          }
          assert forall k :: k in keys[..j + 1] ==> k in keys[..j] || k == key;
        case Int(_) =>
          return Raised(TypeError);
      }
      j := j + 1;
    }
    assert keys[..|keys|] == keys;
    r := Returned(codes);
  }

  /** The vendor assignments, one key at a time, then cable_type and cable_length set to "Unknown". */
  method FillVendorFields(info: map<InfoKey, Info>, p: Parsed) returns (r: Outcome<map<InfoKey, Info>>)
    ensures r == WithVendor(info, p)
  {
    var manufacturer :- VendorField(p.vendorName, "Vendor Name");
    var d := info[Manufacturer := manufacturer];
    var model :- VendorField(p.vendorPn, "Vendor PN");
    d := d[Model := model];
    var hardwareRev :- VendorField(p.vendorRev, "Vendor Rev");
    d := d[HardwareRev := hardwareRev];
    var serial :- VendorField(p.vendorSn, "Vendor SN");
    d := d[Serial := serial];
    var vendorOui :- VendorField(p.vendorOui, "Vendor OUI");
    d := d[VendorOui := vendorOui];
    var vendorDate :- VendorField(p.vendorDate, "VendorDataCode(YYYY-MM-DD Lot)");
    d := d[VendorDate := vendorDate];
    d := d[CableType := Text(Unknown)];
    d := d[CableLength := Text(Unknown)];
    r := Returned(d);
  }

  /** The layout-specific tail: the two scans and the nominal bit rate. */
  method FillBulkDetails(info: map<InfoKey, Info>, m: MemoryMap, data: Data) returns (r: Outcome<map<InfoKey, Info>>)
    ensures r == WithBulkDetails(info, m, data)
  {
    var d := ScanCableLengths(info, CableLengthKeys(m), data);
    var spec :- Lookup(data, "Specification compliance");
    var codes :- ScanComplianceCodes(ComplianceKeys(m), spec);
    d := d[SpecificationCompliance := Codes(codes)];
    var rate :- Lookup(data, NominalBitRateKey(m));
    d := d[NominalBitRate := Stringified(rate)];
    r := Returned(d);
  }

  /**
   * The dict-building part of get_transceiver_info, step by step: the dict is
   * updated in place and the two tuples are scanned in loops.
   */
  method AssembleInfo(infoDictKeys: seq<InfoKey>, m: MemoryMap, p: Parsed) returns (r: Outcome<map<InfoKey, Info>>)
    ensures r == Assemble(infoDictKeys, m, p)
  {
    var info := FromKeys(infoDictKeys, Text(NotAvailable));
    info :- BulkIdentity(info, p.bulk);
    info :- FillVendorFields(info, p);
    if p.bulk.None? {
      return Raised(TypeError);
    }
    r := FillBulkDetails(info, m, p.bulk.value);
  }
}
