/** The JSON document in which a promotion record is stored. */
module RecordCodec {
  import opened Wrappers
  import opened PromotionRepository

  datatype Json =
    | Null
    | Bool(flag: bool)
    | Number(n: int)
    | Text(s: string)
    | Array(items: seq<Json>)
    | Object(fields: map<string, Json>)

  function DeviceTypeValue(t: DeviceType): string {
    match t
    case Drive => "drive"
    case Instrument => "instrument"
    case IoDevice => "io_device"
    case Controller => "controller"
    case CommunicationDevice => "communication_device"
    case OtherType => "other"
    case Unknown => "unknown"
  }

  function DeviceTypeOf(value: string): Option<DeviceType> {
    if value == "drive" then Some(Drive)
    else if value == "instrument" then Some(Instrument)
    else if value == "io_device" then Some(IoDevice)
    else if value == "controller" then Some(Controller)
    else if value == "communication_device" then Some(CommunicationDevice)
    else if value == "other" then Some(OtherType)
    else if value == "unknown" then Some(Unknown)
    else None
  }

  function OptionalText(t: Option<string>): Json {
    if t.Some? then Text(t.value) else Null
  }

  function Texts(s: seq<string>): seq<Json> {
    if s == [] then [] else [Text(s[0])] + Texts(s[1..])
  }

  function Numbers(s: seq<int>): seq<Json> {
    if s == [] then [] else [Number(s[0])] + Numbers(s[1..])
  }

  function EvidenceData(e: Evidence): Json {
    Object(map["protocol" := Text(e.protocol), "observation_target" := Text(e.observationTarget),
               "identifier" := Text(e.identifier), "description" := Text(e.description)])
  }

  function EvidenceItems(s: seq<Evidence>): seq<Json> {
    if s == [] then [] else [EvidenceData(s[0])] + EvidenceItems(s[1..])
  }

  function AssetData(asset: Asset): Json {
    var device := asset.Device?;
    Object(map[
      "kind" := Text(if device then "device" else "asset"),
      "id" := Text(asset.id),
      "name" := Text(asset.name),
      "device_type" := if device then Text(DeviceTypeValue(asset.deviceType)) else Null,
      "manufacturer" := if device then OptionalText(asset.manufacturer) else Null,
      "model" := if device then OptionalText(asset.model) else Null,
      "catalog_number" := if device then OptionalText(asset.catalogNumber) else Null])
  }

  /** `_record_data` */
  function RecordData(r: Record): Json {
    Object(map[
      "asset" := AssetData(r.asset),
      "durable_identity_key" := Text(r.identityKey),
      "generation_numbers" := Array(Numbers(r.generations)),
      "target_keys" := Array(Texts(r.targetKeys)),
      "promoted_by" := Text(r.promotedBy),
      "promoted_at" := Text(r.promotedAt),
      "rationale" := Text(r.rationale),
      "evidence" := Array(EvidenceItems(r.evidence)),
      "acknowledged_conflict_override" := Bool(r.acknowledged)])
  }

  // ----- Reading a document back; a missing or ill-typed field makes it unreadable

  function Field(j: Json, name: string): Option<Json> {
    if j.Object? && name in j.fields then Some(j.fields[name]) else None
  }

  function TextField(j: Json, name: string): Option<string> {
    var f := Field(j, name);
    if f.Some? && f.value.Text? then Some(f.value.s) else None
  }

  function OptionalTextField(j: Json, name: string): Option<Option<string>> {
    var f := Field(j, name);
    if f == Some(Null) then Some(None)
    else if f.Some? && f.value.Text? then Some(Some(f.value.s))
    else None
  }

  function ArrayField(j: Json, name: string): Option<seq<Json>> {
    var f := Field(j, name);
    if f.Some? && f.value.Array? then Some(f.value.items) else None
  }

  function TextsOf(items: seq<Json>): Option<seq<string>> {
    if items == [] then Some([])
    else
      var rest := TextsOf(items[1..]);
      if items[0].Text? && rest.Some? then Some([items[0].s] + rest.value) else None
  }

  function NumbersOf(items: seq<Json>): Option<seq<int>> {
    if items == [] then Some([])
    else
      var rest := NumbersOf(items[1..]);
      if items[0].Number? && rest.Some? then Some([items[0].n] + rest.value) else None
  }

  function EvidenceOf(j: Json): Option<Evidence> {
    var p, o, i, d := TextField(j, "protocol"), TextField(j, "observation_target"),
                      TextField(j, "identifier"), TextField(j, "description");
    if p.Some? && o.Some? && i.Some? && d.Some? then Some(Evidence(p.value, o.value, i.value, d.value)) else None
  }

  function EvidencesOf(items: seq<Json>): Option<seq<Evidence>> {
    if items == [] then Some([])
    else
      var first, rest := EvidenceOf(items[0]), EvidencesOf(items[1..]);
      if first.Some? && rest.Some? then Some([first.value] + rest.value) else None
  }

  function AssetOf(j: Json): Option<Asset> {
    var kind, id, name := TextField(j, "kind"), TextField(j, "id"), TextField(j, "name");
    if kind == None || id == None || name == None then None
    else if kind.value != "device" then Some(Plain(id.value, name.value, ""))
    else
      var t := TextField(j, "device_type");
      var m, o, c := OptionalTextField(j, "manufacturer"), OptionalTextField(j, "model"), OptionalTextField(j, "catalog_number");
      if t.Some? && DeviceTypeOf(t.value).Some? && m.Some? && o.Some? && c.Some?
      then Some(Device(id.value, name.value, DeviceTypeOf(t.value).value, m.value, o.value, c.value, ""))
      else None
  }

  /** `_record` */
  function RecordOf(j: Json): Option<Record> {
    var assetData := Field(j, "asset");
    var asset := if assetData.Some? then AssetOf(assetData.value) else None;
    var key, who, at, why := TextField(j, "durable_identity_key"), TextField(j, "promoted_by"),
                            TextField(j, "promoted_at"), TextField(j, "rationale");
    var g, t, e := ArrayField(j, "generation_numbers"), ArrayField(j, "target_keys"), ArrayField(j, "evidence");
    var ack := Field(j, "acknowledged_conflict_override");
    if asset.Some? && key.Some? && who.Some? && at.Some? && why.Some? && g.Some? && t.Some? && e.Some?
       && ack.Some? && ack.value.Bool?
       && NumbersOf(g.value).Some? && TextsOf(t.value).Some? && EvidencesOf(e.value).Some?
    then Some(Record(asset.value, key.value, NumbersOf(g.value).value, TextsOf(t.value).value, who.value, at.value,
                     why.value, EvidencesOf(e.value).value, ack.value.flag))
    else None
  }

  // ----- Reading back what was written

  /** The record without what documents do not hold. */
  function Stripped(r: Record): Record {
    r.(asset := Signature(r.asset))
  }

  lemma {:induction false} TextsBack(s: seq<string>)
    ensures TextsOf(Texts(s)) == Some(s)
  {
    if s != [] {
      TextsBack(s[1..]);
      assert Texts(s)[1..] == Texts(s[1..]) && s == [s[0]] + s[1..];
    }
  }

  lemma {:induction false} NumbersBack(s: seq<int>)
    ensures NumbersOf(Numbers(s)) == Some(s)
  {
    if s != [] {
      NumbersBack(s[1..]);
      assert Numbers(s)[1..] == Numbers(s[1..]) && s == [s[0]] + s[1..];
    }
  }

  lemma {:induction false} EvidenceBack(s: seq<Evidence>)
    ensures EvidencesOf(EvidenceItems(s)) == Some(s)
  {
    if s != [] {
      EvidenceBack(s[1..]);
      assert EvidenceOf(EvidenceData(s[0])) == Some(s[0]);
      assert EvidenceItems(s)[1..] == EvidenceItems(s[1..]) && s == [s[0]] + s[1..];
    }
  }

  lemma AssetBack(asset: Asset)
    ensures AssetOf(AssetData(asset)) == Some(Signature(asset))
  {
    if asset.Device? { assert DeviceTypeOf(DeviceTypeValue(asset.deviceType)) == Some(asset.deviceType); }
  }

  /** Decoding an encoded record gives everything but the fields outside the document. */
  lemma RoundTrip(r: Record)
    ensures RecordOf(RecordData(r)) == Some(Stripped(r))
  {
    hide AssetOf, AssetData, EvidencesOf, EvidenceItems, TextsOf, Texts, NumbersOf, Numbers;
    AssetBack(r.asset);
    NumbersBack(r.generations);
    TextsBack(r.targetKeys);
    EvidenceBack(r.evidence);
  }

  /** The document does not depend on the fields outside it. */
  lemma SameDocument(r: Record)
    ensures RecordData(Stripped(r)) == RecordData(r)
  {
  }
}
