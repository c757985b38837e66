/**
 The vault lifecycle history on the wire (CloudVaultBootstrapCodec.swift): a structured snapshot
 becomes flat create-only records, and a set of fetched records becomes a snapshot again.
 */
module BootstrapCodec {
  import opened Prelude
  import opened Order
  import opened Text
  import opened Records
  import RecordCodec
  import Base64

  const MAXIMUM_PAYLOAD_BYTES := 64 * 1024
  const UINT32_MAX: nat := 0xFFFF_FFFF

  type UInt32 = n: nat | n <= UINT32_MAX

  datatype Document = Document(route: string, document64: string)
  datatype KeyEnvelope = KeyEnvelope(deviceID: string, generation: UInt32, ciphertext64: string)

  datatype Snapshot = Snapshot(
    vaultID: string,
    vault64: string,
    devices: seq<Document>,
    enrollments: seq<Document>,
    generations: seq<Document>,
    envelopes: seq<KeyEnvelope>)

  /** One entry of a snapshot: what one record carries. */
  datatype Doc =
    | RootDoc(root64: string)
    | DeviceDoc(device: Document)
    | EnrollmentDoc(enrollment: Document)
    | GenerationDoc(generation: Document)
    | EnvelopeDoc(envelope: KeyEnvelope)

  datatype BootstrapError =
    | VaultMismatch | InvalidDeviceID | InvalidGeneration | InvalidGenerationRoute | InvalidBase64 | PayloadTooLarge
    | DuplicateRecord | DuplicateVaultRoot | MissingVaultRoot | WrongZone | UnsupportedSchemaVersion
    | UnknownRecordType | MissingField | RecordIdentityMismatch | UnexpectedField

  /** The codec exists only for a valid vault id, folded to lower case. */
  predicate ValidVault(vaultID: string) {
    IsUuid(vaultID) && Lower(vaultID) == vaultID
  }

  function Zone(vaultID: string): string {
    "FloriaVaultV1-" + vaultID
  }

  function IdFor(vaultID: string, prefix: string, stableID: string): RecordId {
    RecordCodec.IdFor(Zone(vaultID), prefix, stableID)
  }

  // ----- validation -----

  function ValidatedDevice(value: string): Result<string, BootstrapError> {
    if IsUuid(value) then Ok(Lower(value)) else Err(InvalidDeviceID)
  }

  function ValidatedGeneration(value: UInt32): Result<UInt32, BootstrapError> {
    if value > 0 then Ok(value) else Err(InvalidGeneration)
  }

  function ValidatedGenerationRoute(value: string): Result<UInt32, BootstrapError> {
    match CanonicalDecimal(value)
    case Some(g) => if g <= UINT32_MAX then ValidatedGeneration(g) else Err(InvalidGenerationRoute)
    case None => Err(InvalidGenerationRoute)
  }

  function PayloadData(payload64: string): Result<seq<Byte>, BootstrapError> {
    match Base64.Decode(payload64)
    case None => Err(InvalidBase64)
    case Some(data) =>
      if data == [] then Err(InvalidBase64)
      else if |data| > MAXIMUM_PAYLOAD_BYTES then Err(PayloadTooLarge)
      else Ok(data)
  }

  // ----- records -----

  function Build(vaultID: string, kind: RecordType, prefix: string, stableID: string,
                 route: map<FieldName, Field>, payload64: string): Result<Record, BootstrapError>
  {
    var data :- PayloadData(payload64);
    Ok(Record(IdFor(vaultID, prefix, stableID), kind,
              route[SchemaVersion := Number(RecordCodec.SCHEMA_VERSION)][Payload := Blob(data)], None))
  }

  function RecordFor(vaultID: string, d: Doc): Result<Record, BootstrapError> {
    match d
    case RootDoc(payload64) =>
      Build(vaultID, VaultType, "vault", "root", map[VaultID := Text(vaultID)], payload64)
    case DeviceDoc(x) =>
      var device :- ValidatedDevice(x.route);
      Build(vaultID, DeviceType, "device", device, map[DeviceID := Text(device)], x.document64)
    case EnrollmentDoc(x) =>
      var device :- ValidatedDevice(x.route);
      Build(vaultID, EnrollmentType, "enrollment", device, map[DeviceID := Text(device)], x.document64)
    case GenerationDoc(x) =>
      var g :- ValidatedGenerationRoute(x.route);
      Build(vaultID, GenerationType, "generation", Decimal(g), map[Generation := Number(g)], x.document64)
    case EnvelopeDoc(x) =>
      var device :- ValidatedDevice(x.deviceID);
      var g :- ValidatedGeneration(x.generation);
      Build(vaultID, EnvelopeType, "envelope", device + "-" + Decimal(g),
            map[DeviceID := Text(device), Generation := Number(g)], x.ciphertext64)
  }

  // ----- decoding -----

  function ValidateCommon(vaultID: string, r: Record): Result<(), BootstrapError> {
    if r.id.zone != Zone(vaultID) then Err(WrongZone)
    else if !(SchemaVersion in r.fields && r.fields[SchemaVersion].Number?) then Err(MissingField)
    else if r.fields[SchemaVersion].value != RecordCodec.SCHEMA_VERSION then Err(UnsupportedSchemaVersion)
    else Ok(())
  }

  function ValidateFields(r: Record, allowed: set<FieldName>): Result<(), BootstrapError> {
    if r.fields.Keys <= allowed then Ok(()) else Err(UnexpectedField)
  }

  function StringField(r: Record, f: FieldName): Result<string, BootstrapError> {
    if f in r.fields && r.fields[f].Text? && r.fields[f].text != [] then Ok(r.fields[f].text) else Err(MissingField)
  }

  function DeviceField(r: Record): Result<string, BootstrapError> {
    var text :- StringField(r, DeviceID);
    ValidatedDevice(text)
  }

  function GenerationField(r: Record): Result<UInt32, BootstrapError> {
    if Generation in r.fields && r.fields[Generation].Number? && 0 < r.fields[Generation].value <= UINT32_MAX
    then Ok(r.fields[Generation].value)
    else Err(InvalidGeneration)
  }

  function ValidateId(vaultID: string, r: Record, prefix: string, stableID: string): Result<(), BootstrapError> {
    if r.id == IdFor(vaultID, prefix, stableID) then Ok(()) else Err(RecordIdentityMismatch)
  }

  function PayloadText(r: Record): Result<string, BootstrapError> {
    if !(Payload in r.fields && r.fields[Payload].Blob? && r.fields[Payload].bytes != []) then Err(MissingField)
    else if |r.fields[Payload].bytes| > MAXIMUM_PAYLOAD_BYTES then Err(PayloadTooLarge)
    else Ok(Base64.Encode(r.fields[Payload].bytes))
  }

  function DecodeRoot(vaultID: string, r: Record): Result<Doc, BootstrapError> {
    var _ :- ValidateFields(r, {SchemaVersion, VaultID, Payload});
    var vault :- StringField(r, VaultID);
    if vault != vaultID then Err(VaultMismatch)
    else
      var _ :- ValidateId(vaultID, r, "vault", "root");
      var payload64 :- PayloadText(r);
      Ok(RootDoc(payload64))
  }

  function DecodeDevice(vaultID: string, r: Record, prefix: string): Result<Document, BootstrapError> {
    var _ :- ValidateFields(r, {SchemaVersion, DeviceID, Payload});
    var device :- DeviceField(r);
    var _ :- ValidateId(vaultID, r, prefix, device);
    var payload64 :- PayloadText(r);
    Ok(Document(device, payload64))
  }

  function DecodeGeneration(vaultID: string, r: Record): Result<Document, BootstrapError> {
    var _ :- ValidateFields(r, {SchemaVersion, Generation, Payload});
    var g :- GenerationField(r);
    var _ :- ValidateId(vaultID, r, "generation", Decimal(g));
    var payload64 :- PayloadText(r);
    Ok(Document(Decimal(g), payload64))
  }

  function DecodeEnvelope(vaultID: string, r: Record): Result<KeyEnvelope, BootstrapError> {
    var _ :- ValidateFields(r, {SchemaVersion, DeviceID, Generation, Payload});
    var device :- DeviceField(r);
    var g :- GenerationField(r);
    var _ :- ValidateId(vaultID, r, "envelope", device + "-" + Decimal(g));
    var payload64 :- PayloadText(r);
    Ok(KeyEnvelope(device, g, payload64))
  }

  function Decode(vaultID: string, r: Record): Result<Doc, BootstrapError> {
    var _ :- ValidateCommon(vaultID, r);
    match r.kind
    case VaultType => DecodeRoot(vaultID, r)
    case DeviceType => var x :- DecodeDevice(vaultID, r, "device"); Ok(DeviceDoc(x))
    case EnrollmentType => var x :- DecodeDevice(vaultID, r, "enrollment"); Ok(EnrollmentDoc(x))
    case GenerationType => var x :- DecodeGeneration(vaultID, r); Ok(GenerationDoc(x))
    case EnvelopeType => var x :- DecodeEnvelope(vaultID, r); Ok(EnvelopeDoc(x))
    case _ => Err(UnknownRecordType)
  }

  predicate Owns(r: Record) {
    r.kind in {VaultType, DeviceType, EnrollmentType, GenerationType, EnvelopeType}
  }

  predicate OwnsId(vaultID: string, id: RecordId) {
    && id.zone == Zone(vaultID)
    && (|| HasPrefix(id.name, "vault-") || HasPrefix(id.name, "device-") || HasPrefix(id.name, "enrollment-")
        || HasPrefix(id.name, "generation-") || HasPrefix(id.name, "envelope-"))
  }

  // ----- the canonical form -----

  function CanonicalText(payload64: string): string {
    match Base64.Decode(payload64)
    case Some(data) => Base64.Encode(data)
    case None => payload64
  }

  function CanonicalDocument(x: Document): Document {
    Document(Lower(x.route), CanonicalText(x.document64))
  }

  function CanonicalEnvelope(x: KeyEnvelope): KeyEnvelope {
    KeyEnvelope(Lower(x.deviceID), x.generation, CanonicalText(x.ciphertext64))
  }

  /** Lower-cased routes and canonical base 64. */
  function Canonical(d: Doc): Doc {
    match d
    case RootDoc(payload64) => RootDoc(CanonicalText(payload64))
    case DeviceDoc(x) => DeviceDoc(CanonicalDocument(x))
    case EnrollmentDoc(x) => EnrollmentDoc(CanonicalDocument(x))
    case GenerationDoc(x) => GenerationDoc(CanonicalDocument(x))
    case EnvelopeDoc(x) => EnvelopeDoc(CanonicalEnvelope(x))
  }

  /** What names a document inside its history. */
  datatype Key =
    | RootKey
    | DeviceKey(route: string)
    | EnrollmentKey(route: string)
    | GenerationKey(route: string)
    | EnvelopeKey(deviceID: string, generation: nat)

  function KeyOf(d: Doc): Key {
    match d
    case RootDoc(_) => RootKey
    case DeviceDoc(x) => DeviceKey(x.route)
    case EnrollmentDoc(x) => EnrollmentKey(x.route)
    case GenerationDoc(x) => GenerationKey(x.route)
    case EnvelopeDoc(x) => EnvelopeKey(x.deviceID, x.generation)
  }

  function Prefix(k: Key): string {
    match k
    case RootKey => "vault-"
    case DeviceKey(_) => "device-"
    case EnrollmentKey(_) => "enrollment-"
    case GenerationKey(_) => "generation-"
    case EnvelopeKey(_, _) => "envelope-"
  }

  function Stable(k: Key): string {
    match k
    case RootKey => "root"
    case DeviceKey(route) => route
    case EnrollmentKey(route) => route
    case GenerationKey(route) => route
    case EnvelopeKey(device, g) => device + "-" + Decimal(g)
  }

  function Name(k: Key): string {
    Prefix(k) + Stable(k)
  }

  /** Devices in keys are 36 characters, the UUID text form. */
  predicate KeyOk(k: Key) {
    k.EnvelopeKey? ==> |k.deviceID| == 36
  }

  lemma PrefixesDiffer(j: Key, k: Key)
    requires HasPrefix(Name(j), Prefix(k))
    ensures Prefix(j) == Prefix(k)
  {
    var n := Name(j);
    assert n[0] == Prefix(j)[0] && n[0] == n[..|Prefix(k)|][0] == Prefix(k)[0];
    assert n[2] == Prefix(j)[2] && n[2] == n[..|Prefix(k)|][2] == Prefix(k)[2];
  }

  lemma EnvelopeStable(device: string, g: nat, device': string, g': nat)
    requires |device| == |device'| == 36 && device + "-" + Decimal(g) == device' + "-" + Decimal(g')
    ensures device == device' && g == g'
  {
    var s := device + "-" + Decimal(g);
    assert s[..36] == device && s[..36] == device';
    assert s[37..] == Decimal(g) && s[37..] == Decimal(g');
    DecimalInjective(g, g');
  }

  /** Record names are injective across the five kinds. */
  lemma NameInjective(j: Key, k: Key)
    requires KeyOk(j) && KeyOk(k) && Name(j) == Name(k)
    ensures j == k
  {
    var n := Name(k);
    assert n[..|Prefix(k)|] == Prefix(k);
    PrefixesDiffer(j, k);
    assert n[|Prefix(k)|..] == Stable(k) && n[|Prefix(k)|..] == Stable(j);
    if j.EnvelopeKey? && k.EnvelopeKey? {
      EnvelopeStable(j.deviceID, j.generation, k.deviceID, k.generation);
    }
  }

  // ----- one record -----

  /** What building and decoding one document guarantees. */
  ghost predicate BuiltOk(vaultID: string, d: Doc, r: Record) {
    Decode(vaultID, r) == Ok(Canonical(d)) && r.tag.None? && Owns(r)
  }

  /** The fields every lifecycle record has, and the common checks. */
  ghost predicate Common(vaultID: string, r: Record, id: RecordId, route: map<FieldName, Field>) {
    && r.id == id && id.zone == Zone(vaultID) && r.fields.Keys == route.Keys + {SchemaVersion, Payload}
    && r.fields[SchemaVersion] == Number(RecordCodec.SCHEMA_VERSION) && PayloadText(r).Ok?
  }

  predicate IsRoute(route: map<FieldName, Field>) {
    SchemaVersion !in route && Payload !in route
  }

  lemma BuiltShape(vaultID: string, kind: RecordType, id: RecordId, prefix: string, stableID: string,
      route: map<FieldName, Field>, payload64: string)
    requires IsRoute(route) && id == IdFor(vaultID, prefix, stableID)
      && Build(vaultID, kind, prefix, stableID, route, payload64).Ok?
    ensures var r := Build(vaultID, kind, prefix, stableID, route, payload64).value;
      && Common(vaultID, r, id, route) && r.kind == kind && r.tag.None?
        && PayloadText(r).value == CanonicalText(payload64)
      && forall f :: f in route ==> r.fields[f] == route[f]
  {
  }

  lemma LowerDecimal(n: nat)
    ensures Lower(Decimal(n)) == Decimal(n)
  {
  }

  lemma DecimalIsCanonical(n: nat)
    ensures CanonicalDecimal(Decimal(n)) == Some(n)
  {
    DecimalRoundTrip(n);
  }

  // Reading a record of each kind, given its fields.

  lemma ReadRoot(vaultID: string, r: Record, route: map<FieldName, Field>)
    requires vaultID != [] && r.kind == VaultType && Common(vaultID, r, IdFor(vaultID, "vault", "root"), route)
    requires route.Keys == {VaultID} && r.fields[VaultID] == Text(vaultID)
    ensures Decode(vaultID, r) == Ok(RootDoc(PayloadText(r).value))
  {
  }

  lemma ReadDevice(vaultID: string, r: Record, route: map<FieldName, Field>, device: string)
    requires IsUuid(device) && Lower(device) == device
    requires r.kind == DeviceType && Common(vaultID, r, IdFor(vaultID, "device", device), route)
    requires route.Keys == {DeviceID} && r.fields[DeviceID] == Text(device)
    ensures Decode(vaultID, r) == Ok(DeviceDoc(Document(device, PayloadText(r).value)))
  {
  }

  lemma ReadEnrollment(vaultID: string, r: Record, route: map<FieldName, Field>, device: string)
    requires IsUuid(device) && Lower(device) == device
    requires r.kind == EnrollmentType && Common(vaultID, r, IdFor(vaultID, "enrollment", device), route)
    requires route.Keys == {DeviceID} && r.fields[DeviceID] == Text(device)
    ensures Decode(vaultID, r) == Ok(EnrollmentDoc(Document(device, PayloadText(r).value)))
  {
  }

  lemma ReadGeneration(vaultID: string, r: Record, route: map<FieldName, Field>, g: UInt32)
    requires g > 0 && r.kind == GenerationType && Common(vaultID, r, IdFor(vaultID, "generation", Decimal(g)), route)
    requires route.Keys == {Generation} && r.fields[Generation] == Number(g)
    ensures Decode(vaultID, r) == Ok(GenerationDoc(Document(Decimal(g), PayloadText(r).value)))
  {
  }

  lemma ReadEnvelope(vaultID: string, r: Record, route: map<FieldName, Field>, device: string, g: UInt32)
    requires IsUuid(device) && Lower(device) == device && g > 0
    requires r.kind == EnvelopeType && Common(vaultID, r, IdFor(vaultID, "envelope", device + "-" + Decimal(g)), route)
    requires route.Keys == {DeviceID, Generation} && r.fields[DeviceID] == Text(device)
      && r.fields[Generation] == Number(g)
    ensures Decode(vaultID, r) == Ok(EnvelopeDoc(KeyEnvelope(device, g, PayloadText(r).value)))
  {
  }

  // Built records decode to the canonical form.

  lemma RootRoundTrip(vaultID: string, payload64: string)
    requires ValidVault(vaultID) && RecordFor(vaultID, RootDoc(payload64)).Ok?
    ensures BuiltOk(vaultID, RootDoc(payload64), RecordFor(vaultID, RootDoc(payload64)).value)
  {
    var route := map[VaultID := Text(vaultID)];
    BuiltShape(vaultID, VaultType, IdFor(vaultID, "vault", "root"), "vault", "root", route, payload64);
    ReadRoot(vaultID, RecordFor(vaultID, RootDoc(payload64)).value, route);
  }

  lemma DeviceRoundTrip(vaultID: string, x: Document)
    requires RecordFor(vaultID, DeviceDoc(x)).Ok?
    ensures BuiltOk(vaultID, DeviceDoc(x), RecordFor(vaultID, DeviceDoc(x)).value)
  {
    LowerUuid(x.route);
    var device := Lower(x.route);
    var route := map[DeviceID := Text(device)];
    BuiltShape(vaultID, DeviceType, IdFor(vaultID, "device", device), "device", device, route, x.document64);
    ReadDevice(vaultID, RecordFor(vaultID, DeviceDoc(x)).value, route, device);
  }

  lemma EnrollmentRoundTrip(vaultID: string, x: Document)
    requires RecordFor(vaultID, EnrollmentDoc(x)).Ok?
    ensures BuiltOk(vaultID, EnrollmentDoc(x), RecordFor(vaultID, EnrollmentDoc(x)).value)
  {
    LowerUuid(x.route);
    var device := Lower(x.route);
    var route := map[DeviceID := Text(device)];
    BuiltShape(vaultID, EnrollmentType, IdFor(vaultID, "enrollment", device), "enrollment", device, route,
      x.document64);
    ReadEnrollment(vaultID, RecordFor(vaultID, EnrollmentDoc(x)).value, route, device);
  }

  lemma GenerationRouteIsDecimal(route: string)
    requires ValidatedGenerationRoute(route).Ok?
    ensures Decimal(ValidatedGenerationRoute(route).value) == route && Lower(route) == route
    ensures ValidatedGenerationRoute(route).value > 0
  {
    LowerDecimal(ValidatedGenerationRoute(route).value);
  }

  lemma GenerationRoundTrip(vaultID: string, x: Document)
    requires RecordFor(vaultID, GenerationDoc(x)).Ok?
    ensures BuiltOk(vaultID, GenerationDoc(x), RecordFor(vaultID, GenerationDoc(x)).value)
  {
    GenerationRouteIsDecimal(x.route);
    var g := ValidatedGenerationRoute(x.route).value;
    var route := map[Generation := Number(g)];
    BuiltShape(vaultID, GenerationType, IdFor(vaultID, "generation", Decimal(g)), "generation", Decimal(g), route,
      x.document64);
    ReadGeneration(vaultID, RecordFor(vaultID, GenerationDoc(x)).value, route, g);
  }

  lemma EnvelopeRoundTrip(vaultID: string, x: KeyEnvelope)
    requires RecordFor(vaultID, EnvelopeDoc(x)).Ok?
    ensures BuiltOk(vaultID, EnvelopeDoc(x), RecordFor(vaultID, EnvelopeDoc(x)).value)
  {
    LowerUuid(x.deviceID);
    var device := Lower(x.deviceID);
    var stableID := device + "-" + Decimal(x.generation);
    var route := map[DeviceID := Text(device), Generation := Number(x.generation)];
    BuiltShape(vaultID, EnvelopeType, IdFor(vaultID, "envelope", stableID), "envelope", stableID, route,
      x.ciphertext64);
    ReadEnvelope(vaultID, RecordFor(vaultID, EnvelopeDoc(x)).value, route, device, x.generation);
  }

  /** A built record decodes to the canonical form of the document it was built from. */
  lemma RecordRoundTrip(vaultID: string, d: Doc)
    requires ValidVault(vaultID) && RecordFor(vaultID, d).Ok?
    ensures BuiltOk(vaultID, d, RecordFor(vaultID, d).value)
  {
    match d
    case RootDoc(payload64) => RootRoundTrip(vaultID, payload64);
    case DeviceDoc(x) => DeviceRoundTrip(vaultID, x);
    case EnrollmentDoc(x) => EnrollmentRoundTrip(vaultID, x);
    case GenerationDoc(x) => GenerationRoundTrip(vaultID, x);
    case EnvelopeDoc(x) => EnvelopeRoundTrip(vaultID, x);
  }

  // ----- a decodable record -----

  /** A record as `RecordFor` spells it: never saved, and its device id in lower case. */
  predicate WellSpelled(r: Record) {
    && r.tag.None?
    && (DeviceID in r.fields && r.fields[DeviceID].Text? ==> Lower(r.fields[DeviceID].text) == r.fields[DeviceID].text)
  }

  /** What decoding establishes: the document is canonical, names the record and can be built again. */
  ghost predicate DecodedOk(vaultID: string, d: Doc, r: Record) {
    NamedOk(vaultID, d, r) && RebuiltOk(vaultID, d, r)
  }

  ghost predicate NamedOk(vaultID: string, d: Doc, r: Record) {
    && Canonical(d) == d && KeyOk(KeyOf(d)) && r.id == RecordId(Zone(vaultID), Name(KeyOf(d))) && Owns(r)
    && (d.GenerationDoc? ==> CanonicalDecimal(d.generation.route).Some?)
  }

  ghost predicate RebuiltOk(vaultID: string, d: Doc, r: Record) {
    && RecordFor(vaultID, d).Ok?
    && RecordFor(vaultID, d).value.id == r.id && RecordFor(vaultID, d).value.kind == r.kind
    && (RecordFor(vaultID, d).value == r <==> WellSpelled(r))
  }

  lemma PayloadTextRoundTrip(r: Record)
    requires PayloadText(r).Ok?
    ensures PayloadData(PayloadText(r).value) == Ok(r.fields[Payload].bytes)
    ensures CanonicalText(PayloadText(r).value) == PayloadText(r).value
  {
    Base64.RoundTrip(r.fields[Payload].bytes);
  }

  /** Building again from the fields of a record gives the record back, up to its route fields and its tag. */
  lemma Rebuild(vaultID: string, r: Record, id: RecordId, prefix: string, stableID: string,
      route: map<FieldName, Field>)
    requires IsRoute(route) && id == IdFor(vaultID, prefix, stableID) && Common(vaultID, r, id, route)
    ensures Build(vaultID, r.kind, prefix, stableID, route, PayloadText(r).value).Ok?
    ensures var built := Build(vaultID, r.kind, prefix, stableID, route, PayloadText(r).value).value;
      && built.id == r.id && built.kind == r.kind
      && (built == r <==> r.tag.None? && forall f :: f in route ==> r.fields[f] == route[f])
  {
    PayloadTextRoundTrip(r);
    FieldsAgain(r.fields, route);
    assert r.fields[Payload] == Blob(r.fields[Payload].bytes);
  }

  lemma FieldsAgain(fields: map<FieldName, Field>, route: map<FieldName, Field>)
    requires IsRoute(route) && fields.Keys == route.Keys + {SchemaVersion, Payload}
    requires fields[SchemaVersion] == Number(RecordCodec.SCHEMA_VERSION)
    ensures route[SchemaVersion := Number(RecordCodec.SCHEMA_VERSION)][Payload := fields[Payload]] == fields
       <==> forall f :: f in route ==> fields[f] == route[f]
  {
    var again := route[SchemaVersion := Number(RecordCodec.SCHEMA_VERSION)][Payload := fields[Payload]];
    assert again.Keys == fields.Keys;
    if again == fields {
      forall f | f in route ensures fields[f] == route[f] {
        assert again[f] == route[f];
      }
    } else {
      var f :| f in fields && again[f] != fields[f];
      assert f in route && fields[f] != route[f];
    }
  }

  // The fields of a decodable record of each kind.

  lemma RootFields(vaultID: string, r: Record)
    requires r.kind == VaultType && Decode(vaultID, r).Ok?
    ensures Common(vaultID, r, IdFor(vaultID, "vault", "root"), map[VaultID := Text(vaultID)])
    ensures r.fields[VaultID] == Text(vaultID) && Decode(vaultID, r).value == RootDoc(PayloadText(r).value)
  {
    assert r.fields.Keys == {SchemaVersion, VaultID, Payload};
  }

  lemma DeviceFields(vaultID: string, r: Record) returns (device: string)
    requires r.kind == DeviceType && Decode(vaultID, r).Ok?
    ensures Common(vaultID, r, IdFor(vaultID, "device", device), map[DeviceID := Text(device)])
    ensures r.fields[DeviceID].Text? && IsUuid(r.fields[DeviceID].text) && device == Lower(r.fields[DeviceID].text)
    ensures Decode(vaultID, r).value == DeviceDoc(Document(device, PayloadText(r).value))
  {
    device := Lower(r.fields[DeviceID].text);
    assert r.fields.Keys == {SchemaVersion, DeviceID, Payload};
  }

  lemma EnrollmentFields(vaultID: string, r: Record) returns (device: string)
    requires r.kind == EnrollmentType && Decode(vaultID, r).Ok?
    ensures Common(vaultID, r, IdFor(vaultID, "enrollment", device), map[DeviceID := Text(device)])
    ensures r.fields[DeviceID].Text? && IsUuid(r.fields[DeviceID].text) && device == Lower(r.fields[DeviceID].text)
    ensures Decode(vaultID, r).value == EnrollmentDoc(Document(device, PayloadText(r).value))
  {
    device := Lower(r.fields[DeviceID].text);
    assert r.fields.Keys == {SchemaVersion, DeviceID, Payload};
  }

  lemma GenerationFields(vaultID: string, r: Record) returns (g: UInt32)
    requires r.kind == GenerationType && Decode(vaultID, r).Ok?
    ensures g > 0 && Common(vaultID, r, IdFor(vaultID, "generation", Decimal(g)), map[Generation := Number(g)])
    ensures r.fields[Generation] == Number(g) && DeviceID !in r.fields
    ensures Decode(vaultID, r).value == GenerationDoc(Document(Decimal(g), PayloadText(r).value))
  {
    g := r.fields[Generation].value;
    assert r.fields.Keys == {SchemaVersion, Generation, Payload};
  }

  lemma EnvelopeFields(vaultID: string, r: Record) returns (device: string, g: UInt32)
    requires r.kind == EnvelopeType && Decode(vaultID, r).Ok?
    ensures g > 0 && r.fields.Keys == {SchemaVersion, DeviceID, Generation, Payload}
    ensures Common(vaultID, r, IdFor(vaultID, "envelope", device + "-" + Decimal(g)),
      map[DeviceID := Text(device), Generation := Number(g)])
    ensures r.fields[DeviceID].Text? && IsUuid(r.fields[DeviceID].text) && device == Lower(r.fields[DeviceID].text)
    ensures r.fields[Generation] == Number(g)
      && Decode(vaultID, r).value == EnvelopeDoc(KeyEnvelope(device, g, PayloadText(r).value))
  {
    device, g := Lower(r.fields[DeviceID].text), r.fields[Generation].value;
    assert r.fields.Keys == {SchemaVersion, DeviceID, Generation, Payload};
  }

  lemma NameOf(vaultID: string, prefix: string, stableID: string, k: Key)
    requires Prefix(k) == prefix + "-" && Stable(k) == stableID
    ensures IdFor(vaultID, prefix, stableID) == RecordId(Zone(vaultID), Name(k))
  {
  }

  lemma RootDecoded(vaultID: string, r: Record)
    requires r.kind == VaultType && Decode(vaultID, r).Ok?
    ensures DecodedOk(vaultID, Decode(vaultID, r).value, r)
  {
    RootFields(vaultID, r);
    PayloadTextRoundTrip(r);
    NameOf(vaultID, "vault", "root", RootKey);
    RootRebuilt(vaultID, r);
  }

  lemma RootRebuilt(vaultID: string, r: Record)
    requires r.kind == VaultType && Common(vaultID, r, IdFor(vaultID, "vault", "root"), map[VaultID := Text(vaultID)])
    requires r.fields[VaultID] == Text(vaultID)
    ensures RebuiltOk(vaultID, RootDoc(PayloadText(r).value), r)
  {
    Rebuild(vaultID, r, IdFor(vaultID, "vault", "root"), "vault", "root", map[VaultID := Text(vaultID)]);
  }

  lemma DeviceNamed(vaultID: string, device: string, payload64: string, r: Record)
    requires IsUuid(device) && Lower(device) == device && CanonicalText(payload64) == payload64
    requires r.kind == DeviceType && r.id == IdFor(vaultID, "device", device)
    ensures NamedOk(vaultID, DeviceDoc(Document(device, payload64)), r)
  {
    NameOf(vaultID, "device", device, DeviceKey(device));
  }

  lemma DeviceRebuilt(vaultID: string, device: string, r: Record)
    requires r.kind == DeviceType && Common(vaultID, r, IdFor(vaultID, "device", device), map[DeviceID := Text(device)])
    requires IsUuid(device) && Lower(device) == device && r.fields[DeviceID].Text?
      && Lower(r.fields[DeviceID].text) == device
    ensures RebuiltOk(vaultID, DeviceDoc(Document(device, PayloadText(r).value)), r)
  {
    Rebuild(vaultID, r, IdFor(vaultID, "device", device), "device", device, map[DeviceID := Text(device)]);
  }

  lemma DeviceDecoded(vaultID: string, r: Record)
    requires r.kind == DeviceType && Decode(vaultID, r).Ok?
    ensures DecodedOk(vaultID, Decode(vaultID, r).value, r)
  {
    var device := DeviceFields(vaultID, r);
    PayloadTextRoundTrip(r);
    LowerUuid(r.fields[DeviceID].text);
    DeviceNamed(vaultID, device, PayloadText(r).value, r);
    DeviceRebuilt(vaultID, device, r);
  }

  lemma EnrollmentNamed(vaultID: string, device: string, payload64: string, r: Record)
    requires IsUuid(device) && Lower(device) == device && CanonicalText(payload64) == payload64
    requires r.kind == EnrollmentType && r.id == IdFor(vaultID, "enrollment", device)
    ensures NamedOk(vaultID, EnrollmentDoc(Document(device, payload64)), r)
  {
    NameOf(vaultID, "enrollment", device, EnrollmentKey(device));
  }

  lemma EnrollmentRebuilt(vaultID: string, device: string, r: Record)
    requires r.kind == EnrollmentType
      && Common(vaultID, r, IdFor(vaultID, "enrollment", device), map[DeviceID := Text(device)])
    requires IsUuid(device) && Lower(device) == device && r.fields[DeviceID].Text?
      && Lower(r.fields[DeviceID].text) == device
    ensures RebuiltOk(vaultID, EnrollmentDoc(Document(device, PayloadText(r).value)), r)
  {
    Rebuild(vaultID, r, IdFor(vaultID, "enrollment", device), "enrollment", device, map[DeviceID := Text(device)]);
  }

  lemma EnrollmentDecoded(vaultID: string, r: Record)
    requires r.kind == EnrollmentType && Decode(vaultID, r).Ok?
    ensures DecodedOk(vaultID, Decode(vaultID, r).value, r)
  {
    var device := EnrollmentFields(vaultID, r);
    PayloadTextRoundTrip(r);
    LowerUuid(r.fields[DeviceID].text);
    EnrollmentNamed(vaultID, device, PayloadText(r).value, r);
    EnrollmentRebuilt(vaultID, device, r);
  }

  lemma RouteOfGeneration(g: UInt32)
    requires g > 0
    ensures ValidatedGenerationRoute(Decimal(g)) == Ok(g)
  {
    DecimalIsCanonical(g);
  }

  lemma GenerationNamed(vaultID: string, g: UInt32, payload64: string, r: Record)
    requires r.kind == GenerationType && r.id == IdFor(vaultID, "generation", Decimal(g))
      && CanonicalText(payload64) == payload64
    ensures NamedOk(vaultID, GenerationDoc(Document(Decimal(g), payload64)), r)
  {
    LowerDecimal(g);
    DecimalIsCanonical(g);
    NameOf(vaultID, "generation", Decimal(g), GenerationKey(Decimal(g)));
  }

  lemma GenerationRebuilt(vaultID: string, g: UInt32, r: Record)
    requires g > 0 && r.kind == GenerationType && DeviceID !in r.fields
    requires Common(vaultID, r, IdFor(vaultID, "generation", Decimal(g)), map[Generation := Number(g)])
      && r.fields[Generation] == Number(g)
    ensures RebuiltOk(vaultID, GenerationDoc(Document(Decimal(g), PayloadText(r).value)), r)
  {
    RouteOfGeneration(g);
    Rebuild(vaultID, r, IdFor(vaultID, "generation", Decimal(g)), "generation", Decimal(g),
      map[Generation := Number(g)]);
  }

  lemma GenerationDecoded(vaultID: string, r: Record)
    requires r.kind == GenerationType && Decode(vaultID, r).Ok?
    ensures DecodedOk(vaultID, Decode(vaultID, r).value, r)
  {
    var g := GenerationFields(vaultID, r);
    PayloadTextRoundTrip(r);
    GenerationNamed(vaultID, g, PayloadText(r).value, r);
    GenerationRebuilt(vaultID, g, r);
  }

  lemma EnvelopeNamed(vaultID: string, device: string, g: UInt32, payload64: string, r: Record)
    requires IsUuid(device) && Lower(device) == device && CanonicalText(payload64) == payload64
    requires r.kind == EnvelopeType && r.id == IdFor(vaultID, "envelope", device + "-" + Decimal(g))
    ensures NamedOk(vaultID, EnvelopeDoc(KeyEnvelope(device, g, payload64)), r)
  {
    NameOf(vaultID, "envelope", device + "-" + Decimal(g), EnvelopeKey(device, g));
  }

  lemma EnvelopeRebuilt(vaultID: string, device: string, g: UInt32, r: Record, route: map<FieldName, Field>)
    requires route == map[DeviceID := Text(device), Generation := Number(g)]
    requires r.kind == EnvelopeType && Common(vaultID, r, IdFor(vaultID, "envelope", device + "-" + Decimal(g)), route)
    requires IsUuid(device) && Lower(device) == device && r.fields[DeviceID].Text?
      && Lower(r.fields[DeviceID].text) == device
    requires g > 0 && r.fields[Generation] == Number(g)
    ensures RebuiltOk(vaultID, EnvelopeDoc(KeyEnvelope(device, g, PayloadText(r).value)), r)
  {
    var stableID := device + "-" + Decimal(g);
    Rebuild(vaultID, r, IdFor(vaultID, "envelope", stableID), "envelope", stableID, route);
  }

  lemma EnvelopeDecoded(vaultID: string, r: Record)
    requires r.kind == EnvelopeType && Decode(vaultID, r).Ok?
    ensures DecodedOk(vaultID, Decode(vaultID, r).value, r)
  {
    var device, g := EnvelopeFields(vaultID, r);
    PayloadTextRoundTrip(r);
    LowerUuid(r.fields[DeviceID].text);
    EnvelopeNamed(vaultID, device, g, PayloadText(r).value, r);
    EnvelopeRebuilt(vaultID, device, g, r, map[DeviceID := Text(device), Generation := Number(g)]);
  }

  /** A decodable record carries its canonical document under that document's own name. */
  lemma RecordDecoded(vaultID: string, r: Record)
    requires Decode(vaultID, r).Ok?
    ensures DecodedOk(vaultID, Decode(vaultID, r).value, r)
  {
    match r.kind
    case VaultType => RootDecoded(vaultID, r);
    case DeviceType => DeviceDecoded(vaultID, r);
    case EnrollmentType => EnrollmentDecoded(vaultID, r);
    case GenerationType => GenerationDecoded(vaultID, r);
    case EnvelopeType => EnvelopeDecoded(vaultID, r);
    case _ =>
  }
}
