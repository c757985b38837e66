/**
 What the lifecycle schema comes to, over the fields of records alone: every name, version and
 limit of the wire format is written out here.
 */
module LifecycleReading {
  import opened Prelude
  import opened Text
  import opened Records
  import opened BootstrapCodec
  import RecordCodec
  import R = RecordReading
  import Base64

  // ----- decoding -----

  /** The record has version 1, exactly these fields and a payload of at most 64 KiB with this text. */
  ghost predicate Carries(vaultID: string, r: Record, fields: set<FieldName>, text: string) {
    && r.id.zone == "FloriaVaultV1-" + vaultID && r.fields.Keys == fields && R.Has(r, SchemaVersion, Number(1))
    && R.HasPayload(r, Payload, text) && |r.fields[Payload].bytes| <= 65536
  }

  ghost predicate HasGeneration(r: Record, g: nat) {
    R.Has(r, Generation, Number(g)) && 1 <= g <= 4294967295
  }

  /** The record spells out the document, under the name and the type of its kind. */
  ghost predicate Spells(vaultID: string, r: Record, d: Doc) {
    match d
    case RootDoc(text) =>
      && r.kind == VaultType && r.id.name == "vault-root"
      && Carries(vaultID, r, {SchemaVersion, VaultID, Payload}, text) && R.Has(r, VaultID, Text(vaultID))
    case DeviceDoc(x) =>
      && r.kind == DeviceType && r.id.name == "device-" + x.route
      && Carries(vaultID, r, {SchemaVersion, DeviceID, Payload}, x.document64) && R.HasUuid(r, DeviceID, x.route)
    case EnrollmentDoc(x) =>
      && r.kind == EnrollmentType && r.id.name == "enrollment-" + x.route
      && Carries(vaultID, r, {SchemaVersion, DeviceID, Payload}, x.document64) && R.HasUuid(r, DeviceID, x.route)
    case GenerationDoc(x) =>
      && r.kind == GenerationType && r.id.name == "generation-" + x.route
      && Carries(vaultID, r, {SchemaVersion, Generation, Payload}, x.document64)
      && exists g: nat :: HasGeneration(r, g) && x.route == Decimal(g)
    case EnvelopeDoc(x) =>
      && r.kind == EnvelopeType && r.id.name == "envelope-" + x.deviceID + "-" + Decimal(x.generation)
      && Carries(vaultID, r, {SchemaVersion, DeviceID, Generation, Payload}, x.ciphertext64)
      && R.HasUuid(r, DeviceID, x.deviceID) && HasGeneration(r, x.generation)
  }

  lemma NameIff(vaultID: string, r: Record, stableID: string)
    requires r.id.zone == "FloriaVaultV1-" + vaultID
    ensures r.id == IdFor(vaultID, "vault", stableID) <==> r.id.name == "vault-" + stableID
    ensures r.id == IdFor(vaultID, "device", stableID) <==> r.id.name == "device-" + stableID
    ensures r.id == IdFor(vaultID, "enrollment", stableID) <==> r.id.name == "enrollment-" + stableID
    ensures r.id == IdFor(vaultID, "generation", stableID) <==> r.id.name == "generation-" + stableID
    ensures r.id == IdFor(vaultID, "envelope", stableID) <==> r.id.name == "envelope-" + stableID
  {
    assert "vault" + "-" == "vault-" && "device" + "-" == "device-" && "enrollment" + "-" == "enrollment-";
    assert "generation" + "-" == "generation-" && "envelope" + "-" == "envelope-";
  }

  lemma DeviceFieldIff(r: Record, id: string)
    ensures R.HasUuid(r, DeviceID, id) <==> DeviceField(r) == Ok(id)
  {
    if DeviceID in r.fields && r.fields[DeviceID].Text? {
      R.UuidIff(r.fields[DeviceID].text);
      R.FoldIff(r.fields[DeviceID].text, id);
    }
  }

  lemma GenerationFieldIff(r: Record, g: nat)
    ensures HasGeneration(r, g) <==> GenerationField(r).Ok? && GenerationField(r).value == g
  {
  }

  lemma PayloadIff(r: Record, text: string)
    ensures PayloadText(r) == Ok(text) <==> R.HasPayload(r, Payload, text) && |r.fields[Payload].bytes| <= 65536
  {
  }

  lemma CommonIff(vaultID: string, r: Record)
    ensures ValidateCommon(vaultID, r).Ok? <==>
      r.id.zone == "FloriaVaultV1-" + vaultID && R.Has(r, SchemaVersion, Number(1))
  {
  }

  lemma RootIff(vaultID: string, r: Record, text: string)
    requires vaultID != [] && ValidateCommon(vaultID, r).Ok? && r.kind == VaultType
    ensures DecodeRoot(vaultID, r) == Ok(RootDoc(text)) <==> Spells(vaultID, r, RootDoc(text))
  {
    CommonIff(vaultID, r);
    PayloadIff(r, text);
    NameIff(vaultID, r, "root");
    assert "vault-" + "root" == "vault-root";
  }

  lemma DeviceIff(vaultID: string, r: Record, x: Document)
    requires ValidateCommon(vaultID, r).Ok?
    ensures r.kind == DeviceType ==>
      (DecodeDevice(vaultID, r, "device") == Ok(x) <==> Spells(vaultID, r, DeviceDoc(x)))
    ensures r.kind == EnrollmentType ==>
      (DecodeDevice(vaultID, r, "enrollment") == Ok(x) <==> Spells(vaultID, r, EnrollmentDoc(x)))
  {
    CommonIff(vaultID, r);
    PayloadIff(r, x.document64);
    DeviceFieldIff(r, x.route);
    NameIff(vaultID, r, x.route);
  }

  lemma GenerationIff(vaultID: string, r: Record, x: Document)
    requires ValidateCommon(vaultID, r).Ok? && r.kind == GenerationType
    ensures DecodeGeneration(vaultID, r) == Ok(x) <==> Spells(vaultID, r, GenerationDoc(x))
  {
    CommonIff(vaultID, r);
    PayloadIff(r, x.document64);
    NameIff(vaultID, r, x.route);
    if GenerationField(r).Ok? {
      GenerationFieldIff(r, GenerationField(r).value);
    }
    if g: nat :| HasGeneration(r, g) && x.route == Decimal(g) {
      GenerationFieldIff(r, g);
    }
  }

  lemma EnvelopeIff(vaultID: string, r: Record, x: KeyEnvelope)
    requires ValidateCommon(vaultID, r).Ok? && r.kind == EnvelopeType
    ensures DecodeEnvelope(vaultID, r) == Ok(x) <==> Spells(vaultID, r, EnvelopeDoc(x))
  {
    CommonIff(vaultID, r);
    PayloadIff(r, x.ciphertext64);
    DeviceFieldIff(r, x.deviceID);
    GenerationFieldIff(r, x.generation);
    NameIff(vaultID, r, x.deviceID + "-" + Decimal(x.generation));
    assert "envelope-" + x.deviceID + "-" + Decimal(x.generation)
        == "envelope-" + (x.deviceID + "-" + Decimal(x.generation));
  }

  /** The lifecycle decoder accepts exactly the records that spell a document out, and reads that document. */
  lemma DecodeIff(vaultID: string, r: Record, d: Doc)
    requires ValidVault(vaultID)
    ensures Decode(vaultID, r) == Ok(d) <==> Spells(vaultID, r, d)
  {
    CommonIff(vaultID, r);
    if ValidateCommon(vaultID, r).Ok? {
      match (r.kind, d)
      case (VaultType, RootDoc(text)) => RootIff(vaultID, r, text);
      case (DeviceType, DeviceDoc(x)) => DeviceIff(vaultID, r, x);
      case (EnrollmentType, EnrollmentDoc(x)) => DeviceIff(vaultID, r, x);
      case (GenerationType, GenerationDoc(x)) => GenerationIff(vaultID, r, x);
      case (EnvelopeType, EnvelopeDoc(x)) => EnvelopeIff(vaultID, r, x);
      case _ =>
    }
  }

  // ----- building -----

  /** The text denotes a payload of 1 to 65536 octets. */
  ghost predicate Sized(text: string) {
    Base64.Decode(text).Some? && 0 < |Base64.Decode(text).value| <= 65536
  }

  /** The decimal text of a generation from 1 to 4294967295. */
  ghost predicate Numbers(route: string, g: nat) {
    1 <= g <= 4294967295 && route == Decimal(g)
  }

  ghost predicate GenerationText(route: string) {
    exists g: nat :: Numbers(route, g)
  }

  /** What a document must be to become a record. */
  ghost predicate Sendable(d: Doc) {
    match d
    case RootDoc(text) => Sized(text)
    case DeviceDoc(x) => R.UuidText(x.route) && Sized(x.document64)
    case EnrollmentDoc(x) => R.UuidText(x.route) && Sized(x.document64)
    case GenerationDoc(x) => GenerationText(x.route) && Sized(x.document64)
    case EnvelopeDoc(x) => R.UuidText(x.deviceID) && 1 <= x.generation && Sized(x.ciphertext64)
  }

  lemma GenerationRouteIff(route: string)
    ensures ValidatedGenerationRoute(route).Ok? <==> GenerationText(route)
  {
    if ValidatedGenerationRoute(route).Ok? {
      assert Numbers(route, ValidatedGenerationRoute(route).value);
    }
    if g: nat :| Numbers(route, g) {
      DecimalIsCanonical(g);
    }
  }

  lemma BuildIff(vaultID: string, kind: RecordType, prefix: string, stableID: string, route: map<FieldName, Field>,
      text: string)
    ensures Build(vaultID, kind, prefix, stableID, route, text).Ok? <==> Sized(text)
  {
  }

  lemma DocumentIff(vaultID: string, x: Document)
    ensures RecordFor(vaultID, DeviceDoc(x)).Ok? <==> R.UuidText(x.route) && Sized(x.document64)
    ensures RecordFor(vaultID, EnrollmentDoc(x)).Ok? <==> R.UuidText(x.route) && Sized(x.document64)
  {
    R.UuidIff(x.route);
    var device := Lower(x.route);
    BuildIff(vaultID, DeviceType, "device", device, map[DeviceID := Text(device)], x.document64);
    BuildIff(vaultID, EnrollmentType, "enrollment", device, map[DeviceID := Text(device)], x.document64);
  }

  lemma GenerationDocIff(vaultID: string, x: Document)
    ensures RecordFor(vaultID, GenerationDoc(x)).Ok? <==> Sendable(GenerationDoc(x))
  {
    GenerationRouteIff(x.route);
    if ValidatedGenerationRoute(x.route).Ok? {
      var g := ValidatedGenerationRoute(x.route).value;
      BuildIff(vaultID, GenerationType, "generation", Decimal(g), map[Generation := Number(g)], x.document64);
    }
  }

  lemma EnvelopeDocIff(vaultID: string, x: KeyEnvelope)
    ensures RecordFor(vaultID, EnvelopeDoc(x)).Ok? <==> Sendable(EnvelopeDoc(x))
  {
    R.UuidIff(x.deviceID);
    var device := Lower(x.deviceID);
    BuildIff(vaultID, EnvelopeType, "envelope", device + "-" + Decimal(x.generation),
             map[DeviceID := Text(device), Generation := Number(x.generation)], x.ciphertext64);
  }

  /** A document becomes a record exactly when it is sendable, and the record spells its canonical form. */
  lemma BuiltIff(vaultID: string, d: Doc)
    requires ValidVault(vaultID)
    ensures RecordFor(vaultID, d).Ok? <==> Sendable(d)
    ensures RecordFor(vaultID, d).Ok? ==>
      Spells(vaultID, RecordFor(vaultID, d).value, Canonical(d)) && RecordFor(vaultID, d).value.tag.None?
  {
    match d {
      case RootDoc(text) => BuildIff(vaultID, VaultType, "vault", "root", map[VaultID := Text(vaultID)], text);
      case DeviceDoc(x) => DocumentIff(vaultID, x);
      case EnrollmentDoc(x) => DocumentIff(vaultID, x);
      case GenerationDoc(x) => GenerationDocIff(vaultID, x);
      case EnvelopeDoc(x) => EnvelopeDocIff(vaultID, x);
    }
    if RecordFor(vaultID, d).Ok? {
      RecordRoundTrip(vaultID, d);
      DecodeIff(vaultID, RecordFor(vaultID, d).value, Canonical(d));
    }
  }

  // ----- whose records these are -----

  /** Every lifecycle record is recognised, by its type and by its name, and no entity record is. */
  lemma OwnedIff(vaultID: string, r: Record)
    requires ValidVault(vaultID)
    ensures Decode(vaultID, r).Ok? ==> Owns(r) && OwnsId(vaultID, r.id)
    ensures Owns(r) <==>
      !(r.kind.ObjectType? || r.kind.RevisionType? || r.kind.CommitType? || r.kind.HeadType? || r.kind.OtherType?)
    ensures RecordCodec.Decode("FloriaVaultV1-" + vaultID, r).Ok? ==> !Owns(r) && !OwnsId(vaultID, r.id)
  {
    if Decode(vaultID, r).Ok? {
      DecodeIff(vaultID, r, Decode(vaultID, r).value);
      NamedOwned(vaultID, r, Decode(vaultID, r).value);
    }
    if RecordCodec.Decode("FloriaVaultV1-" + vaultID, r).Ok? {
      var d := RecordCodec.Decode("FloriaVaultV1-" + vaultID, r).value;
      R.DecodeIff("FloriaVaultV1-" + vaultID, r, d);
      EntityName(r.id.name, d);
    }
  }

  lemma Starts(prefix: string, rest: string)
    ensures HasPrefix(prefix + rest, prefix)
  {
  }

  lemma NamedOwned(vaultID: string, r: Record, d: Doc)
    requires Spells(vaultID, r, d)
    ensures OwnsId(vaultID, r.id)
  {
    match d
    case RootDoc(_) => Starts("vault-", "root");
    case DeviceDoc(x) => Starts("device-", x.route);
    case EnrollmentDoc(x) => Starts("enrollment-", x.route);
    case GenerationDoc(x) => Starts("generation-", x.route);
    case EnvelopeDoc(x) =>
      assert r.id.name == "envelope-" + (x.deviceID + "-" + Decimal(x.generation));
      Starts("envelope-", x.deviceID + "-" + Decimal(x.generation));
  }

  lemma EntityName(name: string, d: RecordCodec.Decoded)
    requires match d
      case DecodedObject(digest, _, _) => name == "object-" + digest
      case DecodedRevision(_, v, _) => name == "revision-" + v
      case DecodedManifest(c, _) => name == "commit-" + c
      case DecodedHead(e, _) => name == "head-" + e
    ensures |name| > 0 && name[0] in {'o', 'r', 'c', 'h'}
    ensures forall p :: p in {"vault-", "device-", "enrollment-", "generation-", "envelope-"} ==> !HasPrefix(name, p)
  {
    assert forall p: string :: HasPrefix(name, p) && |p| > 0 ==> name[0] == p[0];
  }
}
