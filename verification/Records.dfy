/** CloudKit records as the sync engine hands them over: identity, type, fields and change tag. */
module Records {
  import opened Prelude

  datatype RecordType =
    | ObjectType | RevisionType | CommitType | HeadType
    | VaultType | DeviceType | EnrollmentType | GenerationType | EnvelopeType
    | OtherType(typeName: string)

  datatype FieldName =
    | SchemaVersion | Digest | CiphertextSize | Ciphertext
    | EntityID | RevisionID | CommitID | Envelope | Manifest
    | VaultID | DeviceID | Generation | Payload
    | OtherField(fieldName: string)

  /** A local file, by its path and the two facts integrity checks read from its bytes. */
  datatype File = File(path: string, size: nat, sha256: string)

  datatype Field = Text(text: string) | Number(value: int) | Blob(bytes: seq<Byte>) | Asset(file: Option<File>)

  datatype RecordId = RecordId(zone: string, name: string)

  /** `tag` is the server's record change tag; a record never saved has none. */
  datatype Record = Record(id: RecordId, kind: RecordType, fields: map<FieldName, Field>, tag: Option<nat>)

  function IdOf(r: Record): RecordId {
    r.id
  }
}
