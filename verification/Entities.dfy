/** The rows, messages and identifiers that the API, the queue and the worker exchange. */
module Entities {
  import opened Common

  type Uuid = nat
  newtype Byte = x: int | 0 <= x < 256

  /** The text of a declared or computed checksum. SHA-256 is taken to be free of collisions, so the
      lower-case hexadecimal digest of a content is identified with that content; every other text
      (an upper-case digest included) is `OtherText`. */
  datatype Checksum = Sha256Hex(content: seq<Byte>) | OtherText(text: string)

  /** `${organization}:${version}:${sha256}:document.virus_scan:scan-v1`, and the key that
      `reprocess` derives from an earlier one. */
  datatype Key =
    | ScanKey(organization: Uuid, version: Uuid, checksum: Checksum)
    | ReprocessKey(base: Key, correlation: Uuid)

  /** Queue job identifiers: the SHA-256 of a key in base64url, or a key used verbatim. The two
      never coincide, because a key holds colons and base64url text does not. */
  datatype JobId = Hashed(key: Key) | Verbatim(key: Key)

  function BullJobId(key: Key): JobId { Hashed(key) }

  datatype Zone = Quarantine | Clean | Derived

  /** `${zone}/${organization}/${version}/${name}`. */
  datatype ObjectKey = ObjectKey(zone: Zone, organization: Uuid, version: Uuid, name: Name)

  /** The last segment of an object key: an upload, a fixed text, or an artifact derived from another. */
  datatype Name =
    | Upload(nonce: Uuid, file: string)
    | Literal(text: string)
    | Processed(checksum: Checksum, processorVersion: string, original: Name)

  /** The payload of an outbox row, which becomes the data of a queue job. `wellFormed` says whether
      the processing job schema accepts it. */
  datatype Payload = Payload(
    wellFormed: bool, key: Key, tenant: Uuid, document: Uuid, version: Uuid, correlation: Uuid,
    source: ObjectKey, checksum: Checksum, contentType: string, processorVersion: string, aiOptIn: bool)

  datatype Outcome = Completed | Rejected

  /** The compact result a job returns. */
  datatype Completion = Completion(
    correlation: Uuid, tenant: Uuid, version: Uuid, outcome: Outcome, artifactRefs: seq<ObjectKey>,
    extractedDataRef: Option<ObjectKey>, checksum: Checksum, processorVersion: string,
    durationMs: nat, pageCount: Option<nat>, fieldCount: Option<nat>)

  datatype Source = Local | Ocr | Ai | Human

  /** An extracted field as the worker reports it; an absent property and `null` are both `None`. */
  datatype RawField = RawField(
    key: string, value: Option<string>, source: Option<Source>, page: Option<int>,
    excerpt: Option<string>, confidence: Option<real>)

  /** What `parseCompletionResult` makes of a job's return value. */
  datatype ReturnValue = Malformed | Compact(result: Completion)

  /** The identity check between a queue envelope and the result it returned. */
  predicate SameIdentity(data: Payload, result: Completion) {
    result.tenant == data.tenant && result.version == data.version && result.correlation == data.correlation
  }
}
