/** Identifiers and the envelope every pipeline message travels in. */
module Pipeline {
  import opened Text

  /** A UUID: sixteen bytes (`uuid::Uuid::as_bytes`). */
  type Uuid = s: seq<byte> | |s| == 16 witness seq(16, _ => 0 as byte)

  /** The hyphenated lower-case form, 8-4-4-4-12 hex digits. */
  function Hyphenated(u: Uuid): (s: string)
    ensures |s| == 36
  {
    HexEncode(u[..4]) + "-" + HexEncode(u[4..6]) + "-" + HexEncode(u[6..8]) + "-"
    + HexEncode(u[8..10]) + "-" + HexEncode(u[10..])
  }

  /** `Uuid::urn().to_string()`: the hyphenated form behind "urn:uuid:". */
  function Urn(u: Uuid): (s: string)
    ensures |s| == 45
    ensures s[..9] == "urn:uuid:" && s[9..] == Hyphenated(u)
  {
    "urn:uuid:" + Hyphenated(u)
  }

  /** A tenant-scoped pipeline message with its routing metadata. */
  datatype Envelope<T> = Envelope(tenantId: Uuid, traceId: Uuid, eventSourceId: Uuid, innerMessage: T)
}
