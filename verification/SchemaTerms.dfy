/** What the schema calls its controlled properties (`schema.py`). */
module SchemaTerms {

  /** The controlled properties other than `type`. */
  datatype Field = Status | Domain | SourceKind | CaptureType

  function Key(f: Field): string {
    match f
    case Status => "status" case Domain => "domain" case SourceKind => "source_kind" case CaptureType => "capture_type"
  }
}
