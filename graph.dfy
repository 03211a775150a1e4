/** The graph description types shared by node identification and the graph
    merger (the `graph::v1beta1` protobuf messages). */
module Graph {
  import opened Text

  type i64 = x: int | -0x8000_0000_0000_0000 <= x < 0x8000_0000_0000_0000
  type u64 = x: int | 0 <= x < 0x1_0000_0000_0000_0000
  type u128 = x: int | 0 <= x < 0x1_0000_0000_0000_0000_0000_0000_0000_0000

  /** A node property: three signed, three unsigned and one string variant. */
  datatype Property =
    | IncrementOnlyIntProp(i: i64)
    | DecrementOnlyIntProp(i: i64)
    | ImmutableIntProp(i: i64)
    | IncrementOnlyUintProp(u: u64)
    | DecrementOnlyUintProp(u: u64)
    | ImmutableUintProp(u: u64)
    | ImmutableStrProp(s: string)
  {
    predicate IsInteger() {
      !ImmutableStrProp?
    }

    /** The integer an integer variant carries. */
    function IntValue(): int
      requires IsInteger()
    {
      match this
      case IncrementOnlyIntProp(v) => v
      case DecrementOnlyIntProp(v) => v
      case ImmutableIntProp(v) => v
      case IncrementOnlyUintProp(v) => v
      case DecrementOnlyUintProp(v) => v
      case ImmutableUintProp(v) => v
    }
  }

  /** A property's text: the decimal rendering of an integer variant, the
      string itself for the string variant. */
  function PropertyText(p: Property): string {
    if p.IsInteger() then IntToDecimal(p.IntValue()) else p.s
  }

  /** Identification by session: key properties and the session's times. */
  datatype Session = Session(
    primaryKeyProperties: seq<string>,
    primaryKeyRequiresAssetId: bool,
    createTime: u64,
    lastSeenTime: u64,
    terminateTime: u64)

  /** Identification by a static mapping of key properties. */
  datatype Static = Static(primaryKeyProperties: seq<string>, primaryKeyRequiresAssetId: bool)

  datatype Strategy = SessionStrategy(session: Session) | StaticStrategy(mapping: Static)

  datatype NodeDescription = NodeDescription(
    properties: map<string, Property>,
    nodeKey: string,
    nodeType: string,
    idStrategy: seq<Strategy>)
}
