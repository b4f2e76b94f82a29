/** Vocabulary shared by the modules of this model: optional values,
    fixed-width integers, the runtime's error codes and node identities. */
module Common {

  /** A value that may be absent (`caf::optional`, a null pointer, ...). */
  datatype Option<+T> = None | Some(value: T)

  const MinInt64: int := -0x8000_0000_0000_0000
  const MaxInt64: int := 0x7FFF_FFFF_FFFF_FFFF

  /** `int64_t`, the representation of `config_value::integer`. */
  type Int64 = i: int | MinInt64 <= i <= MaxInt64

  /** `uint8_t` and `caf::byte`. */
  type Byte = b: int | 0 <= b < 256

  /** The subset of `caf::sec` this model produces. */
  datatype Sec =
    | NoError            // sec::none
    | ConversionFailed   // sec::conversion_failed
    | UnknownType        // sec::unknown_type
    | NoContext          // sec::no_context
    | NoTracingContext   // sec::no_tracing_context
    | OtherSec(code: nat)

  /** An opaque node identifier (`caf::node_id`); equality is all the model uses. */
  datatype NodeId = NodeId(uri: string)

  /** An actor handle: the node hosting it and an identifier on that node. */
  datatype Actor = Actor(node: NodeId, id: nat)
}
