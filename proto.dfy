/** The shapes of the decoded game messages the aggregator consumes.
    They come from an external protocol library that is not part of this model;
    only the fields the aggregator reads are kept. */
module Proto {

  /** Rust's `u32`, the width of every identifier in the messages. */
  newtype u32 = x: int | 0 <= x < 0x1_0000_0000

  /** Rust's `u8`, the element type of the key material. */
  newtype u8 = x: int | 0 <= x < 0x100

  /** A protobuf enumeration field: either a value of the enumeration or a raw
      number the enumeration does not know. */
  datatype EnumOrUnknown<E> = Known(value: E) | Unknown(raw: int)
  {
    /** `EnumOrUnknown::unwrap`, which panics on an unknown raw value. */
    function Unwrap(): (e: E)
      requires Known?
      ensures this == Known(e)
    {
      value
    }
  }

  /** The quest status enumeration. Only the two terminal values matter to the
      aggregator; every other value of the enumeration is `QuestOther`. */
  datatype QuestStatus = QuestClose | QuestFinish | QuestOther(code: int)

  /** One entry of a quest data response. */
  datatype Quest = Quest(id: u32, status: EnumOrUnknown<QuestStatus>)

  /** One entry of a bag response; `tid` is the item type identifier. */
  datatype Material = Material(tid: u32)

  /** The token response, which carries the account identifier. */
  datatype PlayerGetTokenScRsp = PlayerGetTokenScRsp(uid: u32)

  /** The bag (inventory) response. */
  datatype GetBagScRsp = GetBagScRsp(materialList: seq<Material>)

  /** The quest data response. */
  datatype GetQuestDataScRsp = GetQuestDataScRsp(questList: seq<Quest>)

  /** The outcome of `parse_proto`: a decoded message or a schema mismatch. */
  datatype ParseResult<T> = Parsed(msg: T) | ParseError

  /** A decoded command as the aggregator sees it after matching on its
      command id: one variant per recognised id, carrying the outcome of parsing
      its payload with that id's schema, and one variant for every other id. */
  datatype GameCommand =
    | TokenCommand(token: ParseResult<PlayerGetTokenScRsp>)
    | BagCommand(bag: ParseResult<GetBagScRsp>)
    | QuestDataCommand(questData: ParseResult<GetQuestDataScRsp>)
    | OtherCommand(commandId: nat)
}
