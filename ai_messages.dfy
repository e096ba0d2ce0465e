/**
 * The language-model replies the two AI routes read. The call itself is
 * outside the model: a reply is a value handed to the route.
 */
module AiMessages {
  /** A content block of the model's message. */
  datatype Block = TextBlock(text: string) | OtherBlock

  /** The model call: a message with its content blocks, or a thrown error. */
  datatype AiReply = Replied(blocks: seq<Block>) | CallFailed
}
