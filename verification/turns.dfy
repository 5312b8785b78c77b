/** The chat turns the bot stores: one `{role, content}` record per message
    exchanged with a user, as sent to the completion provider. */
module Turns {

  /** The two speaker roles the bot ever writes into a history. */
  datatype Role = User | Assistant

  /** One stored message. Turns are immutable once appended. */
  datatype Turn = Turn(role: Role, content: string)

  /** The record appended for an inbound user message. */
  function UserTurn(message: string): Turn
  {
    Turn(User, message)
  }

  /** The record appended for a provider reply. */
  function AssistantTurn(reply: string): Turn
  {
    Turn(Assistant, reply)
  }

  /** Roles alternate user, assistant, user, ... starting with a user turn. */
  ghost predicate Alternating(h: seq<Turn>)
  {
    forall i :: 0 <= i < |h| ==> h[i].role == (if i % 2 == 0 then User else Assistant)
  }
}
