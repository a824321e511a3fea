/** The request and response records the services exchange. Their
    declarations live in `app/models`, which is not part of this model; the
    fields below are the ones the core reads and writes. A UUID is kept as
    the text `str(uuid)` gives, since the core only ever compares it or
    turns it into a string. */
module Models {
  import opened Wrappers

  datatype Uuid = Uuid(canonical: string)

  /** Python's `str(uuid)`. */
  function UuidStr(u: Uuid): string { u.canonical }

  datatype IncomingMessage = IncomingMessage(
    id: Uuid,
    dialogId: Uuid,
    participantIndex: int,
    text: string)

  datatype Prediction = Prediction(
    id: Uuid,
    messageId: Uuid,
    dialogId: Uuid,
    participantIndex: int,
    isBotProbability: real)

  datatype GetMessageRequest = GetMessageRequest(
    dialogId: Uuid,
    lastMessageId: Option<Uuid>,
    lastMsgText: string)

  datatype GetMessageResponse = GetMessageResponse(
    newMsgText: string,
    dialogId: Uuid)
}
