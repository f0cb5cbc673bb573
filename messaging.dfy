/**
 * The message bus between the extension's contexts: an envelope is a topic
 * (a path-like name compared exactly) with a payload, addressed to the
 * background context (`sendMessage`) or to the content script of the active
 * tab (`sendMessageToActiveTab`). Payloads are a closed union, one shape
 * per outgoing topic.
 */
module Messaging {

  datatype Target = Background | ActiveTab

  /** Where recognised text came from: the voice engine or the commands popup. */
  datatype Mode = Speech | Typed {
    /** The `mode` string the content script receives. */
    function Name(): string
      ensures Speech? <==> Name() == "speech"
      ensures Typed? <==> Name() == "text"
    {
      match this
      case Speech => "speech"
      case Typed => "text"
    }
  }

  datatype Payload =
    | SrText(text: string, langId: string, langLabel: string, mode: Mode)  // "/sr_text"
    | Notice(message: string)                                               // "/message"
    | Url(url: string)                                                      // "/go_to"

  datatype Envelope = Envelope(target: Target, topic: string, payload: Payload)
}
