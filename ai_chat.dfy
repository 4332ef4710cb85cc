/**
 * frontend/src/components/AIChat.jsx: the chat's message log and the request flag around each
 * send. `handleSendMessage` is split at its `await` into `BeginSend` and `FinishSend`; the
 * `Date.now()` readings that become message ids are parameters.
 */
module AIChat {

  import opened Wrappers
  import opened Text
  import opened ClientModel

  datatype Sender = User | Ai

  /** A chat message; its `timestamp` is presentation only and is not kept. */
  datatype Message = Message(id: int, sender: Sender, content: string)

  const GreetingText: string :=
    "¡Hola! Soy tu asistente especializado en tomar notas y organizar información. Puedo ayudarte a:\n\n" +
    "📝 Resumir textos largos en puntos clave\n" +
    "💡 Generar ideas y conceptos principales\n" +
    "🎯 Extraer información importante de tus textos\n" +
    "📋 Organizar y estructurar tus notas\n\n" +
    "¿En qué puedo ayudarte hoy?"

  /** The message the log starts with, and restarts with after `clearChat`. */
  const Greeting: Message := Message(1, Ai, GreetingText)

  const EmptyReply: string := "Lo siento, no pude procesar tu mensaje."
  const FailedReply: string := "Lo siento, hubo un error al procesar tu mensaje. Por favor, intenta de nuevo."
  const ChatError: string := "Error al comunicarse con la IA. Por favor, intenta de nuevo."

  /** The answer shown for a request: the reply, or a fallback when it is empty or the call failed. */
  function ReplyText(reply: ApiResult<string>): (text: string)
    ensures text != ""
    ensures reply.Success? && reply.value != "" ==> text == reply.value
    ensures reply.Success? && reply.value == "" ==> text == EmptyReply
    ensures reply.Failure? ==> text == FailedReply
  {
    match reply
    case Success(r) => if r != "" then r else EmptyReply
    case Failure(_) => FailedReply
  }

  class ChatState {
    var messages: seq<Message>
    var inputMessage: string
    var isLoading: bool
    var error: string

    /** The log starts with the greeting, and no message in it is empty. */
    predicate Valid()
      reads this
    {
      |messages| >= 1 && messages[0] == Greeting &&
      forall k :: 0 <= k < |messages| ==> messages[k].content != ""
    }

    constructor ()
      ensures Valid()
      ensures messages == [Greeting] && inputMessage == "" && !isLoading && error == ""
    {
      messages := [Greeting];
      inputMessage := "";
      isLoading := false;
      error := "";
    }

    /** The input box's `onChange`. */
    method SetInput(value: string)
      modifies this
      ensures inputMessage == value
      ensures messages == old(messages) && isLoading == old(isLoading) && error == old(error)
    {
      inputMessage := value;
    }

    /**
     * `handleSendMessage` up to the request: nothing happens for a blank input or while a
     * request runs; otherwise the trimmed input is appended as the user's message and sent,
     * the input is cleared, the error is cleared and the request is marked as running.
     */
    method BeginSend(now: int) returns (sent: Option<string>)
      requires Valid()
      modifies this
      ensures Valid()
      ensures Blank(old(inputMessage)) || old(isLoading) ==> sent.None?
      ensures sent.None? ==> Blank(old(inputMessage)) || old(isLoading)
      ensures sent.None? ==> messages == old(messages) && inputMessage == old(inputMessage) &&
                             isLoading == old(isLoading) && error == old(error)
      ensures sent.Some? ==> sent.value == Trim(old(inputMessage)) &&
                             messages == old(messages) + [Message(now, User, sent.value)] &&
                             inputMessage == "" && isLoading && error == ""
    {
      var text := Trim(inputMessage);
      if text == "" || isLoading {
        return None;
      }
      assert !Blank(inputMessage);
      var before := messages;
      messages := before + [Message(now, User, text)];
      assert messages[|before|].content == text;
      inputMessage := "";
      isLoading := true;
      error := "";
      sent := Some(text);
    }

    /**
     * `handleSendMessage` after the request: exactly one answer from the assistant is appended,
     * a failure also sets the error, and in every case the request is over.
     */
    method FinishSend(now: int, reply: ApiResult<string>)
      requires Valid()
      modifies this
      ensures Valid()
      ensures messages == old(messages) + [Message(now + 1, Ai, ReplyText(reply))]
      ensures error == if reply.Failure? then ChatError else old(error)
      ensures !isLoading && inputMessage == old(inputMessage)
    {
      if reply.Failure? {
        error := ChatError;
      }
      messages := messages + [Message(now + 1, Ai, ReplyText(reply))];
      isLoading := false;
    }

    /** `clearChat`: the log is the greeting alone again and the error is cleared. */
    method ClearChat()
      modifies this
      ensures Valid()
      ensures messages == [Greeting] && error == ""
      ensures inputMessage == old(inputMessage) && isLoading == old(isLoading)
    {
      messages := [Greeting];
      error := "";
    }
  }
}
