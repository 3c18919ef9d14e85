/**
 * The conversation store (agent/context_manager.go): the ordered list of
 * messages sent to the model on every call, and the flag that says whether
 * messages were added since the model last saw them.
 */
module Conversation {
  import opened Json

  datatype Role = User | Assistant

  /** A model's request to run a tool: its call identifier, the tool's name and the raw input. */
  datatype ToolUse = ToolUse(id: string, name: string, input: RawMessage)

  /** A block of message content. `OtherBlock` stands for every block kind the loop ignores. */
  datatype ContentBlock =
    | TextBlock(text: string)
    | ToolUseBlock(use: ToolUse)
    | ToolResultBlock(toolUseId: string, content: string, isError: bool)
    | OtherBlock(kind: string)

  datatype Message = Message(role: Role, content: seq<ContentBlock>)

  /** The message `AppendUserMessage` stores: a user turn holding one text block. */
  function UserText(text: string): Message
  {
    Message(User, [TextBlock(text)])
  }

  class ContextManager {
    const fileLocation: string
    const contextWindow: int
    var messages: seq<Message>
    var hasNewMessages: bool

    /** `CreateContextManager`, in memory: no messages and nothing new. */
    constructor (contextWindow: int, fileLocation: string)
      ensures messages == [] && !hasNewMessages
      ensures this.contextWindow == contextWindow && this.fileLocation == fileLocation
    {
      this.fileLocation := fileLocation;
      this.contextWindow := contextWindow;
      messages := [];
      hasNewMessages := false;
    }

    /** Adds one message at the end. Saving to the file cannot make it fail. */
    method Append(message: Message)
      modifies this`messages
      ensures messages == old(messages) + [message]
    {
      messages := messages + [message];
    }

    method AppendUserMessage(message: string)
      modifies this
      ensures messages == old(messages) + [UserText(message)]
      ensures hasNewMessages
    {
      Append(UserText(message));
      hasNewMessages := true;
    }

    /** One user turn whose content is the results as given, even when there are none. */
    method AppendToolResults(toolResults: seq<ContentBlock>)
      modifies this
      ensures messages == old(messages) + [Message(User, toolResults)]
      ensures hasNewMessages
    {
      Append(Message(User, toolResults));
      hasNewMessages := true;
    }

    /** Stores the model's own reply; this does not ask for another model call. */
    method AppendAssistantMessage(message: Message)
      modifies this
      ensures messages == old(messages) + [message]
      ensures hasNewMessages == old(hasNewMessages)
    {
      Append(message);
    }

    /** Stores a reply and asks for another model call. */
    method AppendAssistantMessageAck(message: Message)
      modifies this
      ensures messages == old(messages) + [message]
      ensures hasNewMessages
    {
      Append(message);
      hasNewMessages := true;
    }

    method GetMessages() returns (ms: seq<Message>)
      ensures ms == messages
    {
      ms := messages;
    }

    method HasNewMessages() returns (b: bool)
      ensures b == hasNewMessages
    {
      b := hasNewMessages;
    }

    method ClearNewMessages()
      modifies this
      ensures !hasNewMessages
      ensures messages == old(messages)
    {
      hasNewMessages := false;
    }

    /** The most recent message; the list must not be empty. */
    method GetLastMessage() returns (m: Message)
      requires messages != []
      ensures m == messages[|messages| - 1]
    {
      m := messages[|messages| - 1];
    }
  }

  /**
   * Appends are kept in order with nothing lost, only user and tool-result
   * turns raise the flag, and clearing it twice is the same as once.
   */
  method StoreScenario(first: string, reply: Message, results: seq<ContentBlock>)
    returns (cm: ContextManager)
    ensures fresh(cm)
    ensures cm.messages == [UserText(first), reply, Message(User, results)]
    ensures !cm.hasNewMessages
  {
    cm := new ContextManager(4000, "messages.json");
    var pending := cm.HasNewMessages();
    assert !pending;
    cm.AppendUserMessage(first);
    cm.ClearNewMessages();
    cm.AppendAssistantMessage(reply);
    pending := cm.HasNewMessages();
    assert !pending;
    cm.AppendToolResults(results);
    var last := cm.GetLastMessage();
    assert last == Message(User, results);
    cm.ClearNewMessages();
    cm.ClearNewMessages();
  }
}
