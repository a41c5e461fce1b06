/** The conversation aggregate (internal/session/session.go), its messages seen as values. */
module Session {
  import opened Base
  import opened Llm
  import opened Window
  import PromptBuilder

  class Session {
    const id: string
    var messages: seq<Message>

    constructor (id: string)
      ensures this.id == id && messages == []
    {
      this.id := id;
      messages := [];
    }

    method Append(message: Message)
      modifies this
      ensures messages == old(messages) + [message]
    {
      messages := messages + [message];
    }

    method Messages() returns (copy: seq<Message>)
      ensures copy == messages
    {
      copy := messages;
    }

    /** The newest complete turns: the same window that a prompt starts from. */
    method RecentTurns(limit: int) returns (recent: seq<Message>)
      ensures LongestWindow(messages, limit, recent)
    {
      if limit <= 0 {
        FullWindowIsLongest(messages, limit, []);
        return [];
      }
      var starts := PromptBuilder.TurnStartPositions(messages);
      if |starts| == 0 {
        PromptBuilder.NoTurns(messages, starts, limit);
        return [];
      }
      var startIndex := 0;
      if |starts| > limit {
        startIndex := |starts| - limit;
      }
      PromptBuilder.StartWindow(messages, starts, limit, startIndex);
      return messages[starts[startIndex]..];
    }
  }
}
