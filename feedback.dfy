/**
 * The feedback recorder (`ChatComponent.handleFeedback`): the signal is
 * written onto one entry of the chat log, then posted, together with that
 * entry's interaction id, in a request whose result is only logged.
 */
module Feedback {
  import opened Wrappers
  import opened Messages

  /** The body of the POST to the feedback endpoint. */
  datatype FeedbackPost = FeedbackPost(interactionId: Option<string>, feedback: string)

  /** How the POST ends; the handler's `.then`/`.catch` only log it. */
  datatype PostOutcome = Delivered | Rejected

  /** The log with `feedback` written onto entry `index`. */
  function WithFeedback(log: seq<Message>, index: nat, feedback: string): (r: seq<Message>)
    requires index < |log|
    ensures |r| == |log|
    ensures r[index].feedback == Some(feedback)
    ensures r[index].sender == log[index].sender && r[index].text == log[index].text
    ensures r[index].buttons == log[index].buttons && r[index].interactionId == log[index].interactionId
    ensures forall j | 0 <= j < |log| && j != index :: r[j] == log[j]
  {
    log[index := log[index].(feedback := Some(feedback))]
  }

  /** Recording the same signal twice leaves the log as recording it once. */
  lemma WithFeedbackIdempotent(log: seq<Message>, index: nat, feedback: string)
    requires index < |log|
    ensures WithFeedback(WithFeedback(log, index, feedback), index, feedback) == WithFeedback(log, index, feedback)
  {
  }

  /** A later signal on the same entry replaces an earlier one. */
  lemma WithFeedbackLastWins(log: seq<Message>, index: nat, first: string, second: string)
    requires index < |log|
    ensures WithFeedback(WithFeedback(log, index, first), index, second) == WithFeedback(log, index, second)
  {
  }

  /** Signals on different entries do not interfere. */
  lemma WithFeedbackCommutes(log: seq<Message>, i: nat, j: nat, a: string, b: string)
    requires i < |log| && j < |log| && i != j
    ensures WithFeedback(WithFeedback(log, i, a), j, b) == WithFeedback(WithFeedback(log, j, b), i, a)
  {
  }

  /** The component holding the chat log. */
  class ChatComponent {
    var chatLog: seq<Message>

    /** `useState([])` */
    constructor ()
      ensures chatLog == []
    {
      chatLog := [];
    }

    /** `handleFeedback(feedback, index)`. When `index` addresses no entry,
        `newChatLog[index].feedback` throws: nothing is written or posted
        (`post` is None). Otherwise the signal is written, then posted with
        the entry's interaction id; the log does not depend on how the POST
        ends. */
    method HandleFeedback(feedback: string, index: int, outcome: PostOutcome) returns (post: Option<FeedbackPost>)
      modifies this
      ensures !(0 <= index < |old(chatLog)|) ==> chatLog == old(chatLog) && post == None
      ensures 0 <= index < |old(chatLog)| ==>
        chatLog == WithFeedback(old(chatLog), index, feedback) &&
        post == Some(FeedbackPost(old(chatLog)[index].interactionId, feedback))
    {
      if !(0 <= index < |chatLog|) {
        return None;
      }
      var newChatLog := chatLog;
      newChatLog := newChatLog[index := newChatLog[index].(feedback := Some(feedback))];
      chatLog := newChatLog;
      var interactionId := newChatLog[index].interactionId;
      post := Some(FeedbackPost(interactionId, feedback));
      // The request goes out here; `outcome` reaches only the logging
      // callbacks, so no clause above depends on it.
    }
  }
}
