/**
 * Step 1 of the wizard (`IdeaRefiner`): a chat in which each submitted idea is sent to the
 * AI gateway; the reply becomes the refined description of the workflow.
 */
module IdeaRefinerStep {
  import opened Wrappers
  import opened Text
  import opened ApiTypes
  import opened Api
  import opened Workflow
  import opened Records
  import opened LocalStorage
  import opened Dashboard

  const Apology := "Sorry, I encountered an error. Please check your API configuration and try again."

  /** The conversation holds user and assistant messages only. */
  predicate Conversation(ms: seq<Message>) {
    forall k :: 0 <= k < |ms| ==> ms[k].role != System
  }

  /** A conversation never opens with a system message, so the gateway always puts the persona in front of it. */
  lemma ConversationGetsPersona(ms: seq<Message>)
    requires Conversation(ms)
    ensures WithSystemPrompt(ms) == [Message(System, Persona)] + ms
  {
    if ms != [] {
      assert ms[0].role != System;
    }
  }

  /** The store after a successful exchange: two chat messages appended, then the workflow written. */
  function ExchangeWritten(items: map<string, Value>, writeError: Option<string>, m1: ChatMessage, m2: ChatMessage, w: WorkflowData): map<string, Value> {
    Written(Written(items, writeError, ChatKey, ChatList(HistoryIn(items) + [m1, m2])), writeError, WorkflowKey, WorkflowRecord(w))
  }

  /** Two chat appends in a row leave the history extended by both messages, in order. */
  lemma TwoAppends(items: map<string, Value>, writeError: Option<string>, m1: ChatMessage, m2: ChatMessage)
    ensures var once := Written(items, writeError, ChatKey, ChatList(HistoryIn(items) + [m1]));
            Written(once, writeError, ChatKey, ChatList(HistoryIn(once) + [m2]))
              == Written(items, writeError, ChatKey, ChatList(HistoryIn(items) + [m1, m2]))
  {
    if writeError.None? {
      var once := items[ChatKey := ChatList(HistoryIn(items) + [m1])];
      assert Lookup(once, ChatKey) == Some(ChatList(HistoryIn(items) + [m1]));
      assert HistoryIn(once) == HistoryIn(items) + [m1];
      assert HistoryIn(once) + [m2] == HistoryIn(items) + [m1, m2];
    }
  }

  class IdeaRefiner {
    const wizard: Wizard
    var idea: string
    var messages: seq<Message>
    var isLoading: bool
    var isRefined: bool

    ghost predicate Valid()
      reads this, wizard
    {
      wizard.Valid() && Conversation(messages)
    }

    /** Mounting: the input shows the workflow's idea; no conversation yet and not refined. */
    constructor (wizard: Wizard)
      requires wizard.Valid()
      ensures Valid() && this.wizard == wizard
      ensures idea == wizard.data.originalIdea && messages == [] && !isLoading && !isRefined
    {
      this.wizard := wizard;
      idea := wizard.data.originalIdea;
      messages := [];
      isLoading := false;
      isRefined := false;
    }

    /** The guard of `handleSubmit`: an idea with a non-space character and no request pending. */
    function CanSubmit(): (r: bool)
      reads this
      ensures r <==> !AllSpace(idea) && !isLoading
    {
      TrimEmptyIff(idea);
      Trim(idea) != "" && !isLoading
    }

    /**
     * `handleSubmit`. The clock values stamp the two chat messages saved after a reply.
     * On a reply: the conversation grows by the user message and the reply, both are saved
     * to the chat history, and the workflow's idea and refined description are set. On a
     * failure: an apology is shown and nothing else changes. Either way the input is cleared.
     */
    method Submit(g: Gateway, userId: string, userTime: string, replyId: string, replyTime: string)
      requires Valid()
      modifies this, wizard`data, wizard.store
      ensures Valid() && wizard.store.writeError == old(wizard.store.writeError)
      ensures !old(CanSubmit()) ==>
        idea == old(idea) && messages == old(messages) && isLoading == old(isLoading) && isRefined == old(isRefined)
        && wizard.data == old(wizard.data) && wizard.store.items == old(wizard.store.items)
      ensures old(CanSubmit()) ==>
        var sent := old(messages) + [Message(User, old(idea))];
        var reply := SendMessage(g, sent);
        idea == "" && !isLoading
        && (reply.Success? ==>
              messages == sent + [Message(Assistant, reply.value)] && isRefined
              && wizard.data == Merge(old(wizard.data), Refined(old(idea), reply.value))
              && wizard.store.items == ExchangeWritten(old(wizard.store.items), wizard.store.writeError,
                   ChatMessage(userId, User, old(idea), userTime), ChatMessage(replyId, Assistant, reply.value, replyTime), wizard.data))
        && (reply.Failure? ==>
              messages == sent + [Message(Assistant, Apology)] && isRefined == old(isRefined)
              && wizard.data == old(wizard.data) && wizard.store.items == old(wizard.store.items))
    {
      if !CanSubmit() {
        return;
      }
      var userMessage := Message(User, idea);
      var newMessages := messages + [userMessage];
      assert Conversation(newMessages);
      messages := newMessages;
      idea := "";
      isLoading := true;
      var response := SendMessage(g, newMessages);
      if response.Success? {
        Replied(newMessages, response.value, userId, userTime, replyId, replyTime);
      } else {
        Failed(newMessages);
      }
      isLoading := false;
    }

    /** The `try` block after a reply: show it, save both messages, record the idea and the reply in the workflow. */
    method Replied(sent: seq<Message>, reply: string, userId: string, userTime: string, replyId: string, replyTime: string)
      requires Valid() && Conversation(sent) && |sent| > 0 && sent[|sent| - 1].role == User
      modifies this`messages, this`isRefined, wizard`data, wizard.store
      ensures Valid() && wizard.store.writeError == old(wizard.store.writeError)
      ensures messages == sent + [Message(Assistant, reply)] && isRefined
      ensures wizard.data == Merge(old(wizard.data), Refined(sent[|sent| - 1].content, reply))
      ensures wizard.store.items == ExchangeWritten(old(wizard.store.items), wizard.store.writeError,
                ChatMessage(userId, User, sent[|sent| - 1].content, userTime), ChatMessage(replyId, Assistant, reply, replyTime), wizard.data)
    {
      var userMessage := sent[|sent| - 1];
      var assistantMessage := Message(Assistant, reply);
      messages := sent + [assistantMessage];
      assert Conversation(messages);
      wizard.store.AddMessage(User, userMessage.content, userId, userTime);
      wizard.store.AddMessage(Assistant, assistantMessage.content, replyId, replyTime);
      TwoAppends(old(wizard.store.items), wizard.store.writeError,
        ChatMessage(userId, User, userMessage.content, userTime), ChatMessage(replyId, Assistant, reply, replyTime));
      wizard.UpdateWorkflowData(Refined(userMessage.content, assistantMessage.content));
      isRefined := true;
    }

    /** The `catch` block: an apology closes the exchange; the workflow and the store are left alone. */
    method Failed(sent: seq<Message>)
      requires Valid() && Conversation(sent)
      modifies this`messages
      ensures Valid() && messages == sent + [Message(Assistant, Apology)]
    {
      messages := sent + [Message(Assistant, Apology)];
      assert Conversation(messages);
    }

    /** `handleNext`: on to the next step only once the idea has been refined here. */
    method HandleNext()
      requires Valid()
      modifies wizard`step
      ensures Valid()
      ensures wizard.step == if old(isRefined) then NextStep(old(wizard.step)) else old(wizard.step)
    {
      if isRefined && wizard.CanGoNext() {
        wizard.Next();
      }
    }
  }
}
