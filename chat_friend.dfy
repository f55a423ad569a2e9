/** The chat page (src/pages/ChatFriend.tsx): a log of messages that opens
    with a welcome from the bot; sending appends the user's message and starts
    a timer that later appends one canned reply; a typing indicator; a Send
    button, the Enter key and three quick prompts that fill the input. */
module ChatFriend {
  import opened Common
  import opened Text

  datatype Sender = User | Bot

  /** A chat message: its id, its text and who sent it (the time stamp, only
      shown, is left aside). */
  datatype Message = Message(id: int, text: string, sender: Sender)

  const WelcomeText := "Hi there! I'm here to help and support you, not to judge you. 💙 You can share anything that's on your mind - your feelings, worries, or just chat about your day. This is your safe space, and I'm here to listen. What would you like to talk about?"
  const Welcome := Message(1, WelcomeText, Bot)

  const FriendlyResponses: seq<string> := [
    "Hey, that sounds really tough. I'm here for you and I want you to know that what you're feeling is totally normal. Want to tell me more about it?",
    "Wow, thank you for trusting me with that. It takes a lot of courage to share something personal. How are you feeling right now?",
    "I can really hear the stress in what you're saying. That must be weighing on you a lot. Have you been able to talk to anyone else about this?",
    "You know what? It's completely okay to feel overwhelmed sometimes. Everyone goes through rough patches. What's been the hardest part for you?",
    "I'm really glad you felt comfortable sharing that with me. You're not alone in this, okay? What would help you feel a little better right now?",
    "That sounds like a lot to handle. I'm here to listen, no judgment at all. Sometimes just talking about it can help. How long have you been dealing with this?",
    "I hear you, and I want you to know that your feelings are valid. It's okay to have bad days. What usually helps you when you're feeling like this?",
    "Thanks for opening up to me. That must have been hard to say. I'm here to support you through this. What's one small thing that might make today a bit easier?",
    "I can tell this is really affecting you. You're being so brave by talking about it. Is there anything specific that's been making it worse lately?",
    "I'm here to listen to whatever you need to share. No pressure at all. Sometimes it just helps to know someone cares, right? What's been on your mind?",
    "That sounds really challenging. I'm proud of you for reaching out. What's been the most difficult part about all of this?",
    "I can sense you're going through a lot right now. Want to tell me more about what's been happening? I'm here to listen, not judge."
  ]

  const QuickPrompts: seq<string> := [
    "I'm feeling stressed about school",
    "I'm having trouble with my friends",
    "I'm feeling anxious lately"
  ]

  const EnterKey := "Enter"

  /** Message ids are positions in the log, counted from one. */
  ghost predicate IdsArePositions(messages: seq<Message>)
  {
    forall k :: 0 <= k < |messages| ==> messages[k].id == k + 1
  }

  class ChatPage {
    var messages: seq<Message>
    var inputMessage: string
    var isTyping: bool
    /** The ids the reply timers started by `sendMessage` will give their
        replies, for the timers that have not fired yet. */
    var pendingReplies: seq<int>

    /** The log always opens with the bot's message with id 1. Which message
        that is follows from the constructor, since every handler keeps the log
        as a prefix of the new one. */
    ghost predicate Valid()
      reads this
    {
      |messages| > 0 && messages[0].id == 1 && messages[0].sender == Bot
    }

    /** The orderly course of a chat: ids are log positions, the indicator is
        on exactly while a reply is due, and that reply is the only one due and
        will take the next position. */
    ghost predicate Orderly()
      reads this
    {
      && IdsArePositions(messages)
      && (isTyping <==> pendingReplies != [])
      && (isTyping ==> pendingReplies == [|messages| + 1])
    }

    constructor ()
      ensures Valid() && Orderly()
      ensures messages == [Welcome] && inputMessage == "" && !isTyping && pendingReplies == []
    {
      messages := [Welcome];
      inputMessage := "";
      isTyping := false;
      pendingReplies := [];
    }

    /** The Send button is enabled when the input has a character other than
        white space and no reply is being typed. */
    function SendEnabled(): (enabled: bool)
      reads this
      ensures enabled <==> !isTyping && exists i :: 0 <= i < |inputMessage| && !IsWhite(inputMessage[i])
    {
      !IsBlank(inputMessage) && !isTyping
    }

    /** `sendMessage`: blank input changes nothing; otherwise the input, as
        typed, is appended as the user's message with id one more than the log's
        length, the input is cleared, the indicator goes on, and a reply with the
        id after that is scheduled. The log only grows. */
    method SendMessage()
      requires Valid()
      modifies this
      ensures Valid()
      ensures |old(messages)| <= |messages| && messages[..|old(messages)|] == old(messages)
      ensures IsBlank(old(inputMessage)) ==>
        && messages == old(messages) && inputMessage == old(inputMessage)
        && isTyping == old(isTyping) && pendingReplies == old(pendingReplies)
      ensures !IsBlank(old(inputMessage)) ==>
        && messages == old(messages) + [Message(|old(messages)| + 1, old(inputMessage), User)]
        && inputMessage == "" && isTyping
        && pendingReplies == old(pendingReplies) + [|old(messages)| + 2]
      ensures old(Orderly()) && !old(isTyping) ==> Orderly()
    {
      if IsBlank(inputMessage) {
        return;
      }
      var count := |messages|;
      messages := messages + [Message(count + 1, inputMessage, User)];
      inputMessage := "";
      isTyping := true;
      pendingReplies := pendingReplies + [count + 2];
    }

    /** A click on the Send button, which only an enabled button receives. */
    method ClickSend()
      requires Valid() && SendEnabled()
      modifies this
      ensures Valid()
      ensures messages == old(messages) + [Message(|old(messages)| + 1, old(inputMessage), User)]
      ensures inputMessage == "" && isTyping && pendingReplies == old(pendingReplies) + [|old(messages)| + 2]
      ensures old(Orderly()) ==> Orderly()
    {
      SendMessage();
    }

    /** `handleKeyPress` as written: Enter sends whether or not a reply is
        still being typed. */
    method HandleKeyPressAsWritten(key: string)
      requires Valid()
      modifies this
      ensures Valid()
      ensures |old(messages)| <= |messages| && messages[..|old(messages)|] == old(messages)
      ensures key == EnterKey && !IsBlank(old(inputMessage)) ==>
        && messages == old(messages) + [Message(|old(messages)| + 1, old(inputMessage), User)]
        && inputMessage == "" && isTyping && pendingReplies == old(pendingReplies) + [|old(messages)| + 2]
      ensures key != EnterKey || IsBlank(old(inputMessage)) ==>
        && messages == old(messages) && inputMessage == old(inputMessage)
        && isTyping == old(isTyping) && pendingReplies == old(pendingReplies)
    {
      if key == EnterKey {
        SendMessage();
      }
    }

    /** `handleKeyPress` as intended: Enter does what a click on Send does, so it
        too is ignored while a reply is being typed, and the chat stays orderly. */
    method HandleKeyPress(key: string)
      requires Valid()
      modifies this
      ensures Valid()
      ensures |old(messages)| <= |messages| && messages[..|old(messages)|] == old(messages)
      ensures key == EnterKey && !old(isTyping) && !IsBlank(old(inputMessage)) ==>
        && messages == old(messages) + [Message(|old(messages)| + 1, old(inputMessage), User)]
        && inputMessage == "" && isTyping && pendingReplies == old(pendingReplies) + [|old(messages)| + 2]
      ensures !(key == EnterKey && !old(isTyping) && !IsBlank(old(inputMessage))) ==>
        && messages == old(messages) && inputMessage == old(inputMessage)
        && isTyping == old(isTyping) && pendingReplies == old(pendingReplies)
      ensures old(Orderly()) ==> Orderly()
    {
      if key == EnterKey && !isTyping {
        SendMessage();
      }
    }

    /** The reply timer scheduled `k`-th among those still pending fires, with
        `pick` as the random draw: the bot's canned response is appended with the
        id fixed when the timer was set, and the indicator goes off. */
    method DeliverReply(k: nat, pick: nat)
      requires Valid() && k < |pendingReplies| && pick < |FriendlyResponses|
      modifies this
      ensures Valid()
      ensures messages == old(messages) + [Message(old(pendingReplies)[k], FriendlyResponses[pick], Bot)]
      ensures !isTyping && inputMessage == old(inputMessage)
      ensures pendingReplies == old(pendingReplies)[..k] + old(pendingReplies)[k + 1..]
      ensures old(Orderly()) ==> Orderly()
    {
      messages := messages + [Message(pendingReplies[k], FriendlyResponses[pick], Bot)];
      isTyping := false;
      pendingReplies := pendingReplies[..k] + pendingReplies[k + 1..];
    }

    /** Typing in the input. */
    method SetInput(text: string)
      requires Valid()
      modifies this
      ensures Valid() && inputMessage == text
      ensures messages == old(messages) && isTyping == old(isTyping) && pendingReplies == old(pendingReplies)
      ensures old(Orderly()) ==> Orderly()
    {
      inputMessage := text;
    }

    /** A quick-support button fills the input with its sentence; nothing is sent. */
    method UseQuickPrompt(i: nat)
      requires Valid() && i < |QuickPrompts|
      modifies this
      ensures Valid() && inputMessage == QuickPrompts[i]
      ensures messages == old(messages) && isTyping == old(isTyping) && pendingReplies == old(pendingReplies)
      ensures old(Orderly()) ==> Orderly()
    {
      inputMessage := QuickPrompts[i];
    }

    /** The React keys of the rendered log (`key={message.id}`), in order. In
        an orderly chat they are 1, 2, 3, ..., so no two messages share a key. */
    function Ids(): (ids: seq<int>)
      reads this
      ensures |ids| == |messages| && forall k :: 0 <= k < |ids| ==> ids[k] == messages[k].id
      ensures Orderly() ==> forall k :: 0 <= k < |ids| ==> ids[k] == k + 1
      ensures Orderly() ==> forall i, j :: 0 <= i < j < |ids| ==> ids[i] != ids[j]
    {
      seq(|messages|, k requires 0 <= k < |messages| reads this => messages[k].id)
    }
  }

  /** Typing `text`, which starts with a character other than white space,
      and pressing Enter on the page as written sends it. */
  method TypeAndEnterAsWritten(chat: ChatPage, text: string)
    requires chat.Valid() && |text| > 0 && !IsWhite(text[0])
    modifies chat
    ensures chat.Valid()
    ensures chat.messages == old(chat.messages) + [Message(|old(chat.messages)| + 1, text, User)]
    ensures chat.pendingReplies == old(chat.pendingReplies) + [|old(chat.messages)| + 2]
  {
    NotBlank(text);
    chat.SetInput(text);
    chat.HandleKeyPressAsWritten(EnterKey);
  }

  /** The same with Enter guarded like the Send button, while no reply is
      being typed: `text` is sent and the chat stays orderly. */
  method TypeAndEnter(chat: ChatPage, text: string)
    requires chat.Valid() && chat.Orderly() && !chat.isTyping && |text| > 0 && !IsWhite(text[0])
    modifies chat
    ensures chat.Valid() && chat.Orderly() && chat.isTyping
    ensures chat.messages == old(chat.messages) + [Message(|old(chat.messages)| + 1, text, User)]
    ensures chat.pendingReplies == [|old(chat.messages)| + 2]
  {
    NotBlank(text);
    chat.SetInput(text);
    chat.HandleKeyPress(EnterKey);
  }

  /** "hello", Enter, "are you there?", Enter, all before the first reply
      arrives, on the page as written: the second message takes id 3, the id
      the first pending reply was promised. */
  method SendTwiceAsWritten() returns (chat: ChatPage)
    ensures fresh(chat) && chat.Valid()
    ensures |chat.messages| == 3 && chat.messages[1].id == 2
    ensures chat.messages[2] == Message(3, "are you there?", User)
    ensures chat.pendingReplies == [3, 4]
  {
    chat := new ChatPage();
    TypeAndEnterAsWritten(chat, "hello");
    TypeAndEnterAsWritten(chat, "are you there?");
  }

  /** Once both replies of `SendTwiceAsWritten` are in, the log's keys are
      1, 2, 3, 3, 4: a user message and a reply share key 3. */
  method EnterWhileTypingAsWritten(pick1: nat, pick2: nat) returns (log: seq<Message>, keys: seq<int>)
    requires pick1 < |FriendlyResponses| && pick2 < |FriendlyResponses|
    ensures |log| == 5
    ensures log[2] == Message(3, "are you there?", User) && log[3] == Message(3, FriendlyResponses[pick1], Bot)
    ensures keys == [1, 2, 3, 3, 4]
  {
    var chat := SendTwiceAsWritten();
    chat.DeliverReply(0, pick1);
    chat.DeliverReply(0, pick2);
    log := chat.messages;
    keys := chat.Ids();
  }

  /** The same keystrokes with Enter guarded like the Send button: the second
      Enter is ignored while the reply is typed and its text stays in the input. */
  method SendTwice() returns (chat: ChatPage)
    ensures fresh(chat) && chat.Valid() && chat.Orderly()
    ensures |chat.messages| == 2 && chat.messages[1] == Message(2, "hello", User)
    ensures chat.pendingReplies == [3] && chat.inputMessage == "are you there?"
  {
    chat := new ChatPage();
    TypeAndEnter(chat, "hello");
    chat.SetInput("are you there?");
    chat.HandleKeyPress(EnterKey);
  }

  /** The reply then takes the id it was promised, so the keys stay 1, 2, 3. */
  method EnterWhileTyping(pick: nat) returns (log: seq<Message>, keys: seq<int>, input: string)
    requires pick < |FriendlyResponses|
    ensures |log| == 3 && keys == [1, 2, 3]
    ensures log[1] == Message(2, "hello", User) && log[2] == Message(3, FriendlyResponses[pick], Bot)
    ensures input == "are you there?"
  {
    var chat := SendTwice();
    chat.DeliverReply(0, pick);
    log := chat.messages;
    keys := chat.Ids();
    input := chat.inputMessage;
  }
}
