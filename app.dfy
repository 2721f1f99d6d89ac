/** The renderer's controller (src/renderer/index.ts): the handlers that turn a user action
    into chat messages and a backend request, and `saveConversation`, which files the log
    under a conversation id that stays fixed once chosen. Backend replies, the file picker,
    `Date.now()` and `Math.random()` are parameters. */
module App {
  import opened Wrappers
  import opened Types
  import Constants
  import Chat
  import Storage

  const SendFailedText := "Sorry, I encountered an error. Please try again."
  const ScreenshotRequestText := "Take a screenshot of the current screen"
  const ScreenshotFailedText := "Failed to capture screenshot. Please try again."
  const AudioFailedText := "Failed to process audio. Please try again."
  const FileFailedText := "Failed to process files. Please try again."

  /** The most a title keeps of the first message. */
  const TitleLength := 50

  /** A `Date.now()` reading and the base-36 digits `Math.random()` contributed. */
  datatype Stamp = Stamp(now: nat, random: string)

  /** The stamps one handler consumes: for the message it adds first, for the reply, and for
      the save that follows. */
  datatype Stamps = Stamps(request: Stamp, reply: Stamp, save: Stamp)

  /** `generateId`: `msg_<now>_<random>`; never empty. */
  function GenerateId(s: Stamp): (id: string)
    ensures |id| >= 6 && id[..4] == "msg_"
  {
    "msg_" + DecimalString(s.now) + "_" + s.random
  }

  /** A message as the handlers build it. */
  function Stamped(role: Role, content: string, s: Stamp): Message {
    Message(role, content, Some(s.now), Some(GenerateId(s)))
  }

  /** The conversation title: the first 50 characters of `content`, marked with `...` exactly
      when something was cut off. */
  function Title(content: string): (t: string)
    ensures |content| <= TitleLength ==> t == content
    ensures |content| > TitleLength ==> |t| == TitleLength + 3 && t[..TitleLength] == content[..TitleLength] && t[TitleLength..] == "..."
  {
    if |content| > TitleLength then content[..TitleLength] + "..." else content
  }

  /** Titles differ only where the first 50 characters differ or one is cut and the other not. */
  lemma TitlesOfLongTexts(a: string, b: string)
    requires |a| > TitleLength && |b| > TitleLength
    ensures Title(a) == Title(b) <==> a[..TitleLength] == b[..TitleLength]
  {
    if Title(a) == Title(b) {
      assert a[..TitleLength] == Title(a)[..TitleLength];
    }
  }

  /** The id `saveConversation` uses: the current one, unless there is none (or it is the
      falsy empty string), in which case a fresh one. */
  function ConversationId(current: Option<string>, s: Stamp): (id: string)
    ensures id != ""
    ensures current.Some? && current.value != "" ==> id == current.value
  {
    if current.Some? && current.value != "" then current.value else GenerateId(s)
  }

  /** The conversation `saveConversation` stores for a non-empty log. */
  function Saved(current: Option<string>, messages: seq<Message>, s: Stamp): (c: Conversation)
    requires messages != []
    ensures c.messages == messages && c.title == Title(messages[0].content)
    ensures c.id == ConversationId(current, s)
    ensures c.createdAt == s.now && c.updatedAt == s.now
  {
    Conversation(ConversationId(current, s), Title(messages[0].content), messages, s.now, s.now)
  }

  /** The storage slots after saving `messages`. */
  function SavedItems(items: map<string, Storage.Item>, current: Option<string>, messages: seq<Message>, s: Stamp): map<string, Storage.Item>
    requires messages != []
  {
    items[Constants.ConversationsKey := Storage.ConversationsJson(Storage.Upsert(Storage.ConversationsOf(items), Saved(current, messages, s)))]
  }

  /** Once a conversation is saved, later saves keep its id, so they update the same stored
      entry: the list does not grow, and the id finds the latest log. */
  lemma {:induction false} RepeatedSavesUpdateOneEntry(conversations: seq<Conversation>, current: Option<string>,
                                                     first: seq<Message>, later: seq<Message>, s1: Stamp, s2: Stamp)
    requires first != [] && later != []
    ensures var c1 := Saved(current, first, s1);
      var c2 := Saved(Some(c1.id), later, s2);
      && c2.id == c1.id
      && |Storage.Upsert(Storage.Upsert(conversations, c1), c2)| == |Storage.Upsert(conversations, c1)|
      && Storage.First(Storage.Upsert(Storage.Upsert(conversations, c1), c2), c1.id) == Some(c2)
  {
    var c1 := Saved(current, first, s1);
    var c2 := Saved(Some(c1.id), later, s2);
    var once := Storage.Upsert(conversations, c1);
    assert c1 in once;
    Storage.UpsertThenFirst(once, c2, c2.id);
  }

  /** As written, both arms of the `createdAt` conditional read the clock, so a later save of
      the same conversation replaces the creation time it was first stored with. */
  lemma RepeatedSavesResetCreatedAt(conversations: seq<Conversation>, current: Option<string>,
                                    first: seq<Message>, later: seq<Message>, s1: Stamp, s2: Stamp)
    requires first != [] && later != [] && s1.now != s2.now
    ensures var c1 := Saved(current, first, s1);
      var stored := Storage.First(Storage.Upsert(Storage.Upsert(conversations, c1), Saved(Some(c1.id), later, s2)), c1.id);
      && stored.Some?
      && stored.value.createdAt == s2.now
      && stored.value.createdAt != c1.createdAt
  {
    RepeatedSavesUpdateOneEntry(conversations, current, first, later, s1, s2);
  }

  /** The conversation `saveConversation` evidently means to store: as `Saved`, except that a
      conversation already stored under the id keeps its creation time. */
  function SavedKeepingCreatedAt(conversations: seq<Conversation>, current: Option<string>, messages: seq<Message>, s: Stamp): (c: Conversation)
    requires messages != []
    ensures c.messages == messages && c.title == Title(messages[0].content)
    ensures c.id == ConversationId(current, s) && c.updatedAt == s.now
    ensures Storage.First(conversations, c.id).Some? ==> c.createdAt == Storage.First(conversations, c.id).value.createdAt
    ensures Storage.First(conversations, c.id).None? ==> c.createdAt == s.now
  {
    var id := ConversationId(current, s);
    var createdAt := match Storage.First(conversations, id)
      case Some(previous) => previous.createdAt
      case None => s.now;
    Conversation(id, Title(messages[0].content), messages, createdAt, s.now)
  }

  /** With the correction, a later save updates the same entry, refreshes `updatedAt`, and
      keeps the creation time of the first save. */
  lemma RepeatedCorrectedSavesKeepCreatedAt(conversations: seq<Conversation>, current: Option<string>,
                                            first: seq<Message>, later: seq<Message>, s1: Stamp, s2: Stamp)
    requires first != [] && later != []
    ensures var c1 := SavedKeepingCreatedAt(conversations, current, first, s1);
      var once := Storage.Upsert(conversations, c1);
      var c2 := SavedKeepingCreatedAt(once, Some(c1.id), later, s2);
      && c2.id == c1.id
      && |Storage.Upsert(once, c2)| == |once|
      && Storage.First(Storage.Upsert(once, c2), c1.id) == Some(c2)
      && c2.createdAt == c1.createdAt && c2.updatedAt == s2.now
  {
    var c1 := SavedKeepingCreatedAt(conversations, current, first, s1);
    var once := Storage.Upsert(conversations, c1);
    Storage.UpsertThenFirst(conversations, c1, c1.id);
    var c2 := SavedKeepingCreatedAt(once, Some(c1.id), later, s2);
    assert c1 in once;
    Storage.UpsertThenFirst(once, c2, c2.id);
  }

  class App {
    const chat: Chat.ChatComponent
    const store: Storage.StorageService
    var currentConversationId: Option<string>

    ghost predicate Valid()
      reads this, chat, store
    {
      chat.Valid() && store.Valid()
    }

    constructor (store: Storage.StorageService)
      requires store.Valid()
      ensures Valid() && fresh(chat) && this.store == store
      ensures chat.messages == [] && !chat.loading && currentConversationId == None
    {
      chat := new Chat.ChatComponent();
      this.store := store;
      currentConversationId := None;
    }

    /** `saveConversation`: nothing for an empty log; otherwise upsert the log under the
        current id, which becomes the current id. */
    method SaveConversation(s: Stamp)
      requires Valid()
      modifies this, store
      ensures Valid()
      ensures chat.messages == [] ==> currentConversationId == old(currentConversationId) && unchanged(store)
      ensures chat.messages != [] ==>
        && currentConversationId == Some(ConversationId(old(currentConversationId), s))
        && store.items == SavedItems(old(store.items), old(currentConversationId), chat.messages, s)
        && store.keys == Storage.Touched(old(store.keys), Constants.ConversationsKey)
    {
      var messages := chat.GetMessages();
      if |messages| == 0 {
        return;
      }
      var conversation := Saved(currentConversationId, messages, s);
      currentConversationId := Some(conversation.id);
      store.SaveConversation(conversation);
    }

    /** `handleSendMessage`: add the user's message, send the whole log, add one reply (or
        the apology on a throw), save on success, stop loading. Returns the log that was sent. */
    method HandleSendMessage(message: Message, reply: Io<AIResponse>, s: Stamps) returns (sent: Option<seq<Message>>)
      requires Valid()
      modifies this, chat, store
      ensures Valid()
      ensures old(chat.loading) ==> sent == None && unchanged(this, chat, store)
      ensures !old(chat.loading) ==>
        var request := old(chat.messages) + [message];
        var answer := Stamped(Assistant, if reply.Done? then reply.value.text else SendFailedText, s.reply);
        && sent == Some(request)
        && chat.messages == request + [answer]
        && !chat.loading && chat.loaders == 0
        && (reply.Done? ==>
              && store.items == SavedItems(old(store.items), old(currentConversationId), chat.messages, s.save)
              && store.keys == Storage.Touched(old(store.keys), Constants.ConversationsKey)
              && currentConversationId == Some(ConversationId(old(currentConversationId), s.save)))
        && (reply.Threw? ==> unchanged(store) && currentConversationId == old(currentConversationId))
    {
      if chat.IsLoading() {
        return None;
      }
      chat.AddMessage(message);
      chat.ShowLoading();
      sent := Some(chat.GetMessages());
      if reply.Done? {
        chat.AddMessage(Stamped(Assistant, reply.value.text, s.reply));
        SaveConversation(s.save);
      } else {
        chat.AddMessage(Stamped(Assistant, SendFailedText, s.reply));
      }
      chat.HideLoading();
    }

    /** `handleScreenshot`: a fixed user request, then the capture's text (or the apology). */
    method HandleScreenshot(result: Io<CaptureResult>, s: Stamps)
      requires Valid()
      modifies this, chat, store
      ensures Valid()
      ensures old(chat.loading) ==> unchanged(this, chat, store)
      ensures !old(chat.loading) ==>
        var request := Stamped(User, ScreenshotRequestText, s.request);
        var answer := Stamped(Assistant, if result.Done? then result.value.text else ScreenshotFailedText, s.reply);
        && chat.messages == old(chat.messages) + [request, answer]
        && !chat.loading && chat.loaders == 0
        && (result.Done? ==>
              && store.items == SavedItems(old(store.items), old(currentConversationId), chat.messages, s.save)
              && store.keys == Storage.Touched(old(store.keys), Constants.ConversationsKey)
              && currentConversationId == Some(ConversationId(old(currentConversationId), s.save)))
        && (result.Threw? ==> unchanged(store) && currentConversationId == old(currentConversationId))
    {
      if chat.IsLoading() {
        return;
      }
      chat.AddMessage(Stamped(User, ScreenshotRequestText, s.request));
      chat.ShowLoading();
      if result.Done? {
        chat.AddMessage(Stamped(Assistant, result.value.text, s.reply));
        SaveConversation(s.save);
      } else {
        chat.AddMessage(Stamped(Assistant, ScreenshotFailedText, s.reply));
      }
      chat.HideLoading();
    }

    /** `handleAudioCaptured`: the transcription becomes a user message; a throw becomes an
        assistant apology. Exactly one message is added. */
    method HandleAudioCaptured(result: Io<CaptureResult>, s: Stamps)
      requires Valid()
      modifies this, chat, store
      ensures Valid()
      ensures old(chat.loading) ==> unchanged(this, chat, store)
      ensures !old(chat.loading) ==>
        var added := if result.Done? then Stamped(User, result.value.text, s.reply) else Stamped(Assistant, AudioFailedText, s.reply);
        && chat.messages == old(chat.messages) + [added]
        && !chat.loading && chat.loaders == 0
        && (result.Done? ==>
              && store.items == SavedItems(old(store.items), old(currentConversationId), chat.messages, s.save)
              && store.keys == Storage.Touched(old(store.keys), Constants.ConversationsKey)
              && currentConversationId == Some(ConversationId(old(currentConversationId), s.save)))
        && (result.Threw? ==> unchanged(store) && currentConversationId == old(currentConversationId))
    {
      if chat.IsLoading() {
        return;
      }
      chat.ShowLoading();
      if result.Done? {
        chat.AddMessage(Stamped(User, result.value.text, s.reply));
        SaveConversation(s.save);
      } else {
        chat.AddMessage(Stamped(Assistant, AudioFailedText, s.reply));
      }
      chat.HideLoading();
    }

    /** `handleFilePick`. `picked` is the picker's answer, awaited before the loading guard; a
        `null` answer returns at once. Returns the path sent for processing. */
    method HandleFilePick(picked: Option<string>, result: Io<FileResult>, s: Stamps) returns (processed: Option<string>)
      requires Valid()
      modifies this, chat, store
      ensures Valid()
      ensures picked.None? || old(chat.loading) ==> processed == None && unchanged(this, chat, store)
      ensures picked.Some? && !old(chat.loading) ==>
        var request := Stamped(User, "File: " + picked.value, s.request);
        var answer := Stamped(Assistant, if result.Done? then result.value.text else FileFailedText, s.reply);
        && processed == picked
        && chat.messages == old(chat.messages) + [request, answer]
        && !chat.loading && chat.loaders == 0
        && (result.Done? ==>
              && store.items == SavedItems(old(store.items), old(currentConversationId), chat.messages, s.save)
              && store.keys == Storage.Touched(old(store.keys), Constants.ConversationsKey)
              && currentConversationId == Some(ConversationId(old(currentConversationId), s.save)))
        && (result.Threw? ==> unchanged(store) && currentConversationId == old(currentConversationId))
    {
      if picked.None? {
        return None;
      }
      if chat.IsLoading() {
        return None;
      }
      chat.AddMessage(Stamped(User, "File: " + picked.value, s.request));
      chat.ShowLoading();
      processed := picked;
      if result.Done? {
        chat.AddMessage(Stamped(Assistant, result.value.text, s.reply));
        SaveConversation(s.save);
      } else {
        chat.AddMessage(Stamped(Assistant, FileFailedText, s.reply));
      }
      chat.HideLoading();
    }
  }
}
