/** The AI assistant chat: the welcome greeting, the reset on open, the send guard,
    the history sent to the model, accumulation of the streamed reply into one
    placeholder message, and the apology on error. The stream is a sequence of chunks. */
module ChatWidget {
  import opened Wrappers
  import opened Types
  import opened Seqs
  import Text

  datatype Sender = UserSender | AiSender

  datatype ChatMessage = ChatMessage(id: string, sender: Sender, content: string)

  datatype ChatState = ChatState(isOpen: bool, messages: seq<ChatMessage>, isLoading: bool, hasInteracted: bool)

  /** The role names of the model's chat history. */
  datatype HistoryRole = UserRole | ModelRole

  datatype Part = Part(text: string)

  /** `ChatHistoryPart` */
  datatype HistoryEntry = HistoryEntry(role: HistoryRole, parts: seq<Part>)

  const WelcomeId := "ai-welcome"
  const WelcomeTail := "! I'm Foggy, the FOG AI assistant. How can I help you today?"
  const Apology := "Sorry, I'm having trouble connecting right now. Please try again later."

  /** The name the greeting uses: the user's first space-separated word, or "there". */
  function GreetingName(user: Option<User>): (n: string)
    ensures user.None? ==> n == "there"
    ensures user.Some? ==> n <= user.value.name && ' ' !in n
    ensures user.Some? && |n| < |user.value.name| ==> user.value.name[|n|] == ' '
  {
    if user.Some? then Text.FirstWord(user.value.name) else "there"
  }

  /** `initialMessage` */
  function Welcome(user: Option<User>): (m: ChatMessage)
    ensures m.id == WelcomeId && m.sender == AiSender
    ensures m.content == "Hello " + GreetingName(user) + WelcomeTail
  {
    ChatMessage(WelcomeId, AiSender, "Hello " + GreetingName(user) + WelcomeTail)
  }

  /** The greeting addresses exactly the first name: reading the name back out of the
      welcome text gives it. */
  lemma WelcomeNameRecoverable(user: Option<User>)
    ensures var c := Welcome(user).content;
      |c| >= 6 + |WelcomeTail| && c[6..|c| - |WelcomeTail|] == GreetingName(user)
  {
    var c := Welcome(user).content;
    assert c == "Hello " + GreetingName(user) + WelcomeTail;
  }

  /** The effect that runs when the chat opens or the user changes while open: the
      transcript becomes the welcome message alone and no interaction has happened yet. */
  function OnOpen(s: ChatState, user: Option<User>): (r: ChatState)
    ensures s.isOpen ==> r.messages == [Welcome(user)] && !r.hasInteracted
    ensures !s.isOpen ==> r == s
    ensures r.isOpen == s.isOpen && r.isLoading == s.isLoading
  {
    if s.isOpen then s.(messages := [Welcome(user)], hasInteracted := false) else s
  }

  /** `!messageText.trim() || isLoading`: the send is ignored. */
  predicate SendIgnored(text: string, isLoading: bool) {
    Text.Trim(text) == "" || isLoading
  }

  function RoleOf(s: Sender): HistoryRole {
    if s == UserSender then UserRole else ModelRole
  }

  /** One history entry: the sender's role and the content as the single text part. */
  function EntryOf(m: ChatMessage): HistoryEntry {
    HistoryEntry(RoleOf(m.sender), [Part(m.content)])
  }

  /** The history handed to the model: every message except the welcome, in order. */
  function History(ms: seq<ChatMessage>): (h: seq<HistoryEntry>)
    ensures |h| <= |ms|
    ensures forall i :: 0 <= i < |h| ==> |h[i].parts| == 1
  {
    if ms == [] then []
    else (if ms[0].id == WelcomeId then [] else [EntryOf(ms[0])]) + History(ms[1..])
  }

  /** `History` is the filter-then-map of the source: drop the welcome, map each message. */
  lemma {:induction false} HistoryIsFilterMap(ms: seq<ChatMessage>)
    ensures var kept := Filter(ms, (m: ChatMessage) => m.id != WelcomeId);
      |History(ms)| == |kept| && forall i :: 0 <= i < |kept| ==> History(ms)[i] == EntryOf(kept[i])
    decreases |ms|
  {
    if ms != [] {
      var p := (m: ChatMessage) => m.id != WelcomeId;
      HistoryIsFilterMap(ms[1..]);
      var rest := Filter(ms[1..], p);
      var head := if ms[0].id == WelcomeId then [] else [EntryOf(ms[0])];
      assert History(ms) == head + History(ms[1..]);
      if p(ms[0]) {
        assert Filter(ms, p) == [ms[0]] + rest;
        forall i | 0 <= i < |rest| + 1 ensures History(ms)[i] == EntryOf(([ms[0]] + rest)[i]) {
          if i > 0 {
            assert History(ms)[i] == History(ms[1..])[i - 1];
          }
        }
      } else {
        assert Filter(ms, p) == rest;
      }
    }
  }

  /** The history of a transcript is the history of its parts, concatenated. */
  lemma {:induction false} HistoryAppend(a: seq<ChatMessage>, b: seq<ChatMessage>)
    ensures History(a + b) == History(a) + History(b)
    decreases |a|
  {
    if a == [] {
      assert a + b == b;
    } else {
      HistoryAppend(a[1..], b);
      var ab := a + b;
      assert ab != [] && ab[0] == a[0] && ab[1..] == a[1..] + b;
      var head := if a[0].id == WelcomeId then [] else [EntryOf(a[0])];
      assert History(ab) == head + (History(a[1..]) + History(b));
      assert History(a) == head + History(a[1..]);
    }
  }

  /** The welcome message contributes nothing; any other message contributes one entry
      carrying its role and content. */
  lemma HistoryOne(m: ChatMessage)
    ensures m.id == WelcomeId ==> History([m]) == []
    ensures m.id != WelcomeId ==> History([m]) == [EntryOf(m)]
  {
    assert [m][1..] == [];
  }

  /** The chunks received so far, joined. */
  function Concat(chunks: seq<string>): string {
    if chunks == [] then "" else Concat(chunks[..|chunks| - 1]) + chunks[|chunks| - 1]
  }

  /** One streaming update: `prev.map(m => m.id === id ? { ...aiMessage } : m)`. */
  function ReplaceById(ms: seq<ChatMessage>, id: string, content: string): (r: seq<ChatMessage>)
    ensures |r| == |ms|
    ensures forall i :: 0 <= i < |ms| ==> r[i] == if ms[i].id == id then ChatMessage(id, AiSender, content) else ms[i]
  {
    seq(|ms|, i requires 0 <= i < |ms| => if ms[i].id == id then ChatMessage(id, AiSender, content) else ms[i])
  }

  /** The streaming loop: after the chunks have arrived, every message with the
      placeholder's id holds their concatenation and no other message has changed. */
  method Stream(ms: seq<ChatMessage>, id: string, chunks: seq<string>) returns (out: seq<ChatMessage>)
    ensures |out| == |ms|
    ensures chunks == [] ==> out == ms
    ensures chunks != [] ==> forall i :: 0 <= i < |ms| ==>
      out[i] == if ms[i].id == id then ChatMessage(id, AiSender, Concat(chunks)) else ms[i]
  {
    out := ms;
    var acc := "";
    var k := 0;
    while k < |chunks|
      invariant 0 <= k <= |chunks|
      invariant acc == Concat(chunks[..k])
      invariant |out| == |ms|
      invariant k == 0 ==> out == ms
      invariant k > 0 ==> forall i :: 0 <= i < |ms| ==>
        out[i] == if ms[i].id == id then ChatMessage(id, AiSender, acc) else ms[i]
    {
      assert chunks[..k + 1][..k] == chunks[..k];
      acc := acc + chunks[k];
      out := ReplaceById(out, id, acc);
      k := k + 1;
    }
    assert chunks[..k] == chunks;
  }

  /** The transcript after a reply whose stream delivered `chunks` and then either ended or
      failed: the placeholder holds the chunks, and a failure appends one apology. */
  function Reply(ms: seq<ChatMessage>, aiId: string, errorId: string, chunks: seq<string>, failed: bool): seq<ChatMessage> {
    var placeholder := ChatMessage(aiId, AiSender, "");
    var streamed := if chunks == [] then ms + [placeholder] else ReplaceById(ms + [placeholder], aiId, Concat(chunks));
    if failed then streamed + [ChatMessage(errorId, AiSender, Apology)] else streamed
  }

  /** With a fresh placeholder id, the reply leaves every earlier message as it was and adds
      the placeholder with the joined chunks, then the apology on failure. */
  lemma ReplyShape(ms: seq<ChatMessage>, aiId: string, errorId: string, chunks: seq<string>, failed: bool)
    ensures (forall i :: 0 <= i < |ms| ==> ms[i].id != aiId) ==>
      var r := Reply(ms, aiId, errorId, chunks, failed);
      && |r| == |ms| + 1 + (if failed then 1 else 0)
      && r[..|ms|] == ms
      && r[|ms|] == ChatMessage(aiId, AiSender, Concat(chunks))
      && (failed ==> r[|ms| + 1] == ChatMessage(errorId, AiSender, Apology))
  {
    var placeholder := ChatMessage(aiId, AiSender, "");
    if chunks != [] && forall i :: 0 <= i < |ms| ==> ms[i].id != aiId {
      var streamed := ReplaceById(ms + [placeholder], aiId, Concat(chunks));
      assert streamed[..|ms|] == ms;
    }
  }

  /** The placeholder id differs from every message id in the transcript. */
  predicate FreshId(ms: seq<ChatMessage>, id: string) {
    forall i :: 0 <= i < |ms| ==> ms[i].id != id
  }

  /** The transcript after a send that is not ignored: the user's message, then the reply. */
  function SentTranscript(ms: seq<ChatMessage>, text: string, userMsgId: string, aiId: string, errorId: string,
                          chunks: seq<string>, failed: bool): seq<ChatMessage> {
    Reply(ms + [ChatMessage(userMsgId, UserSender, text)], aiId, errorId, chunks, failed)
  }

  /** With fresh ids, a send keeps the transcript and appends the user's message, the reply
      holding the joined chunks, and one apology if the stream failed. */
  lemma SentTranscriptShape(ms: seq<ChatMessage>, text: string, userMsgId: string, aiId: string, errorId: string,
                            chunks: seq<string>, failed: bool)
    ensures FreshId(ms, aiId) && userMsgId != aiId ==>
      var r := SentTranscript(ms, text, userMsgId, aiId, errorId, chunks, failed);
      var n := |ms|;
      && |r| == n + 2 + (if failed then 1 else 0)
      && r[..n] == ms
      && r[n] == ChatMessage(userMsgId, UserSender, text)
      && r[n + 1] == ChatMessage(aiId, AiSender, Concat(chunks))
      && (failed ==> r[n + 2] == ChatMessage(errorId, AiSender, Apology))
  {
    var nm := ms + [ChatMessage(userMsgId, UserSender, text)];
    if FreshId(ms, aiId) && userMsgId != aiId {
      assert FreshId(nm, aiId);
      ReplyShape(nm, aiId, errorId, chunks, failed);
      var r := SentTranscript(ms, text, userMsgId, aiId, errorId, chunks, failed);
      assert r[..|nm|] == nm;
      assert r[..|ms|] == nm[..|ms|];
    }
  }

  /** `handleSendMessage`: `chunks` is what the stream delivered and `failed` whether it then
      threw; `userMsgId`, `aiId` and `errorId` are the time-based ids. A send that is not ignored
      marks the chat as interacted with and always ends with `isLoading` false. */
  function HandleSendMessage(s: ChatState, text: string, userMsgId: string, aiId: string, errorId: string,
                             chunks: seq<string>, failed: bool): (r: ChatState)
    ensures SendIgnored(text, s.isLoading) ==> r == s
    ensures !SendIgnored(text, s.isLoading) ==>
      && r.hasInteracted && !r.isLoading && r.isOpen == s.isOpen
      && |r.messages| >= |s.messages| + 2
      && r.messages == SentTranscript(s.messages, text, userMsgId, aiId, errorId, chunks, failed)
  {
    if SendIgnored(text, s.isLoading) then s
    else
      s.(messages := SentTranscript(s.messages, text, userMsgId, aiId, errorId, chunks, failed),
         hasInteracted := true, isLoading := false)
  }

  /** Right after opening, the transcript contributes nothing to the model's history. */
  lemma OnOpenHistoryEmpty(s: ChatState, user: Option<User>)
    requires s.isOpen
    ensures History(OnOpen(s, user).messages) == []
  {
    HistoryOne(Welcome(user));
  }

  /** So the first message sent after opening goes to the model with a history holding that
      message alone. */
  lemma FirstSendHistory(s: ChatState, user: Option<User>, text: string, userMsgId: string)
    requires s.isOpen && userMsgId != WelcomeId
    ensures History(OnOpen(s, user).messages + [ChatMessage(userMsgId, UserSender, text)])
         == [HistoryEntry(UserRole, [Part(text)])]
  {
    OnOpenHistoryEmpty(s, user);
    SendHistory(OnOpen(s, user), text, userMsgId);
  }

  /** A send of white space only, or while a reply is loading, changes nothing. */
  lemma BlankOrBusySendIgnored(s: ChatState, text: string, userMsgId: string, aiId: string, errorId: string,
                               chunks: seq<string>, failed: bool)
    requires Text.IsBlank(text) || s.isLoading
    ensures HandleSendMessage(s, text, userMsgId, aiId, errorId, chunks, failed) == s
  {
    Text.TrimEmptyIffBlank(text);
  }

  /** The history sent with a message is the earlier history plus the new user message. */
  lemma SendHistory(s: ChatState, text: string, userMsgId: string)
    requires userMsgId != WelcomeId
    ensures History(s.messages + [ChatMessage(userMsgId, UserSender, text)])
         == History(s.messages) + [HistoryEntry(UserRole, [Part(text)])]
  {
    HistoryAppend(s.messages, [ChatMessage(userMsgId, UserSender, text)]);
    HistoryOne(ChatMessage(userMsgId, UserSender, text));
  }
}
