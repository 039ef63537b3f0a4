/** The messaging inbox: the list of conversations keyed by `otherUser.id`, the active
    conversation, the open messages, the unread badge, and the transitions the widget's
    event handlers and effects perform on them. Server answers are parameters. */
module MessageWidget {
  import opened Wrappers
  import opened Types
  import opened Seqs
  import Text

  datatype Tab = Buying | Selling

  /** The widget's state. `unreadBadge` is the shared `unreadMessages` counter;
      `attachment` is the chosen file's name. */
  datatype Inbox = Inbox(
    isOpen: bool,
    conversations: seq<ConversationSummary>,
    active: Option<ConversationSummary>,
    tab: Tab,
    messages: seq<Message>,
    attachment: Option<string>,
    targetUserId: Option<string>,
    unreadBadge: int)

  function Key(c: ConversationSummary): string {
    c.otherUser.id
  }

  /** How many entries of `list` belong to the other user `k`. */
  function Occurrences(list: seq<ConversationSummary>, k: string): (n: nat)
    ensures n <= |list|
  {
    if list == [] then 0 else (if Key(list[0]) == k then 1 else 0) + Occurrences(list[1..], k)
  }

  /** At most one entry per other user. */
  ghost predicate UniqueKeys(list: seq<ConversationSummary>) {
    forall k :: Occurrences(list, k) <= 1
  }

  lemma {:induction false} OccurrencesIn(list: seq<ConversationSummary>, k: string)
    ensures Occurrences(list, k) > 0 <==> exists i :: 0 <= i < |list| && Key(list[i]) == k
    decreases |list|
  {
    if list != [] {
      OccurrencesIn(list[1..], k);
      if exists i :: 0 <= i < |list| && Key(list[i]) == k {
        var i :| 0 <= i < |list| && Key(list[i]) == k;
        if i > 0 {
          assert Key(list[1..][i - 1]) == k;
        }
      }
      if exists i :: 0 <= i < |list[1..]| && Key(list[1..][i]) == k {
        var i :| 0 <= i < |list[1..]| && Key(list[1..][i]) == k;
        assert Key(list[i + 1]) == k;
      }
    }
  }

  // ---------------------------------------------------------------------------
  // Lookups

  /** `list.findIndex(c => c.otherUser.id === k)` */
  function FindIndex(list: seq<ConversationSummary>, k: string): (r: int)
    ensures -1 <= r < |list|
    ensures 0 <= r ==> Key(list[r]) == k && forall j :: 0 <= j < r ==> Key(list[j]) != k
    ensures r == -1 <==> forall j :: 0 <= j < |list| ==> Key(list[j]) != k
  {
    if list == [] then -1
    else if Key(list[0]) == k then 0
    else
      var i := FindIndex(list[1..], k);
      if i == -1 then -1 else i + 1
  }

  /** `list.find(c => c.otherUser.id === k)` */
  function Find(list: seq<ConversationSummary>, k: string): (r: Option<ConversationSummary>)
    ensures r.None? <==> forall j :: 0 <= j < |list| ==> Key(list[j]) != k
    ensures r.Some? ==> r.value == list[FindIndex(list, k)]
  {
    var i := FindIndex(list, k);
    if i == -1 then None else Some(list[i])
  }

  // ---------------------------------------------------------------------------
  // Putting an entry first

  /** Every entry except those of the other user `k`, in their original order. */
  function WithoutKey(list: seq<ConversationSummary>, k: string): (r: seq<ConversationSummary>)
    ensures IsSubseq(r, list)
    ensures forall i :: 0 <= i < |r| ==> Key(r[i]) != k
    ensures forall j :: Occurrences(r, j) == if j == k then 0 else Occurrences(list, j)
    ensures |r| == |list| - Occurrences(list, k)
  {
    var r := Filter(list, (c: ConversationSummary) => Key(c) != k);
    FilterIsSubseq(list, (c: ConversationSummary) => Key(c) != k);
    FilterOccurrences(list, k);
    r
  }

  lemma {:induction false} FilterOccurrences(list: seq<ConversationSummary>, k: string)
    ensures var r := Filter(list, (c: ConversationSummary) => Key(c) != k);
      (forall j :: Occurrences(r, j) == if j == k then 0 else Occurrences(list, j))
      && |r| == |list| - Occurrences(list, k)
    decreases |list|
  {
    if list != [] {
      FilterOccurrences(list[1..], k);
      var rest := Filter(list[1..], (c: ConversationSummary) => Key(c) != k);
      if Key(list[0]) != k {
        assert ([list[0]] + rest)[1..] == rest;
      }
    }
  }

  /** `[c, ...list.filter(p => p.otherUser.id !== c.otherUser.id)]`: `c` becomes the only
      entry for its other user and goes first; every other entry keeps its relative order. */
  function PutFirst(list: seq<ConversationSummary>, c: ConversationSummary): (r: seq<ConversationSummary>)
    ensures |r| >= 1 && r[0] == c
    ensures IsSubseq(r[1..], list)
    ensures forall j :: Occurrences(r, j) == if j == Key(c) then 1 else Occurrences(list, j)
    ensures |r| == |list| - Occurrences(list, Key(c)) + 1
    ensures UniqueKeys(list) ==> UniqueKeys(r)
  {
    var rest := WithoutKey(list, Key(c));
    assert ([c] + rest)[1..] == rest;
    [c] + rest
  }

  // ---------------------------------------------------------------------------
  // Open request (the 'open-messages' window event)

  /** `userId && user && userId !== user.id` */
  predicate AcceptsOpenRequest(user: Option<User>, userId: Option<string>) {
    userId.Some? && userId.value != "" && user.Some? && userId.value != user.value.id
  }

  /** A request names the conversation partner to open and opens the widget; a missing id,
      a missing user, or the user's own id leaves the state as it was. */
  function HandleOpenRequest(s: Inbox, user: Option<User>, userId: Option<string>): (r: Inbox)
    ensures AcceptsOpenRequest(user, userId) ==> r.isOpen && r.targetUserId == userId
    ensures AcceptsOpenRequest(user, userId) ==> r.(isOpen := s.isOpen, targetUserId := s.targetUserId) == s
    ensures !AcceptsOpenRequest(user, userId) ==> r == s
  {
    if AcceptsOpenRequest(user, userId) then s.(targetUserId := userId, isOpen := true) else s
  }

  /** The pending target is never the signed-in user themself. */
  predicate NoSelfTarget(s: Inbox, user: Option<User>) {
    s.targetUserId.Some? && user.Some? ==> s.targetUserId.value != user.value.id
  }

  lemma OpenRequestKeepsNoSelfTarget(s: Inbox, user: Option<User>, userId: Option<string>)
    requires NoSelfTarget(s, user)
    ensures NoSelfTarget(HandleOpenRequest(s, user, userId), user)
  {
  }

  // ---------------------------------------------------------------------------
  // Conversation refresh (the effect that runs when the widget is open)

  /** The placeholder opened for a user with no conversation yet: no unread messages, on
      the Buying side, and an empty draft message from the current user to the other user. */
  function Placeholder(me: User, other: User, placeholderId: string, now: int): (c: ConversationSummary)
    ensures c.otherUser == PersonInfo(other.id, other.name, other.avatarUrl)
    ensures c.unreadCount == 0 && c.isBuying
    ensures c.lastMessage.content == "" && c.lastMessage.readAt.None?
    ensures c.lastMessage.senderId == me.id && c.lastMessage.recipientId == other.id
    ensures c.lastMessage.jobSubject == Some("New Conversation") && c.lastMessage.jobId.None?
  {
    ConversationSummary(
      PersonInfo(other.id, other.name, other.avatarUrl),
      Message(placeholderId, me.id, other.id, "", now, None, None, Some("New Conversation")),
      0,
      true)
  }

  /** After a refresh with no pending target, the active conversation is dropped when the
      refreshed list no longer has it or it now belongs to the other tab. */
  function ReconcileActive(active: Option<ConversationSummary>, data: seq<ConversationSummary>, tab: Tab): (r: Option<ConversationSummary>)
    ensures active.None? ==> r.None?
    ensures active.Some? ==>
      (r.None? <==> (forall j :: 0 <= j < |data| ==> Key(data[j]) != Key(active.value))
                    || Find(data, Key(active.value)).value.isBuying != (tab == Buying))
    ensures r.Some? ==> r == active
  {
    match active
    case None => None
    case Some(a) =>
      var refreshed := Find(data, Key(a));
      if refreshed.None? || refreshed.value.isBuying != (tab == Buying) then None else active
  }

  /** `if (targetUserId)`: a pending target that is present and non-empty. */
  predicate HasTarget(s: Inbox) {
    s.targetUserId.Some? && s.targetUserId.value != ""
  }

  /** The conversation refresh: `data` is what `getConversations` resolved to and
      `targetProfile` what `getUserById(targetUserId)` resolved to. It runs only while the
      widget is open and a user is signed in. */
  function Refresh(s: Inbox, user: Option<User>, data: seq<ConversationSummary>,
                   targetProfile: Option<User>, placeholderId: string, now: int): (r: Inbox)
    ensures !(s.isOpen && user.Some?) ==> r == s
    ensures s.isOpen && user.Some? && HasTarget(s) ==> r.targetUserId.None?
    ensures s.isOpen && user.Some? && !HasTarget(s) ==>
      && r.targetUserId == s.targetUserId
      && r.conversations == data && r.active == ReconcileActive(s.active, data, s.tab)
    ensures s.isOpen && user.Some? && HasTarget(s) && Find(data, s.targetUserId.value).Some? ==>
      r.conversations == data && r.active == Find(data, s.targetUserId.value)
    ensures s.isOpen && user.Some? && HasTarget(s) && Find(data, s.targetUserId.value).None? ==>
      if targetProfile.Some? then
        && r.active == Some(Placeholder(user.value, targetProfile.value, placeholderId, now))
        && r.active.value.isBuying && r.active.value.unreadCount == 0
        && r.conversations == PutFirst(data, r.active.value)
        && Key(r.active.value) == targetProfile.value.id
      else r.conversations == data && r.active == s.active
    ensures r.(conversations := s.conversations, active := s.active, targetUserId := s.targetUserId) == s
  {
    if !(s.isOpen && user.Some?) then s
    else
      var loaded := s.(conversations := data);
      if HasTarget(s) then
        var target := s.targetUserId.value;
        var found := Find(data, target);
        if found.Some? then loaded.(active := found, targetUserId := None)
        else if targetProfile.Some? then
          var ph := Placeholder(user.value, targetProfile.value, placeholderId, now);
          loaded.(active := Some(ph), conversations := PutFirst(data, ph), targetUserId := None)
        else loaded.(targetUserId := None)
      else
        loaded.(active := ReconcileActive(s.active, data, s.tab))
  }

  /** When the fetched profile is the pending target's, a refresh opens that user's
      conversation, whether it was found in the list or made up as a placeholder. */
  lemma RefreshOpensPendingTarget(s: Inbox, user: Option<User>, data: seq<ConversationSummary>,
                                  targetProfile: Option<User>, placeholderId: string, now: int)
    requires s.isOpen && user.Some? && HasTarget(s)
    requires targetProfile.Some? && targetProfile.value.id == s.targetUserId.value
    ensures var r := Refresh(s, user, data, targetProfile, placeholderId, now);
      && r.active.Some? && Key(r.active.value) == s.targetUserId.value
      && r.active.value in r.conversations
      && r.targetUserId.None?
  {
    var r := Refresh(s, user, data, targetProfile, placeholderId, now);
    var found := Find(data, s.targetUserId.value);
    if found.None? {
      assert r.conversations[0] == r.active.value;
    } else {
      assert r.active == found;
    }
  }

  // ---------------------------------------------------------------------------
  // Opening a conversation (the effect that runs when the active conversation changes)

  /** `prev.map(c => c.otherUser.id === k ? { ...c, unreadCount: 0 } : c)` */
  function MarkRead(list: seq<ConversationSummary>, k: string): (r: seq<ConversationSummary>)
    ensures |r| == |list|
    ensures forall i :: 0 <= i < |list| ==>
      if Key(list[i]) == k then r[i] == list[i].(unreadCount := 0) else r[i] == list[i]
  {
    seq(|list|, i requires 0 <= i < |list| => if Key(list[i]) == k then list[i].(unreadCount := 0) else list[i])
  }

  /** The sum of the unread counts over the list. */
  function TotalUnread(list: seq<ConversationSummary>): nat {
    if list == [] then 0 else list[0].unreadCount + TotalUnread(list[1..])
  }

  /** The unread count of the first entry for `k` (the one `find` returns), or 0. */
  function FirstUnread(list: seq<ConversationSummary>, k: string): nat {
    var c := Find(list, k);
    if c.Some? then c.value.unreadCount else 0
  }

  /** The badge after opening `k`: `max(0, badge - unreadCount)` when that conversation has
      unread messages, unchanged otherwise. */
  function DecrementBadge(badge: int, list: seq<ConversationSummary>, k: string): (r: int)
    ensures badge >= 0 ==> 0 <= r <= badge
    ensures r == badge <==> FirstUnread(list, k) == 0 || badge == 0
    ensures badge >= FirstUnread(list, k) ==> r == badge - FirstUnread(list, k)
    ensures 0 < FirstUnread(list, k) && badge < FirstUnread(list, k) ==> r == 0
  {
    var c := Find(list, k);
    if c.Some? && c.value.unreadCount > 0 then
      (if badge - c.value.unreadCount > 0 then badge - c.value.unreadCount else 0)
    else badge
  }

  lemma {:induction false} MarkReadTotal(list: seq<ConversationSummary>, k: string)
    ensures TotalUnread(MarkRead(list, k)) + FirstUnread(list, k) <= TotalUnread(list)
    decreases |list|
  {
    if list != [] {
      MarkReadTotal(list[1..], k);
      assert MarkRead(list, k)[1..] == MarkRead(list[1..], k);
      if Key(list[0]) != k {
        assert FindIndex(list, k) == -1 || FindIndex(list, k) == FindIndex(list[1..], k) + 1;
      }
    }
  }

  /** The badge covers what is still unread in the list. */
  predicate BadgeCovers(s: Inbox) {
    s.unreadBadge >= TotalUnread(s.conversations)
  }

  /** Opening a conversation: `messages` is what `getMessagesForConversation` resolved to.
      With no active conversation (or no user) the messages are cleared. */
  function OpenConversation(s: Inbox, user: Option<User>, messages: seq<Message>): (r: Inbox)
    ensures !(s.active.Some? && user.Some?) ==> r == s.(messages := [])
    ensures s.active.Some? && user.Some? ==>
      && r.messages == messages
      && |r.conversations| == |s.conversations|
      && (forall i :: 0 <= i < |s.conversations| ==>
            if Key(s.conversations[i]) == Key(s.active.value)
            then r.conversations[i] == s.conversations[i].(unreadCount := 0)
            else r.conversations[i] == s.conversations[i])
      && r.unreadBadge == DecrementBadge(s.unreadBadge, s.conversations, Key(s.active.value))
    ensures r.(messages := s.messages, conversations := s.conversations, unreadBadge := s.unreadBadge) == s
  {
    if s.active.Some? && user.Some? then
      var k := Key(s.active.value);
      s.(messages := messages,
         unreadBadge := DecrementBadge(s.unreadBadge, s.conversations, k),
         conversations := MarkRead(s.conversations, k))
    else s.(messages := [])
  }

  /** Opening a conversation keeps the badge at or above the remaining unread total. */
  lemma OpenConversationKeepsBadgeCovers(s: Inbox, user: Option<User>, messages: seq<Message>)
    requires BadgeCovers(s)
    ensures BadgeCovers(OpenConversation(s, user, messages))
  {
    if s.active.Some? && user.Some? {
      MarkReadTotal(s.conversations, Key(s.active.value));
    }
  }

  /** Opening the same conversation twice changes nothing the second time, except for
      the messages fetched again. */
  lemma OpenConversationIdempotent(s: Inbox, user: Option<User>, messages: seq<Message>)
    requires s.active.Some? && user.Some?
    ensures var t := OpenConversation(s, user, messages);
      OpenConversation(t, user, messages) == t
  {
    var t := OpenConversation(s, user, messages);
    var k := Key(s.active.value);
    assert MarkRead(t.conversations, k) == t.conversations;
    var i := FindIndex(t.conversations, k);
    assert i >= 0 ==> t.conversations[i].unreadCount == 0;
  }

  // ---------------------------------------------------------------------------
  // Sending a message

  /** The optimistic message: an attachment replaces the typed text. */
  function NewMessage(me: User, active: ConversationSummary, text: string, attachment: Option<string>,
                      messageId: string, now: int): (m: Message)
    ensures m.senderId == me.id && m.recipientId == Key(active) && m.readAt.None?
    ensures attachment.Some? ==> m.content == "Sent attachment: " + attachment.value
    ensures attachment.None? ==> m.content == text
    ensures m.jobId == active.lastMessage.jobId && m.jobSubject == active.lastMessage.jobSubject
  {
    Message(messageId, me.id, Key(active),
            if attachment.Some? then "Sent attachment: " + attachment.value else text,
            now, None, active.lastMessage.jobId, active.lastMessage.jobSubject)
  }

  /** The list update on send: the conversation for `k` takes `m` as its last message and
      moves to the front; without such a conversation the list is unchanged. */
  function SendListUpdate(list: seq<ConversationSummary>, k: string, m: Message): (r: seq<ConversationSummary>)
    ensures FindIndex(list, k) == -1 ==> r == list
    ensures FindIndex(list, k) >= 0 ==>
      && |r| >= 1 && r[0] == list[FindIndex(list, k)].(lastMessage := m)
      && IsSubseq(r[1..], list)
      && (forall j :: Occurrences(r, j) == if j == k then 1 else Occurrences(list, j))
    ensures UniqueKeys(list) ==> |r| == |list| && UniqueKeys(r)
  {
    var i := FindIndex(list, k);
    if i == -1 then list
    else
      FoundOnce(list, k);
      PutFirst(list, list[i].(lastMessage := m))
  }

  lemma FoundOnce(list: seq<ConversationSummary>, k: string)
    requires FindIndex(list, k) >= 0
    ensures UniqueKeys(list) ==> Occurrences(list, k) == 1
  {
    OccurrencesIn(list, k);
  }

  /** `!content.trim() && !attachment`: nothing to send. */
  predicate NothingToSend(text: string, attachment: Option<string>) {
    Text.Trim(text) == "" && attachment.None?
  }

  /** `handleSendMessage`: `sendError` is the error `addMessage` threw, if any; only a
      successful send clears the attachment. */
  function HandleSendMessage(s: Inbox, user: Option<User>, text: string, messageId: string,
                             now: int, sendError: Option<string>): (r: Inbox)
    ensures user.None? || s.active.None? || NothingToSend(text, s.attachment) ==> r == s
    ensures user.Some? && s.active.Some? && !NothingToSend(text, s.attachment) ==>
      var m := NewMessage(user.value, s.active.value, text, s.attachment, messageId, now);
      && r.messages == s.messages + [m]
      && r.conversations == SendListUpdate(s.conversations, Key(s.active.value), m)
      && r.attachment == (if sendError.None? then None else s.attachment)
      && r.active == s.active
    ensures r.(messages := s.messages, conversations := s.conversations, attachment := s.attachment) == s
  {
    if user.None? || s.active.None? || NothingToSend(text, s.attachment) then s
    else
      var m := NewMessage(user.value, s.active.value, text, s.attachment, messageId, now);
      s.(messages := s.messages + [m],
         conversations := SendListUpdate(s.conversations, Key(s.active.value), m),
         attachment := if sendError.None? then None else s.attachment)
  }

  /** A blank text without an attachment sends nothing, whatever its white space. */
  lemma BlankTextSendsNothing(s: Inbox, user: Option<User>, text: string, messageId: string, now: int, sendError: Option<string>)
    requires Text.IsBlank(text) && s.attachment.None?
    ensures HandleSendMessage(s, user, text, messageId, now, sendError) == s
  {
    Text.TrimEmptyIffBlank(text);
  }

  // ---------------------------------------------------------------------------
  // AI assist and the tab filter

  /** The message `handleAiAssist` drafts a reply to: the latest one not sent by `me`. */
  function LastFromOthers(messages: seq<Message>, me: string): (r: Option<Message>)
    ensures r.None? <==> forall i :: 0 <= i < |messages| ==> messages[i].senderId == me
    ensures r.Some? ==> r.value.senderId != me
    ensures r.Some? ==> exists i ::
      && 0 <= i < |messages| && messages[i] == r.value
      && (forall j :: i < j < |messages| ==> messages[j].senderId == me)
  {
    if messages == [] then None
    else
      var last := messages[|messages| - 1];
      if last.senderId != me then Some(last)
      else
        var r := LastFromOthers(messages[..|messages| - 1], me);
        assert forall i :: 0 <= i < |messages| - 1 ==> messages[..|messages| - 1][i] == messages[i];
        r
  }

  /** `handleAiAssist`: the message input holds `reply` afterwards exactly when there is a
      user, an active conversation and a message from someone else to reply to. */
  function AiAssistDraft(draft: string, user: Option<User>, active: Option<ConversationSummary>,
                         messages: seq<Message>, reply: string): (r: string)
    ensures user.None? || active.None? || messages == [] ==> r == draft
    ensures user.Some? && active.Some? && LastFromOthers(messages, user.value.id).Some? ==> r == reply
    ensures user.Some? && LastFromOthers(messages, user.value.id).None? ==> r == draft
  {
    if user.None? || active.None? || messages == [] then draft
    else if LastFromOthers(messages, user.value.id).None? then draft
    else reply
  }

  /** The conversations shown on a tab. */
  function OnTab(list: seq<ConversationSummary>, tab: Tab): (r: seq<ConversationSummary>)
    ensures IsSubseq(r, list)
    ensures forall i :: 0 <= i < |r| ==> r[i].isBuying == (tab == Buying)
    ensures forall i :: 0 <= i < |list| && list[i].isBuying == (tab == Buying) ==> list[i] in r
  {
    FilterIsSubseq(list, (c: ConversationSummary) => c.isBuying == (tab == Buying));
    Filter(list, (c: ConversationSummary) => c.isBuying == (tab == Buying))
  }

  /** The two tabs split the inbox: every conversation is on exactly one of them. */
  lemma TabsPartition(list: seq<ConversationSummary>)
    ensures multiset(OnTab(list, Buying)) + multiset(OnTab(list, Selling)) == multiset(list)
    ensures |OnTab(list, Buying)| + |OnTab(list, Selling)| == |list|
  {
    FilterPartition(list, (c: ConversationSummary) => c.isBuying == (Buying == Buying),
                          (c: ConversationSummary) => c.isBuying == (Selling == Buying));
  }
}
