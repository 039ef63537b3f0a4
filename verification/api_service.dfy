/** The data-access layer. Every database or RPC answer is a parameter (`Answer`),
    and every guarded call reports whether it reached the database (`Call`). */
module ApiService {
  import opened Wrappers
  import opened Types
  import opened Uuid
  import Text

  /** What the database client hands back: rows, or an error with its code and message. */
  datatype Answer<+T> = Data(data: T) | Error(code: string, message: string)

  /** The value a call resolves to, and whether a query was issued to obtain it:
      `NoQuery` when the id guard answered before any query was built. */
  datatype Call<+T> = NoQuery(value: T) | Queried(value: T)

  // ---------------------------------------------------------------------------
  // Row → view-model mappers

  /** A `profiles` row, as selected by `getUserById`. */
  datatype ProfileRow = ProfileRow(
    id: string, name: string, email: string, avatarUrl: string, tagline: string,
    roles: seq<Role>, points: int, usdBalance: int, rating: int, skills: seq<string>,
    isIdVerified: bool, isLinkedInVerified: bool, isPremium: bool, bio: string)

  /** `mapProfile`: the stored columns are copied, the two derived fields start empty. */
  function MapProfile(row: ProfileRow): (u: User)
    ensures u.workHistory == [] && u.unreadMessages == 0
    ensures ProfileOf(u) == row
  {
    User(row.id, row.name, row.email, row.avatarUrl, row.tagline, row.roles, row.points,
         row.usdBalance, row.rating, row.skills, row.isIdVerified, row.isLinkedInVerified,
         row.isPremium, [], row.bio, 0)
  }

  /** The columns of a user that live in the `profiles` table. */
  function ProfileOf(u: User): ProfileRow {
    ProfileRow(u.id, u.name, u.email, u.avatarUrl, u.tagline, u.roles, u.points,
               u.usdBalance, u.rating, u.skills, u.isIdVerified, u.isLinkedInVerified,
               u.isPremium, u.bio)
  }

  /** A `messages` row as selected by `getMessagesForConversation`. */
  datatype MessageRow = MessageRow(
    id: string, senderId: string, recipientId: string, content: string,
    createdAt: int, readAt: Option<int>, jobId: Option<string>)

  /** The columns of a message that live in the `messages` table. */
  function MessageRowOf(m: Message): MessageRow {
    MessageRow(m.id, m.senderId, m.recipientId, m.content, m.timestamp, m.readAt, m.jobId)
  }

  /** The message mapping: every column is copied and `jobSubject` is always ''. */
  function MapMessage(row: MessageRow): (m: Message)
    ensures MessageRowOf(m) == row
    ensures m.jobSubject == Some("")
  {
    Message(row.id, row.senderId, row.recipientId, row.content, row.createdAt, row.readAt, row.jobId, Some(""))
  }

  /** `data.map(msg => ...)`: one message per row, in row order. */
  function MapMessages(rows: seq<MessageRow>): (ms: seq<Message>)
    ensures |ms| == |rows|
    ensures forall i :: 0 <= i < |rows| ==> MessageRowOf(ms[i]) == rows[i] && ms[i].jobSubject == Some("")
  {
    seq(|rows|, i requires 0 <= i < |rows| => MapMessage(rows[i]))
  }

  /** The ids the conversation fetch marks read: messages addressed to `userId`
      whose `read_at` is null, in row order. */
  function UnreadIdsToMark(rows: seq<MessageRow>, userId: string): (ids: seq<string>)
    ensures |ids| <= |rows|
    ensures forall id :: id in ids <==> exists m :: m in rows && m.recipientId == userId && m.readAt.None? && m.id == id
  {
    if rows == [] then []
    else
      var rest := UnreadIdsToMark(rows[1..], userId);
      assert forall m :: m in rows <==> m == rows[0] || m in rows[1..];
      if rows[0].recipientId == userId && rows[0].readAt.None? then [rows[0].id] + rest else rest
  }

  /** A `transactions` row; `amountCents` is the stored amount in cents. */
  datatype TransactionRow = TransactionRow(id: string, date: int, description: string, amountCents: int, status: TxStatus, txType: TxType)

  /** Money flowing in is shown with '+', money flowing out with '-'. */
  function SignOf(t: TxType): (c: char)
    ensures c == '+' <==> t.Deposit? || t.Earning?
    ensures c == '-' <==> t.Withdrawal? || t.Expense?
  {
    if t.Deposit? || t.Earning? then '+' else '-'
  }

  /** `Number(amount).toFixed(2)` for an amount held as integer cents. */
  function Fixed2(cents: int): (r: string)
    ensures |r| >= 4 && r[|r| - 3] == '.'
  {
    var a := if cents < 0 then -cents else cents;
    var frac := a % 100;
    (if cents < 0 then "-" else "") + Text.NatToString(a / 100) + "." + [Text.DigitChar(frac / 10), Text.DigitChar(frac % 10)]
  }

  /** The transaction mapping: the amount is rendered as sign, '$', and two decimals;
      every other column is copied. */
  function MapTransaction(row: TransactionRow): (t: Transaction)
    ensures |t.amount| >= 2 && t.amount[1] == '$'
    ensures t.amount[0] == '+' <==> row.txType.Deposit? || row.txType.Earning?
    ensures t.amount[0] == '-' <==> row.txType.Withdrawal? || row.txType.Expense?
    ensures t.amount[2..] == Fixed2(row.amountCents)
    ensures (t.id, t.date, t.description, t.status, t.txType) == (row.id, row.date, row.description, row.status, row.txType)
  {
    Transaction(row.id, row.date, row.description, [SignOf(row.txType)] + "$" + Fixed2(row.amountCents), row.status, row.txType)
  }

  // ---------------------------------------------------------------------------
  // Guarded reads: a missing or non-UUID id yields an empty value with no query.

  /** `getJobById`: a `.single()` read whose "no rows" error and null data both give null. */
  function GetJobById(id: Option<string>, answer: Answer<Option<Job>>): (r: Call<Option<Job>>)
    ensures r.NoQuery? <==> !ValidId(id)
    ensures r.NoQuery? ==> r.value == None
    ensures r.value.Some? ==> answer == Data(r.value)
    ensures ValidId(id) ==> r.value == (if answer.Data? then answer.data else None)
  {
    if !ValidId(id) then NoQuery(None)
    else match answer
      case Error(_, _) => Queried(None)
      case Data(d) => Queried(d)
  }

  /** `getUserById`: the profile row, then the user's jobs as work history (empty when that
      query fails), then the unread count from `getUnreadMessageCount`. */
  function GetUserById(id: Option<string>, profile: Answer<Option<ProfileRow>>,
                       works: Answer<seq<JobInfo>>, count: Answer<Option<nat>>): (r: Call<Option<User>>)
    ensures r.NoQuery? <==> !ValidId(id)
    ensures r.NoQuery? ==> r.value == None
    ensures r.value.Some? <==> ValidId(id) && profile.Data? && profile.data.Some?
    ensures r.value.Some? ==>
      && ProfileOf(r.value.value) == profile.data.value
      && r.value.value.workHistory == (if works.Data? then works.data else [])
      && r.value.value.unreadMessages == GetUnreadMessageCount(id.value, count).value
  {
    if !ValidId(id) then NoQuery(None)
    else match profile
      case Error(_, _) => Queried(None)
      case Data(None) => Queried(None)
      case Data(Some(row)) =>
        var u := MapProfile(row);
        var history := if works.Data? then works.data else [];
        Queried(Some(u.(workHistory := history, unreadMessages := GetUnreadMessageCount(id.value, count).value)))
  }

  /** The shape shared by the list reads: a guard, then the rows, or [] on error. */
  function GuardedList<T>(id: Option<string>, answer: Answer<seq<T>>): (r: Call<seq<T>>)
    ensures r.NoQuery? <==> !ValidId(id)
    ensures r.NoQuery? ==> r.value == []
    ensures r.value != [] ==> answer == Data(r.value)
    ensures ValidId(id) ==> r.value == (if answer.Data? then answer.data else [])
  {
    if !ValidId(id) then NoQuery([])
    else match answer
      case Error(_, _) => Queried([])
      case Data(d) => Queried(d)
  }

  /** `getJobsByUserId` */
  function GetJobsByUserId(userId: Option<string>, answer: Answer<seq<Job>>): (r: Call<seq<Job>>)
    ensures r.NoQuery? <==> !ValidId(userId)
    ensures r.NoQuery? ==> r.value == []
    ensures ValidId(userId) ==> r.value == (if answer.Data? then answer.data else [])
  {
    GuardedList(userId, answer)
  }

  /** `getBidsByJobId` */
  function GetBidsByJobId(jobId: Option<string>, answer: Answer<seq<Bid>>): (r: Call<seq<Bid>>)
    ensures r.NoQuery? <==> !ValidId(jobId)
    ensures r.NoQuery? ==> r.value == []
    ensures ValidId(jobId) ==> r.value == (if answer.Data? then answer.data else [])
  {
    GuardedList(jobId, answer)
  }

  /** `getCommentsByJobId` */
  function GetCommentsByJobId(jobId: Option<string>, answer: Answer<seq<Comment>>): (r: Call<seq<Comment>>)
    ensures r.NoQuery? <==> !ValidId(jobId)
    ensures r.NoQuery? ==> r.value == []
    ensures ValidId(jobId) ==> r.value == (if answer.Data? then answer.data else [])
  {
    GuardedList(jobId, answer)
  }

  /** `getActivities` */
  function GetActivities(userId: Option<string>, answer: Answer<seq<Activity>>): (r: Call<seq<Activity>>)
    ensures r.NoQuery? <==> !ValidId(userId)
    ensures r.NoQuery? ==> r.value == []
    ensures ValidId(userId) ==> r.value == (if answer.Data? then answer.data else [])
  {
    GuardedList(userId, answer)
  }

  /** `getConversations`: the RPC may also answer with null data, which gives []. */
  function GetConversations(userId: string, answer: Answer<Option<seq<ConversationSummary>>>): (r: Call<seq<ConversationSummary>>)
    ensures r.NoQuery? <==> !ValidId(Some(userId))
    ensures r.NoQuery? ==> r.value == []
    ensures r.value != [] ==> answer == Data(Some(r.value))
    ensures ValidId(Some(userId)) && answer.Data? && answer.data.Some? ==> r.value == answer.data.value
  {
    if !ValidId(Some(userId)) then NoQuery([])
    else match answer
      case Error(_, _) => Queried([])
      case Data(None) => Queried([])
      case Data(Some(d)) => Queried(d)
  }

  /** `getTransactions`: the rows, each mapped with its sign rule. */
  function GetTransactions(userId: Option<string>, answer: Answer<seq<TransactionRow>>): (r: Call<seq<Transaction>>)
    ensures r.NoQuery? <==> !ValidId(userId)
    ensures r.NoQuery? ==> r.value == []
    ensures answer.Data? && ValidId(userId) ==>
      |r.value| == |answer.data| &&
      forall i :: 0 <= i < |r.value| ==> r.value[i] == MapTransaction(answer.data[i])
    ensures answer.Error? ==> r.value == []
  {
    if !ValidId(userId) then NoQuery([])
    else match answer
      case Error(_, _) => Queried([])
      case Data(rows) => Queried(seq(|rows|, i requires 0 <= i < |rows| => MapTransaction(rows[i])))
  }

  /** What `getMessagesForConversation` does: the mapped messages, and the read-marking
      update it issues (`None` when it issues none). */
  datatype MessageFetch = MessageFetch(messages: seq<Message>, markRead: Option<seq<string>>)

  /** `getMessagesForConversation`: both ids are guarded; the returned messages carry the
      `read_at` values as fetched, before the read-marking update. */
  function GetMessagesForConversation(userId: string, otherUserId: string, answer: Answer<seq<MessageRow>>): (r: Call<MessageFetch>)
    ensures r.NoQuery? <==> !ValidId(Some(userId)) || !ValidId(Some(otherUserId))
    ensures r.NoQuery? || answer.Error? ==> r.value == MessageFetch([], None)
    ensures r.Queried? && answer.Data? ==>
      && r.value.messages == MapMessages(answer.data)
      && (r.value.markRead.Some? <==> UnreadIdsToMark(answer.data, userId) != [])
      && (r.value.markRead.Some? ==> r.value.markRead.value == UnreadIdsToMark(answer.data, userId))
  {
    if !ValidId(Some(userId)) || !ValidId(Some(otherUserId)) then NoQuery(MessageFetch([], None))
    else match answer
      case Error(_, _) => Queried(MessageFetch([], None))
      case Data(rows) =>
        var ids := UnreadIdsToMark(rows, userId);
        Queried(MessageFetch(MapMessages(rows), if ids != [] then Some(ids) else None))
  }

  /** `getUnreadMessageCount`: `count || 0`, and 0 on error. */
  function GetUnreadMessageCount(userId: string, answer: Answer<Option<nat>>): (r: Call<nat>)
    ensures r.NoQuery? <==> !ValidId(Some(userId))
    ensures r.value != 0 ==> r.Queried? && answer == Data(Some(r.value))
    ensures r.Queried? && answer.Data? && answer.data.Some? ==> r.value == answer.data.value
  {
    if !ValidId(Some(userId)) then NoQuery(0)
    else match answer
      case Error(_, _) => Queried(0)
      case Data(None) => Queried(0)
      case Data(Some(n)) => Queried(n)
  }

  /** `getFreelanceJobs`: no guard; [] on error. */
  function GetFreelanceJobs(answer: Answer<seq<Job>>): (r: seq<Job>)
    ensures r != [] ==> answer == Data(r)
    ensures answer.Data? ==> r == answer.data
  {
    if answer.Error? then [] else answer.data
  }

  // ---------------------------------------------------------------------------
  // Mutations. A thrown error is `Failure(message)`.

  /** `error?.message || fallback` */
  function ErrorText<T>(answer: Answer<T>, fallback: string): (m: string)
    requires fallback != ""
    ensures m != ""
    ensures answer.Data? ==> m == fallback
  {
    if answer.Error? && answer.message != "" then answer.message else fallback
  }

  /** `updateJob`: an invalid id throws before the update; otherwise the job comes back
      unchanged unless the update fails. `failure` is the update's error, if any. */
  function UpdateJob(job: Job, failure: Option<string>): (r: Call<Result<Job, string>>)
    ensures r.NoQuery? <==> !ValidId(Some(job.info.id))
    ensures r.NoQuery? ==> r.value == Failure("Invalid job ID for update.")
    ensures r.value.Success? <==> ValidId(Some(job.info.id)) && failure.None?
    ensures r.value.Success? ==> r.value.value == job
    ensures r.Queried? && failure.Some? ==> r.value == Failure(failure.value)
  {
    if !ValidId(Some(job.info.id)) then NoQuery(Failure("Invalid job ID for update."))
    else if failure.Some? then Queried(Failure(failure.value))
    else Queried(Success(job))
  }

  datatype DeleteOutcome = DeleteOutcome(success: bool, id: string)

  /** `deleteJob`: an invalid id is reported, not thrown. */
  function DeleteJob(jobId: string, failure: Option<string>): (r: Call<Result<DeleteOutcome, string>>)
    ensures r.NoQuery? <==> !ValidId(Some(jobId))
    ensures r.NoQuery? ==> r.value == Success(DeleteOutcome(false, jobId))
    ensures r.value.Success? ==> r.value.value.id == jobId
    ensures r.value.Success? && r.value.value.success <==> ValidId(Some(jobId)) && failure.None?
    ensures r.Queried? && failure.Some? ==> r.value == Failure(failure.value)
  {
    if !ValidId(Some(jobId)) then NoQuery(Success(DeleteOutcome(false, jobId)))
    else if failure.Some? then Queried(Failure(failure.value))
    else Queried(Success(DeleteOutcome(true, jobId)))
  }

  /** The shape shared by `addBid` and `addComment`: a guard that throws, then an insert
      whose error or missing row throws. */
  function GuardedInsert<T>(jobId: string, answer: Answer<Option<T>>, invalid: string, fallback: string): (r: Call<Result<T, string>>)
    requires fallback != ""
    ensures r.value.Failure? && r.Queried? ==> r.value.error != ""
    ensures r.NoQuery? <==> !ValidId(Some(jobId))
    ensures r.NoQuery? ==> r.value == Failure(invalid)
    ensures r.value.Success? <==> ValidId(Some(jobId)) && answer.Data? && answer.data.Some?
    ensures r.value.Success? ==> r.value.value == answer.data.value
  {
    if !ValidId(Some(jobId)) then NoQuery(Failure(invalid))
    else match answer
      case Data(Some(row)) => Queried(Success(row))
      case _ => Queried(Failure(ErrorText(answer, fallback)))
  }

  /** `addBid` */
  function AddBid(jobId: string, answer: Answer<Option<Bid>>): (r: Call<Result<Bid, string>>)
    ensures r.NoQuery? <==> !ValidId(Some(jobId))
    ensures r.NoQuery? ==> r.value == Failure("Invalid job ID for bid.")
    ensures r.value.Failure? && r.Queried? ==> r.value.error != ""
    ensures r.value.Success? <==> ValidId(Some(jobId)) && answer.Data? && answer.data.Some?
    ensures r.value.Success? ==> r.value.value == answer.data.value
  {
    GuardedInsert(jobId, answer, "Invalid job ID for bid.", "Failed to add bid")
  }

  /** `addComment` */
  function AddComment(jobId: string, answer: Answer<Option<Comment>>): (r: Call<Result<Comment, string>>)
    ensures r.NoQuery? <==> !ValidId(Some(jobId))
    ensures r.NoQuery? ==> r.value == Failure("Invalid job ID for comment.")
    ensures r.value.Failure? && r.Queried? ==> r.value.error != ""
    ensures r.value.Success? <==> ValidId(Some(jobId)) && answer.Data? && answer.data.Some?
    ensures r.value.Success? ==> r.value.value == answer.data.value
  {
    GuardedInsert(jobId, answer, "Invalid job ID for comment.", "Failed to add comment")
  }

  /** `addMessage`: the optimistic message itself is the result; an RPC error throws. */
  function AddMessage(message: Message, failure: Option<string>): (r: Result<Message, string>)
    ensures r.Success? <==> failure.None?
    ensures r.Success? ==> r.value == message
    ensures r.Failure? ==> r.error == failure.value
  {
    if failure.Some? then Failure(failure.value) else Success(message)
  }

  /** `completeRewardTask`: no query either way; success exactly for a valid id. */
  function CompleteRewardTask(taskId: string): (success: bool)
    ensures success <==> IsUuid(taskId)
  {
    ValidIdIff(taskId);
    ValidId(Some(taskId))
  }
}
