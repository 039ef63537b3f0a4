/** The application's view models. Timestamps are integers (milliseconds),
    amounts and ratings are integers, and `null`/optional fields are `Option`s. */
module Types {
  import opened Wrappers

  datatype Role = Freelancer | Tasker | Client | Viewer

  datatype JobType = Freelance | Task

  datatype JobPosterInfo = JobPosterInfo(id: string, name: string, avatarUrl: string, rating: int, isPremium: bool)

  datatype BidderInfo = BidderInfo(id: string, name: string, avatarUrl: string, rating: int, isPremium: bool, isIdVerified: bool)

  /** The `id`/`name`/`avatarUrl` triple shared by `CommenterInfo`, `ActivityUserInfo`
      and a conversation's `otherUser`. */
  datatype PersonInfo = PersonInfo(id: string, name: string, avatarUrl: string)

  /** A job without its poster: `Omit<Job, 'postedBy'>`, the entries of a user's work history. */
  datatype JobInfo = JobInfo(
    id: string,
    title: string,
    description: string,
    jobType: JobType,
    budget: int,
    skills: seq<string>,
    location: Option<string>,
    isSponsored: bool,
    createdAt: int,
    allowsPointDiscount: Option<bool>)

  datatype Job = Job(info: JobInfo, postedBy: JobPosterInfo)

  datatype User = User(
    id: string,
    name: string,
    email: string,
    avatarUrl: string,
    tagline: string,
    roles: seq<Role>,
    points: int,
    usdBalance: int,
    rating: int,
    skills: seq<string>,
    isIdVerified: bool,
    isLinkedInVerified: bool,
    isPremium: bool,
    workHistory: seq<JobInfo>,
    bio: string,
    unreadMessages: int)

  datatype Survey = Survey(id: string, title: string, description: string, points: int)

  /** `reward` is display text such as "500 Points" or "$5.00". */
  datatype RewardTask = RewardTask(id: string, title: string, description: string, reward: string)

  /** `readAt` is `None` while the message is unread. */
  datatype Message = Message(
    id: string,
    senderId: string,
    recipientId: string,
    content: string,
    timestamp: int,
    readAt: Option<int>,
    jobId: Option<string>,
    jobSubject: Option<string>)

  /** One entry of the inbox, keyed by `otherUser.id`. */
  datatype ConversationSummary = ConversationSummary(
    otherUser: PersonInfo,
    lastMessage: Message,
    unreadCount: nat,
    isBuying: bool)

  datatype TxStatus = Completed | Pending | Failed

  datatype TxType = Deposit | Withdrawal | Earning | Expense

  /** `amount` is display text: a sign, a dollar sign and two decimals. */
  datatype Transaction = Transaction(id: string, date: int, description: string, amount: string, status: TxStatus, txType: TxType)

  datatype Bid = Bid(id: string, user: BidderInfo, amount: int, message: string, createdAt: int)

  datatype Comment = Comment(id: string, user: PersonInfo, content: string, createdAt: int)

  datatype ActivityType = MessageActivity | BidActivity | JobCompleted | WithdrawalActivity | JobPosted

  datatype Activity = Activity(
    id: string,
    activityType: ActivityType,
    text: string,
    timestamp: int,
    isRead: bool,
    link: Option<string>,
    user: Option<PersonInfo>)
}
