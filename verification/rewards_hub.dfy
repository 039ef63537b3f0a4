/** The rewards hub: the optimistic set of completed task ids with its rollback, the split
    of reward tasks into Micro-Tasks and Promotions, and the action buttons' labels. */
module RewardsHub {
  import opened Wrappers
  import opened Types
  import opened Seqs
  import Text
  import ApiService
  import Uuid

  /** How the `completeRewardTask` call ended: it resolved with a success flag, or threw. */
  datatype TaskCall = Resolved(success: bool) | Threw

  /** `handleAction`, as written: the id is added at once and removed again only if the
      call throws; a resolved `{ success: false }` is ignored. */
  function HandleAction(completed: set<string>, user: Option<User>, taskId: string, call: TaskCall): (r: set<string>)
    ensures user.None? || taskId in completed ==> r == completed
    ensures user.Some? && taskId !in completed && call.Resolved? ==> r == completed + {taskId}
    ensures user.Some? && call.Threw? ==> r == completed
  {
    if user.None? || taskId in completed then completed
    else
      var optimistic := completed + {taskId};
      if call.Threw? then optimistic - {taskId} else optimistic
  }

  /** The optimistic step alone: exactly `taskId` is added. */
  function MarkCompleted(completed: set<string>, user: Option<User>, taskId: string): (r: set<string>)
    ensures user.Some? && taskId !in completed ==> taskId in r && r - {taskId} == completed
    ensures user.None? || taskId in completed ==> r == completed
  {
    if user.None? || taskId in completed then completed else completed + {taskId}
  }

  /** Removing the id again restores the set as it was before the action. */
  lemma RollbackRestores(completed: set<string>, user: Option<User>, taskId: string)
    requires taskId !in completed
    ensures MarkCompleted(completed, user, taskId) - {taskId} == completed
  {
  }

  /** With the real `completeRewardTask`, which resolves with `success: false` for a non-UUID
      id and never throws, such an id stays marked as completed. */
  lemma InvalidTaskStaysCompleted(completed: set<string>, me: User, taskId: string)
    requires taskId !in completed && !Uuid.IsUuid(taskId)
    ensures !ApiService.CompleteRewardTask(taskId)
    ensures taskId in HandleAction(completed, Some(me), taskId, Resolved(ApiService.CompleteRewardTask(taskId)))
  {
  }

  /** A concrete instance: the task id "survey-1" is not a UUID, yet its button ends up
      reading "Completed". */
  lemma InvalidTaskExample(me: User)
    ensures !Uuid.IsUuid("survey-1")
    ensures ButtonLabel(HandleAction({}, Some(me), "survey-1", Resolved(ApiService.CompleteRewardTask("survey-1"))), "survey-1", "500 Points") == "Completed"
  {
    Uuid.ValidIdIff("survey-1");
  }

  /** `handleAction` with the rollback applied to every unsuccessful outcome. */
  function HandleActionChecked(completed: set<string>, user: Option<User>, taskId: string, call: TaskCall): (r: set<string>)
    ensures user.None? || taskId in completed ==> r == completed
    ensures user.Some? && taskId !in completed ==>
      (taskId in r <==> call == Resolved(true)) && r - {taskId} == completed
  {
    if user.None? || taskId in completed then completed
    else
      var optimistic := completed + {taskId};
      if call != Resolved(true) then optimistic - {taskId} else optimistic
  }

  /** With the corrected handler, an id is marked completed only if the task really completed. */
  lemma CheckedMarksOnlyCompleted(completed: set<string>, me: User, taskId: string)
    requires taskId !in completed
    ensures taskId in HandleActionChecked(completed, Some(me), taskId, Resolved(ApiService.CompleteRewardTask(taskId)))
        <==> Uuid.IsUuid(taskId)
  {
  }

  // ---------------------------------------------------------------------------
  // Grouping and buttons

  /** `t.title.includes("Social")` (case-sensitive) */
  predicate IsPromotion(t: RewardTask) {
    Text.Includes(t.title, "Social")
  }

  function Promotions(tasks: seq<RewardTask>): (r: seq<RewardTask>)
    ensures forall i :: 0 <= i < |r| ==> IsPromotion(r[i])
    ensures forall i :: 0 <= i < |tasks| && IsPromotion(tasks[i]) ==> tasks[i] in r
  {
    Filter(tasks, IsPromotion)
  }

  function MicroTasks(tasks: seq<RewardTask>): (r: seq<RewardTask>)
    ensures forall i :: 0 <= i < |r| ==> !IsPromotion(r[i])
    ensures forall i :: 0 <= i < |tasks| && !IsPromotion(tasks[i]) ==> tasks[i] in r
  {
    Filter(tasks, (t: RewardTask) => !IsPromotion(t))
  }

  /** Every reward task is listed in exactly one of the two groups, as often as it occurs,
      and each group keeps the fetched order. */
  lemma TasksPartition(tasks: seq<RewardTask>)
    ensures multiset(Promotions(tasks)) + multiset(MicroTasks(tasks)) == multiset(tasks)
    ensures forall t :: t in tasks ==> (t in Promotions(tasks) <==> t !in MicroTasks(tasks))
    ensures IsSubseq(Promotions(tasks), tasks) && IsSubseq(MicroTasks(tasks), tasks)
  {
    FilterPartition(tasks, IsPromotion, (t: RewardTask) => !IsPromotion(t));
    FilterIsSubseq(tasks, IsPromotion);
    FilterIsSubseq(tasks, (t: RewardTask) => !IsPromotion(t));
    forall t | t in tasks ensures t in Promotions(tasks) <==> t !in MicroTasks(tasks) {
      var i :| 0 <= i < |tasks| && tasks[i] == t;
    }
  }

  /** A button's text: 'Completed' for a completed id, its own text otherwise. */
  function ButtonLabel(completed: set<string>, id: string, text: string): (shown: string)
    ensures id in completed ==> shown == "Completed"
    ensures id !in completed ==> shown == text
  {
    if id in completed then "Completed" else text
  }

  /** A button is disabled exactly when its id is completed. */
  predicate ButtonDisabled(completed: set<string>, id: string) {
    id in completed
  }

  /** A survey button's own text: `${points} Points`. */
  function SurveyText(s: Survey): (text: string)
    ensures |text| > 7 && text[|text| - 7..] == " Points"
  {
    Text.IntToString(s.points) + " Points"
  }

  /** The number in front of " Points" reads back as the survey's points; a negative
      count is printed with its minus sign. */
  lemma SurveyTextReadsPoints(s: Survey)
    ensures var text := SurveyText(s);
      && (s.points >= 0 ==> Text.ParseDigits(text[..|text| - 7]) == s.points)
      && (s.points < 0 ==> Text.ParseDigits(text[1..|text| - 7]) == -s.points)
      && (s.points < 0 <==> text[0] == '-')
      && Text.ParseInt(text[..|text| - 7]) == s.points
  {
    var text := SurveyText(s);
    var num := Text.IntToString(s.points);
    assert text[..|text| - 7] == num;
    if s.points >= 0 {
      Text.ParseNatToString(s.points);
    } else {
      assert text[1..|text| - 7] == num[1..];
      Text.ParseNatToString(-s.points);
    }
    Text.ParseIntToString(s.points);
  }

  /** A button that can still be pressed never reads 'Completed' unless that is its own text. */
  lemma EnabledButtonShowsOwnText(completed: set<string>, id: string, text: string)
    requires !ButtonDisabled(completed, id)
    ensures ButtonLabel(completed, id, text) == text
  {
  }
}
