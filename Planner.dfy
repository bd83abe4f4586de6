/**
 * The root component of the planner (App.tsx) as an object: the job list
 * and the settings it holds, and the operations that replace them. Each
 * method performs the `setTasks` / `setSettings` of one completed call.
 *
 * Clock, random id, prompts and network outcome are parameters: `id` and
 * `createdAt` for a new job, `confirmed` for the deletion prompt,
 * `transportOk` for whether the push's fetch threw, and the parsed body of
 * the pull's response.
 */
module Planner {
  import opened Wrappers
  import opened Types
  import opened TaskRepo
  import opened Sync

  class App {
    var tasks: seq<Task>
    var settings: Settings

    /** The state before anything is loaded (App.tsx:15, 21-27). */
    constructor ()
      ensures tasks == [] && settings == DefaultSettings
    {
      tasks := [];
      settings := DefaultSettings;
    }

    /** `updateSettings` (App.tsx:41-44): the settings are replaced wholesale. */
    method UpdateSettings(newSettings: Settings)
      modifies this
      ensures settings == newSettings && tasks == old(tasks)
    {
      settings := newSettings;
    }

    /** `addTask` (App.tsx:127-137): the new job, unsynced, goes in front of the others. */
    method AddTask(data: TaskInput, id: string, createdAt: nat) returns (t: Task)
      modifies this
      ensures t.id == id && t.createdAt == createdAt && !t.syncedToSheet && InputOf(t) == data
      ensures |tasks| == |old(tasks)| + 1 && tasks[0] == t && tasks[1..] == old(tasks)
      ensures settings == old(settings)
    {
      t := NewTask(data, id, createdAt);
      tasks := Prepend(tasks, t);
    }

    /** `updateTaskStatus` (App.tsx:139-156), without the push and the prompt it triggers. */
    method UpdateTaskStatus(id: string, s: TaskStatus)
      modifies this
      ensures tasks == UpdateStatus(old(tasks), id, s)
      ensures !HasId(old(tasks), id) ==> tasks == old(tasks)
      ensures settings == old(settings)
    {
      tasks := UpdateStatus(tasks, id, s);
      if !HasId(old(tasks), id) {
        UpdateUnknownId(old(tasks), id, s);
      }
    }

    /** `deleteTask` (App.tsx:158-162): removes every job with that id once confirmed. */
    method DeleteTask(id: string, confirmed: bool)
      modifies this
      ensures tasks == if confirmed then Delete(old(tasks), id) else old(tasks)
      ensures settings == old(settings)
    {
      if confirmed {
        tasks := Delete(tasks, id);
      }
    }

    /**
     * `syncToGoogleSheet` (App.tsx:89-125): the request it sends, if any,
     * whether it reports success, and the acknowledgement in the job list.
     */
    method SyncToGoogleSheet(task: LooseTask, action: Action, clock: string, today: string, transportOk: bool)
      returns (ok: bool, sent: Option<Request>)
      modifies this
      ensures sent == PushRequest(settings, task, action, clock, today)
      ensures ok <==> sent.Some? && transportOk
      ensures tasks == AfterPush(old(tasks), settings, task, action, transportOk)
      ensures ok && action != Test ==> tasks == MarkSynced(old(tasks), task.id)
      ensures !ok || action == Test ==> tasks == old(tasks)
      ensures settings == old(settings)
    {
      sent := PushRequest(settings, task, action, clock, today);
      ok := sent.Some? && transportOk;
      tasks := AfterPush(tasks, settings, task, action, transportOk);
    }

    /** `pullFromCloud` (App.tsx:63-87): the request it sends, if any, and the new job list. */
    method PullFromCloud(response: PullResponse) returns (requested: Option<string>)
      modifies this
      ensures requested == PullUrl(settings)
      ensures tasks == AfterPull(old(tasks), settings, response)
      ensures settings == old(settings)
    {
      requested := PullUrl(settings);
      tasks := AfterPull(tasks, settings, response);
    }

    /** The list handed to the job table for a filter (App.tsx:221). */
    function VisibleTasks(f: StatusFilter): (r: seq<Task>)
      reads this
      ensures f == Todas ==> r == tasks
      ensures f.Only? ==> forall i :: 0 <= i < |r| ==> r[i].status == f.status
      ensures f.Only? ==> forall t :: multiset(r)[t] == if t.status == f.status then multiset(tasks)[t] else 0
    {
      View(tasks, f)
    }
  }

  /**
   * A new job, then a status change, then its push acknowledged: the job
   * sits in front with the new status and synced, the rest is unchanged.
   */
  method AddUpdateAck(app: App, data: TaskInput, id: string, createdAt: nat, s: TaskStatus)
    requires !HasId(app.tasks, id)
    requires app.settings.googleSheetEnabled && Text.Contains(app.settings.googleSheetWebhookUrl, ExecMarker)
    modifies app
    ensures app.tasks == [NewTask(data, id, createdAt).(status := s, syncedToSheet := true)] + old(app.tasks)
  {
    var t := app.AddTask(data, id, createdAt);
    app.UpdateTaskStatus(id, s);
    var ok, sent := app.SyncToGoogleSheet(Loose(t.(status := s)), Update, "0", "", true);
    assert ok;
    UpdateThenAck(Prepend(old(app.tasks), t), id, s);
    AckUnknownId(old(app.tasks), id);
    UpdateUnknownId(old(app.tasks), id, s);
    assert app.tasks[1..] == old(app.tasks);
  }
}
