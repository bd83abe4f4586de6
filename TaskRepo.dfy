/**
 * The job-list transformations of the planner's root component (App.tsx):
 * each is the expression the component passes to `setTasks`, or the list
 * it hands to the job table, written over immutable sequences.
 */
module TaskRepo {
  import opened Types
  import opened Seqs

  /** Does any job in the list carry this id? */
  predicate HasId(ts: seq<Task>, id: string)
  {
    exists i :: 0 <= i < |ts| && ts[i].id == id
  }

  /** `{ ...taskData, id, createdAt, syncedToSheet: false }` (App.tsx:128-133). */
  function NewTask(data: TaskInput, id: string, createdAt: nat): (t: Task)
    ensures t.id == id && t.createdAt == createdAt && !t.syncedToSheet
    ensures InputOf(t) == data
  {
    Task(id, data.montador, data.fecha, data.deliveryDate, data.hora, data.pedido,
         data.clientName, data.description, data.material, data.color, data.status,
         data.fileName, data.fileData, data.dxfFileName, data.dxfFileData,
         createdAt, false)
  }

  /** `[newTask, ...prev]` (App.tsx:134): the new job goes first, newest-first order. */
  function Prepend(ts: seq<Task>, t: Task): (r: seq<Task>)
    ensures |r| == |ts| + 1 && r[0] == t && r[1..] == ts
  {
    [t] + ts
  }

  /** The per-job step of `updateTaskStatus` (App.tsx:141-152). */
  function SetStatusIf(id: string, s: TaskStatus): Task -> Task
  {
    (t: Task) => if t.id == id then t.(status := s, syncedToSheet := false) else t
  }

  /** `prev.map(...)` of `updateTaskStatus` (App.tsx:140-155). */
  function UpdateStatus(ts: seq<Task>, id: string, s: TaskStatus): (r: seq<Task>)
    ensures |r| == |ts|
    ensures forall i :: 0 <= i < |ts| && ts[i].id == id ==>
      r[i].status == s && !r[i].syncedToSheet &&
      r[i].(status := ts[i].status, syncedToSheet := ts[i].syncedToSheet) == ts[i]
    ensures forall i :: 0 <= i < |ts| && ts[i].id != id ==> r[i] == ts[i]
  {
    Map(ts, SetStatusIf(id, s))
  }

  /** The test of `deleteTask`'s filter (App.tsx:160). */
  function OtherId(id: string): Task -> bool
  {
    (t: Task) => t.id != id
  }

  /** `prev.filter(t => t.id !== id)` (App.tsx:160): a physical removal. */
  function Delete(ts: seq<Task>, id: string): (r: seq<Task>)
    ensures forall i :: 0 <= i < |r| ==> r[i].id != id
    ensures forall t :: multiset(r)[t] == if t.id != id then multiset(ts)[t] else 0
  {
    Filter(ts, OtherId(id))
  }

  /** The per-job step of the push acknowledgement (App.tsx:118). */
  function SyncIf(id: string): Task -> Task
  {
    (t: Task) => if t.id == id then t.(syncedToSheet := true) else t
  }

  /** `prev.map(t => t.id === task.id ? { ...t, syncedToSheet: true } : t)` (App.tsx:118). */
  function MarkSynced(ts: seq<Task>, id: string): (r: seq<Task>)
    ensures |r| == |ts|
    ensures forall i :: 0 <= i < |ts| && ts[i].id == id ==>
      r[i].syncedToSheet && r[i].(syncedToSheet := ts[i].syncedToSheet) == ts[i]
    ensures forall i :: 0 <= i < |ts| && ts[i].id != id ==> r[i] == ts[i]
  {
    Map(ts, SyncIf(id))
  }

  /** `{ ...t, syncedToSheet: true }` of the pull (App.tsx:78). */
  function Synced(t: Task): Task
  {
    t.(syncedToSheet := true)
  }

  /** `cloudTasks.map(t => ({ ...t, syncedToSheet: true }))` (App.tsx:78). */
  function MarkAllSynced(items: seq<Task>): (r: seq<Task>)
    ensures |r| == |items|
    ensures forall i :: 0 <= i < |items| ==>
      r[i].syncedToSheet && r[i].(syncedToSheet := items[i].syncedToSheet) == items[i]
  {
    Map(items, Synced)
  }

  /** The status filter chosen with the buttons above the job table (App.tsx:19, 174). */
  datatype StatusFilter = Todas | Only(status: TaskStatus)

  /** The filter's test for one status (App.tsx:221). */
  function HasStatus(s: TaskStatus): Task -> bool
  {
    (t: Task) => t.status == s
  }

  /** `filter === 'TODAS' ? tasks : tasks.filter(t => t.status === filter)` (App.tsx:221). */
  function View(ts: seq<Task>, f: StatusFilter): (r: seq<Task>)
    ensures f == Todas ==> r == ts
    ensures f.Only? ==> forall i :: 0 <= i < |r| ==> r[i].status == f.status
    ensures f.Only? ==> forall t :: multiset(r)[t] == if t.status == f.status then multiset(ts)[t] else 0
  {
    match f
    case Todas => ts
    case Only(s) => Filter(ts, HasStatus(s))
  }

  /** The order of the filter buttons: 'TODAS' and then the enum's values (App.tsx:174). */
  const FilterChoices: seq<StatusFilter> :=
    [Todas, Only(Pendiente), Only(EnCorte), Only(Acabado), Only(Urgente)]

  /** Every status has its own filter button, after 'TODAS'. */
  lemma FilterChoicesCover(s: TaskStatus)
    ensures FilterChoices[0] == Todas
    ensures Only(s) in FilterChoices
  {
  }

  // ---------------------------------------------------------------------
  // Properties of the transformations

  /** Deleting from a list without the id returns the list unchanged. */
  lemma {:induction false} DeleteUnknownId(ts: seq<Task>, id: string)
    requires !HasId(ts, id)
    ensures Delete(ts, id) == ts
  {
    FilterKeepsAll(ts, OtherId(id));
  }

  /** Updating the status of an id that is not in the list changes nothing. */
  lemma UpdateUnknownId(ts: seq<Task>, id: string, s: TaskStatus)
    requires !HasId(ts, id)
    ensures UpdateStatus(ts, id, s) == ts
  {
    assert forall i :: 0 <= i < |ts| ==> UpdateStatus(ts, id, s)[i] == ts[i];
  }

  /** Acknowledging a push for an id that is not in the list changes nothing. */
  lemma AckUnknownId(ts: seq<Task>, id: string)
    requires !HasId(ts, id)
    ensures MarkSynced(ts, id) == ts
  {
    assert forall i :: 0 <= i < |ts| ==> MarkSynced(ts, id)[i] == ts[i];
  }

  /** A status update works job by job, so it distributes over concatenation. */
  lemma UpdateAppend(a: seq<Task>, b: seq<Task>, id: string, s: TaskStatus)
    ensures UpdateStatus(a + b, id, s) == UpdateStatus(a, id, s) + UpdateStatus(b, id, s)
  {
    var l := UpdateStatus(a + b, id, s);
    var r := UpdateStatus(a, id, s) + UpdateStatus(b, id, s);
    forall i | 0 <= i < |l| ensures l[i] == r[i] {
      if i < |a| {
        assert (a + b)[i] == a[i];
      } else {
        assert (a + b)[i] == b[i - |a|];
      }
    }
  }

  /** Two status updates of the same id: the later one wins. */
  lemma UpdateTwice(ts: seq<Task>, id: string, a: TaskStatus, b: TaskStatus)
    ensures UpdateStatus(UpdateStatus(ts, id, a), id, b) == UpdateStatus(ts, id, b)
  {
    var once := UpdateStatus(ts, id, a);
    forall i | 0 <= i < |ts|
      ensures UpdateStatus(once, id, b)[i] == UpdateStatus(ts, id, b)[i]
    {
      assert once[i].id == ts[i].id;
    }
  }

  /** A status update keeps every id in its place, so it does not change what a delete removes. */
  lemma {:induction false} DeleteAfterUpdate(ts: seq<Task>, id: string, s: TaskStatus)
    ensures Delete(UpdateStatus(ts, id, s), id) == Delete(ts, id)
  {
    if ts != [] {
      var u := UpdateStatus(ts, id, s);
      assert u == [u[0]] + u[1..] && ts == [ts[0]] + ts[1..];
      assert u[1..] == UpdateStatus(ts[1..], id, s);
      FilterAppend([u[0]], u[1..], OtherId(id));
      FilterAppend([ts[0]], ts[1..], OtherId(id));
      DeleteAfterUpdate(ts[1..], id, s);
      if ts[0].id == id {
        assert Filter([u[0]], OtherId(id)) == [] == Filter([ts[0]], OtherId(id));
      } else {
        assert u[0] == ts[0];
      }
    }
  }

  /** Adding a job with a fresh id and then deleting that id restores the list. */
  lemma AddThenDelete(ts: seq<Task>, t: Task)
    requires !HasId(ts, t.id)
    ensures Delete(Prepend(ts, t), t.id) == ts
  {
    FilterAppend([t], ts, OtherId(t.id));
    assert Filter([t], OtherId(t.id)) == [];
    DeleteUnknownId(ts, t.id);
  }

  /** Deleting from the concatenation of two lists keeps their relative order. */
  lemma DeleteAppend(a: seq<Task>, b: seq<Task>, id: string)
    ensures Delete(a + b, id) == Delete(a, id) + Delete(b, id)
  {
    FilterAppend(a, b, OtherId(id));
  }

  /**
   * Adding a job with a fresh id and then acknowledging its push marks that
   * job synced and leaves the older jobs as they were.
   */
  lemma AddThenAck(ts: seq<Task>, t: Task)
    requires !HasId(ts, t.id)
    ensures MarkSynced(Prepend(ts, t), t.id) == Prepend(ts, t.(syncedToSheet := true))
  {
    var r := MarkSynced(Prepend(ts, t), t.id);
    assert r[0] == t.(syncedToSheet := true);
    forall i | 1 <= i < |r| ensures r[i] == ts[i - 1] {
      assert Prepend(ts, t)[i] == ts[i - 1];
    }
  }

  /**
   * A status update followed by the acknowledgement of its push leaves every
   * job with that id in the new status and synced; the others are untouched.
   */
  lemma UpdateThenAck(ts: seq<Task>, id: string, s: TaskStatus)
    ensures |MarkSynced(UpdateStatus(ts, id, s), id)| == |ts|
    ensures forall i :: 0 <= i < |ts| ==>
      MarkSynced(UpdateStatus(ts, id, s), id)[i] ==
        if ts[i].id == id then ts[i].(status := s, syncedToSheet := true) else ts[i]
  {
  }

  /** The 'TODAS' view and the four status views together show each job exactly once. */
  lemma ViewsPartition(ts: seq<Task>, t: Task)
    ensures multiset(View(ts, Only(Pendiente)))[t] + multiset(View(ts, Only(EnCorte)))[t]
          + multiset(View(ts, Only(Acabado)))[t] + multiset(View(ts, Only(Urgente)))[t]
          == multiset(View(ts, Todas))[t]
  {
  }
}
