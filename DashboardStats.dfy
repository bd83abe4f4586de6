/**
 * The dashboard's per-status counters (components/DashboardStats.tsx).
 */
module DashboardStats {
  import opened Types
  import opened Seqs
  import opened TaskRepo

  /** `tasks.filter(t => t.status === status).length` (DashboardStats.tsx:10). */
  function GetCount(ts: seq<Task>, s: TaskStatus): (n: nat)
    ensures n <= |ts|
    ensures ts == [] ==> n == 0
    ensures n == |View(ts, Only(s))|
  {
    |Filter(ts, HasStatus(s))|
  }

  /** A job in front adds one to the counter of its own status and nothing to the others. */
  lemma {:induction false} GetCountPrepend(ts: seq<Task>, t: Task, s: TaskStatus)
    ensures GetCount(Prepend(ts, t), s) == GetCount(ts, s) + (if t.status == s then 1 else 0)
  {
    FilterAppend([t], ts, HasStatus(s));
  }

  /** Counting works list by list: the counter of a concatenation is the sum of the counters. */
  lemma GetCountAppend(a: seq<Task>, b: seq<Task>, s: TaskStatus)
    ensures GetCount(a + b, s) == GetCount(a, s) + GetCount(b, s)
  {
    FilterAppend(a, b, HasStatus(s));
  }

  /** The counter is full exactly when every job has the status. */
  lemma {:induction false} GetCountFull(ts: seq<Task>, s: TaskStatus)
    ensures GetCount(ts, s) == |ts| <==> forall i :: 0 <= i < |ts| ==> ts[i].status == s
  {
    if ts != [] {
      var rest := ts[1..];
      assert ts == Prepend(rest, ts[0]);
      GetCountPrepend(rest, ts[0], s);
      GetCountFull(rest, s);
      if GetCount(ts, s) == |ts| {
        assert ts[0].status == s;
        forall i | 1 <= i < |ts| ensures ts[i].status == s { assert ts[i] == rest[i - 1]; }
      }
      if forall i :: 0 <= i < |ts| ==> ts[i].status == s {
        forall i | 0 <= i < |rest| ensures rest[i].status == s { assert rest[i] == ts[i + 1]; }
      }
    }
  }

  /** The counter is zero exactly when no job has the status. */
  lemma {:induction false} GetCountZero(ts: seq<Task>, s: TaskStatus)
    ensures GetCount(ts, s) == 0 <==> forall i :: 0 <= i < |ts| ==> ts[i].status != s
  {
    if ts != [] {
      var rest := ts[1..];
      assert ts == Prepend(rest, ts[0]);
      GetCountPrepend(rest, ts[0], s);
      GetCountZero(rest, s);
      if GetCount(ts, s) == 0 {
        assert ts[0].status != s;
        forall i | 1 <= i < |ts| ensures ts[i].status != s { assert ts[i] == rest[i - 1]; }
      }
      if forall i :: 0 <= i < |ts| ==> ts[i].status != s {
        forall i | 0 <= i < |rest| ensures rest[i].status != s { assert rest[i] == ts[i + 1]; }
      }
    }
  }

  /** The four counters cover every status, so together they count every job once. */
  lemma {:induction false} CountsSum(ts: seq<Task>)
    ensures GetCount(ts, Urgente) + GetCount(ts, Pendiente)
          + GetCount(ts, EnCorte) + GetCount(ts, Acabado) == |ts|
  {
    if ts != [] {
      assert ts == Prepend(ts[1..], ts[0]);
      GetCountPrepend(ts[1..], ts[0], Urgente);
      GetCountPrepend(ts[1..], ts[0], Pendiente);
      GetCountPrepend(ts[1..], ts[0], EnCorte);
      GetCountPrepend(ts[1..], ts[0], Acabado);
      CountsSum(ts[1..]);
    }
  }

  /** One tile of the dashboard: its caption and its number. */
  datatype Stat = Stat(caption: string, count: nat)

  /** `stats` (DashboardStats.tsx:12-17), without the colour and icon of each tile. */
  function Stats(ts: seq<Task>): (r: seq<Stat>)
    ensures |r| == 4
    ensures r[0].caption == "Urgentes" && r[1].caption == "Pendientes"
    ensures r[2].caption == "En Corte" && r[3].caption == "Acabados"
    ensures r[0].count + r[1].count + r[2].count + r[3].count == |ts|
  {
    CountsSum(ts);
    [ Stat("Urgentes", GetCount(ts, Urgente)),
      Stat("Pendientes", GetCount(ts, Pendiente)),
      Stat("En Corte", GetCount(ts, EnCorte)),
      Stat("Acabados", GetCount(ts, Acabado)) ]
  }

  /** Each tile shows how many jobs are in its status. */
  lemma StatsCount(ts: seq<Task>)
    ensures Stats(ts)[0].count == |View(ts, Only(Urgente))|
    ensures Stats(ts)[1].count == |View(ts, Only(Pendiente))|
    ensures Stats(ts)[2].count == |View(ts, Only(EnCorte))|
    ensures Stats(ts)[3].count == |View(ts, Only(Acabado))|
  {
  }

  /** A status update of an id that occurs once moves one job from its old status to the new one. */
  lemma GetCountAfterUpdate(ts: seq<Task>, k: nat, s: TaskStatus, c: TaskStatus)
    requires k < |ts|
    requires forall i :: 0 <= i < |ts| && i != k ==> ts[i].id != ts[k].id
    ensures GetCount(UpdateStatus(ts, ts[k].id, s), c) ==
      GetCount(ts, c) - (if ts[k].status == c then 1 else 0) + (if s == c then 1 else 0)
  {
    var id := ts[k].id;
    var a, x, b := ts[..k], ts[k], ts[k + 1..];
    assert ts == a + [x] + b;
    assert !HasId(a, id) by {
      forall i | 0 <= i < |a| ensures a[i].id != id { assert a[i] == ts[i]; }
    }
    assert !HasId(b, id) by {
      forall i | 0 <= i < |b| ensures b[i].id != id { assert b[i] == ts[k + 1 + i]; }
    }
    UpdateUnknownId(a, id, s);
    UpdateUnknownId(b, id, s);
    UpdateAppend(a + [x], b, id, s);
    UpdateAppend(a, [x], id, s);
    var y := UpdateStatus([x], id, s)[0];
    assert UpdateStatus([x], id, s) == [y];
    GetCountAppend(a + [x], b, c);
    GetCountAppend(a, [x], c);
    GetCountAppend(a + [y], b, c);
    GetCountAppend(a, [y], c);
    assert Prepend([], x) == [x] && Prepend([], y) == [y];
    GetCountPrepend([], x, c);
    GetCountPrepend([], y, c);
  }

  /** Deleting jobs never raises a counter. */
  lemma {:induction false} DeleteNeverRaises(ts: seq<Task>, id: string, s: TaskStatus)
    ensures GetCount(Delete(ts, id), s) <= GetCount(ts, s)
  {
    if ts != [] {
      var rest := ts[1..];
      assert ts == [ts[0]] + rest;
      DeleteAppend([ts[0]], rest, id);
      GetCountAppend(Delete([ts[0]], id), Delete(rest, id), s);
      GetCountAppend([ts[0]], rest, s);
      DeleteNeverRaises(rest, id, s);
      if ts[0].id == id {
        assert Delete([ts[0]], id) == [];
      } else {
        assert Delete([ts[0]], id) == [ts[0]];
      }
    }
  }
}
