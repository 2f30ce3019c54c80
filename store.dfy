/** The assistant's store and facade (`RandyAI` in core/randy_ai.py): a SQLite
    file with a memory table, a learning table and a task table, and an
    in-process mirror of the memory table and of the learning events recorded
    by this instance. */
module Store {
  import opened Prelude
  import opened Dicts
  import opened PyValues

  // ===================== the user profile =====================

  /** `UserPreferences`, which the assistant always builds with its defaults. */
  datatype Preferences = Preferences(
    name: string,
    location: string,
    zipCode: string,
    vehicle: string,
    work: seq<string>,
    interests: seq<string>,
    tonePreference: string,
    codeLimit: int)

  const DefaultPreferences: Preferences := Preferences(
    "Randy Jordan", "Mobile, Alabama", "36605", "2020 Toyota Corolla LE",
    ["Uber", "Lyft", "Spark", "DoorDash"],
    ["AI Development", "Car Mods", "Tech Gadgets", "Gaming", "Self-Defense"],
    "snarky_sardonic_expert", 4000)

  function StrList(items: seq<string>): PyValue
  {
    PList(seq(|items|, i requires 0 <= i < |items| => PStr(items[i])))
  }

  /** `preferences.__dict__` */
  function PreferencesValue(p: Preferences): PyValue
  {
    PDict(Dict(
      ["name", "location", "zip_code", "vehicle", "work", "interests", "tone_preference", "code_limit"],
      map["name" := PStr(p.name),
          "location" := PStr(p.location),
          "zip_code" := PStr(p.zipCode),
          "vehicle" := PStr(p.vehicle),
          "work" := StrList(p.work),
          "interests" := StrList(p.interests),
          "tone_preference" := PStr(p.tonePreference),
          "code_limit" := PInt(p.codeLimit)]))
  }

  // ===================== the database file =====================

  /** A row of the memory table; `value` is the stored text. */
  datatype MemoryRow = MemoryRow(key: string, value: string, category: string)

  /** A row of the learning table. */
  datatype LearningRow = LearningRow(input: string, output: string, score: real)

  /** A row of the task table; `id` is the SQLite rowid. */
  datatype Task = Task(
    id: nat,
    title: string,
    description: string,
    status: string,
    priority: int,
    due: Option<Instant>,
    createdAt: Instant)

  /** The SQLite file, each table in rowid order. */
  datatype Database = Database(
    memoryRows: seq<MemoryRow>,
    learningRows: seq<LearningRow>,
    taskRows: seq<Task>)

  const PendingStatus: string := "pending"
  /** The priority `create_task` gives a task when the caller names none. */
  const DefaultPriority: int := 5

  // ----- memory table -----

  /** The `key TEXT UNIQUE` constraint. */
  ghost predicate UniqueKeys(rows: seq<MemoryRow>)
  {
    forall i, j :: 0 <= i < j < |rows| ==> rows[i].key != rows[j].key
  }

  function KeysOf(rows: seq<MemoryRow>): (ks: seq<string>)
    ensures |ks| == |rows|
    ensures forall i :: 0 <= i < |rows| ==> ks[i] == rows[i].key
  {
    seq(|rows|, i requires 0 <= i < |rows| => rows[i].key)
  }

  function RowKeys(rows: seq<MemoryRow>): set<string>
  {
    set row | row in rows :: row.key
  }

  lemma RowKeysAppend(a: seq<MemoryRow>, b: seq<MemoryRow>)
    ensures RowKeys(a + b) == RowKeys(a) + RowKeys(b)
  {
    forall k | k in RowKeys(a + b) ensures k in RowKeys(a) + RowKeys(b) {
      var row :| row in a + b && row.key == k;
    }
  }

  lemma RowKeysSingle(row: MemoryRow)
    ensures RowKeys([row]) == {row.key}
  {
    assert row in [row];
  }

  /** The rows whose key is not `key`, in their order. */
  function WithoutKey(rows: seq<MemoryRow>, key: string): (r: seq<MemoryRow>)
    ensures forall row :: row in r <==> row in rows && row.key != key
    ensures RowKeys(r) == RowKeys(rows) - {key}
  {
    if rows == [] then []
    else
      var rest := WithoutKey(rows[1..], key);
      assert rows == [rows[0]] + rows[1..];
      RowKeysAppend([rows[0]], rows[1..]);
      if rows[0].key == key then rest
      else
        RowKeysAppend([rows[0]], rest);
        [rows[0]] + rest
  }

  /** Filtering keeps the keys of the remaining rows unique. */
  lemma {:induction false} WithoutKeyUnique(rows: seq<MemoryRow>, key: string)
    requires UniqueKeys(rows)
    ensures UniqueKeys(WithoutKey(rows, key))
  {
    if rows != [] {
      var tail := rows[1..];
      UniqueKeysTail(rows);
      WithoutKeyUnique(tail, key);
      var rest := WithoutKey(tail, key);
      if rows[0].key != key {
        var r := [rows[0]] + rest;
        forall i, j | 0 <= i < j < |r| ensures r[i].key != r[j].key {
          if i == 0 {
            assert r[j] == rest[j - 1] && r[j] in tail;
          } else {
            assert r[i] == rest[i - 1] && r[j] == rest[j - 1];
          }
        }
      }
    }
  }

  /** The rows after the first keep unique keys, none of them the first's. */
  lemma UniqueKeysTail(rows: seq<MemoryRow>)
    requires UniqueKeys(rows) && rows != []
    ensures UniqueKeys(rows[1..])
    ensures forall row :: row in rows[1..] ==> row.key != rows[0].key
  {
    var tail := rows[1..];
    forall i, j | 0 <= i < j < |tail| ensures tail[i].key != tail[j].key {
      assert tail[i] == rows[i + 1] && tail[j] == rows[j + 1];
    }
    forall row | row in tail ensures row.key != rows[0].key {
      var k :| 0 <= k < |tail| && tail[k] == row;
      assert rows[k + 1] == row;
    }
  }

  /** `INSERT OR REPLACE INTO memory (key, value, category)`: the row holding
      `key`, if any, is deleted and the new row is inserted with a fresh,
      larger rowid, so it comes last in rowid order. */
  function SaveRow(rows: seq<MemoryRow>, key: string, text: string, category: string): (r: seq<MemoryRow>)
    ensures |r| > 0 && r[|r| - 1] == MemoryRow(key, text, category)
    ensures r[..|r| - 1] == WithoutKey(rows, key)
    ensures RowKeys(r) == RowKeys(rows) + {key}
  {
    var kept := WithoutKey(rows, key);
    var r := kept + [MemoryRow(key, text, category)];
    assert r[..|r| - 1] == kept;
    RowKeysAppend(kept, [MemoryRow(key, text, category)]);
    r
  }

  /** The key constraint holds after an insert-or-replace. */
  lemma SaveRowUnique(rows: seq<MemoryRow>, key: string, text: string, category: string)
    requires UniqueKeys(rows)
    ensures UniqueKeys(SaveRow(rows, key, text, category))
  {
    var r := SaveRow(rows, key, text, category);
    var kept := WithoutKey(rows, key);
    WithoutKeyUnique(rows, key);
    forall i, j | 0 <= i < j < |r| ensures r[i].key != r[j].key {
      assert r[i] == kept[i];
      if j < |r| - 1 { assert r[j] == kept[j]; }
      else { assert r[i] in kept; }
    }
  }

  /** The mirror after the loop of `load_memory` has run over `rows` starting
      from `d`: each row's key is set to its decoded text, in rowid order. */
  function LoadRows(c: JsonCodec, d: Dict<PyValue>, rows: seq<MemoryRow>): (r: Dict<PyValue>)
    requires d.Valid()
    ensures r.Valid()
  {
    if rows == [] then d
    else LoadRows(c, d, rows[..|rows| - 1]).Put(rows[|rows| - 1].key, Decode(c, rows[|rows| - 1].value))
  }

  /** The mirror ends up holding its old keys and the keys of the table. */
  lemma {:induction false} LoadRowsKeys(c: JsonCodec, d: Dict<PyValue>, rows: seq<MemoryRow>)
    requires d.Valid()
    ensures LoadRows(c, d, rows).vals.Keys == d.vals.Keys + RowKeys(rows)
  {
    if rows != [] {
      var prefix := rows[..|rows| - 1];
      var last := rows[|rows| - 1];
      assert rows == prefix + [last];
      LoadRowsKeys(c, d, prefix);
      RowKeysAppend(prefix, [last]);
      RowKeysSingle(last);
    }
  }

  /** Every row's key reads back as its decoded text; other keys keep what the
      mirror held before. */
  lemma {:induction false} LoadRowsGet(c: JsonCodec, d: Dict<PyValue>, rows: seq<MemoryRow>)
    requires d.Valid() && UniqueKeys(rows)
    ensures forall i :: 0 <= i < |rows| ==>
      LoadRows(c, d, rows).Get(rows[i].key) == Some(Decode(c, rows[i].value))
    ensures forall k :: k !in RowKeys(rows) ==> LoadRows(c, d, rows).Get(k) == d.Get(k)
  {
    if rows != [] {
      var prefix := rows[..|rows| - 1];
      var last := rows[|rows| - 1];
      assert rows == prefix + [last];
      RowKeysAppend(prefix, [last]);
      assert UniqueKeys(prefix) by {
        forall i, j | 0 <= i < j < |prefix| ensures prefix[i].key != prefix[j].key {
          assert prefix[i] == rows[i] && prefix[j] == rows[j];
        }
      }
      LoadRowsGet(c, d, prefix);
      forall i | 0 <= i < |rows| - 1
        ensures LoadRows(c, d, rows).Get(rows[i].key) == Some(Decode(c, rows[i].value))
      {
        assert rows[i] == prefix[i];
        assert rows[i].key != last.key;
      }
    }
  }

  /** Loading into an empty mirror lists the keys in rowid order. */
  lemma {:induction false} LoadRowsOrder(c: JsonCodec, rows: seq<MemoryRow>)
    requires UniqueKeys(rows)
    ensures LoadRows(c, Empty(), rows).keys == KeysOf(rows)
  {
    if rows != [] {
      var prefix := rows[..|rows| - 1];
      var last := rows[|rows| - 1];
      assert rows == prefix + [last];
      assert UniqueKeys(prefix) by {
        forall i, j | 0 <= i < j < |prefix| ensures prefix[i].key != prefix[j].key {
          assert prefix[i] == rows[i] && prefix[j] == rows[j];
        }
      }
      LoadRowsOrder(c, prefix);
      var before := LoadRows(c, Empty(), prefix);
      var kp := KeysOf(prefix);
      assert before.keys == kp;
      assert last.key !in kp by {
        forall i | 0 <= i < |prefix| ensures kp[i] != last.key {
          assert kp[i] == prefix[i].key == rows[i].key;
        }
      }
      assert last.key !in before.vals;
      assert LoadRows(c, Empty(), rows) == before.Put(last.key, Decode(c, last.value));
      assert KeysOf(rows) == kp + [last.key];
    }
  }

  /** The loop of `load_memory`: each row, in rowid order, decoded into `d`. */
  method LoadInto(c: JsonCodec, d: Dict<PyValue>, rows: seq<MemoryRow>) returns (r: Dict<PyValue>)
    requires d.Valid()
    ensures r == LoadRows(c, d, rows)
  {
    r := d;
    var i := 0;
    while i < |rows|
      invariant 0 <= i <= |rows|
      invariant r == LoadRows(c, d, rows[..i])
    {
      LoadRowsStep(c, d, rows, i);
      r := r.Put(rows[i].key, Decode(c, rows[i].value));
      i := i + 1;
    }
    assert rows[..i] == rows;
  }

  lemma LoadRowsStep(c: JsonCodec, d: Dict<PyValue>, rows: seq<MemoryRow>, i: nat)
    requires d.Valid() && i < |rows|
    ensures LoadRows(c, d, rows[..i + 1]) == LoadRows(c, d, rows[..i]).Put(rows[i].key, Decode(c, rows[i].value))
  {
    var done := rows[..i + 1];
    assert done[..|done| - 1] == rows[..i] && done[|done| - 1] == rows[i];
  }

  /** Saving a value and opening the file afresh: the key reads back as the
      value's stored text decoded, and comes last, whatever place it had in
      the mirror of the instance that saved it. */
  lemma SaveThenReload(c: JsonCodec, rows: seq<MemoryRow>, key: string, v: PyValue, category: string)
    requires Lawful(c) && UniqueKeys(rows)
    ensures LoadRows(c, Empty(), SaveRow(rows, key, Encode(c, v), category)).Get(key) == Some(Reloaded(c, v))
    ensures LoadRows(c, Empty(), SaveRow(rows, key, Encode(c, v), category)).keys
         == KeysOf(WithoutKey(rows, key)) + [key]
  {
    var saved := SaveRow(rows, key, Encode(c, v), category);
    SaveRowUnique(rows, key, Encode(c, v), category);
    LoadRowsGet(c, Empty(), saved);
    assert saved[|saved| - 1].key == key;
    LoadRowsOrder(c, saved);
    assert KeysOf(saved) == KeysOf(saved[..|saved| - 1]) + [key];
  }

  /** A dict of a boolean and a timestamp string, saved by one instance, is
      what a fresh instance finds under its key. */
  lemma FlagAndStampSurviveReload(c: JsonCodec, rows: seq<MemoryRow>, key: string, flag: bool, stamp: string)
    requires Lawful(c) && UniqueKeys(rows)
    ensures var v := PDict(Dict(["test", "timestamp"], map["test" := PBool(flag), "timestamp" := PStr(stamp)]));
      LoadRows(c, Empty(), SaveRow(rows, key, Encode(c, v), "test")).Get(key) == Some(v)
  {
    var v := PDict(Dict(["test", "timestamp"], map["test" := PBool(flag), "timestamp" := PStr(stamp)]));
    assert ['t', 'e', 's', 't'] != ['t', 'i', 'm', 'e', 's', 't', 'a', 'm', 'p'];
    assert FloatFree(v);
    SaveThenReload(c, rows, key, v, "test");
  }

  // ----- learning table -----

  /** An entry of the in-process learning list `learning_data`. */
  datatype LearningRecord = LearningRecord(input: string, output: string, success: real, timestamp: Instant)

  function RowsOf(log: seq<LearningRecord>): (rows: seq<LearningRow>)
    ensures |rows| == |log|
    ensures forall i :: 0 <= i < |log| ==>
      rows[i] == LearningRow(log[i].input, log[i].output, log[i].success)
  {
    seq(|log|, i requires 0 <= i < |log| => LearningRow(log[i].input, log[i].output, log[i].success))
  }

  /** `[l for l in learning_data if (now - l['timestamp']).days < days]` */
  function Recent(log: seq<LearningRecord>, now: Instant, days: int): (r: seq<LearningRecord>)
    ensures forall x :: x in r <==> x in log && DaysBetween(x.timestamp, now) < days
    ensures |r| <= |log|
  {
    if log == [] then []
    else
      assert log == [log[0]] + log[1..];
      (if DaysBetween(log[0].timestamp, now) < days then [log[0]] else []) + Recent(log[1..], now, days)
  }

  /** The positions of the records younger than `days` whole days. */
  ghost function FreshIndices(log: seq<LearningRecord>, now: Instant, days: int): set<nat>
  {
    set i: nat | i < |log| && DaysBetween(log[i].timestamp, now) < days
  }

  /** The filter keeps one record per fresh position. */
  lemma {:induction false} RecentCount(log: seq<LearningRecord>, now: Instant, days: int)
    ensures |Recent(log, now, days)| == |FreshIndices(log, now, days)|
    decreases |log|
  {
    if log != [] {
      var p := log[..|log| - 1];
      var x := log[|log| - 1];
      assert log == p + [x];
      RecentAppend(p, [x], now, days);
      RecentSingle(x, now, days);
      RecentCount(p, now, days);
      FreshIndicesSnoc(p, x, now, days);
    }
  }

  lemma RecentSingle(x: LearningRecord, now: Instant, days: int)
    ensures Recent([x], now, days) == if DaysBetween(x.timestamp, now) < days then [x] else []
  {
    assert [x][1..] == [];
  }

  /** One more record adds its position when it is fresh, and nothing otherwise. */
  lemma FreshIndicesSnoc(p: seq<LearningRecord>, x: LearningRecord, now: Instant, days: int)
    ensures |p| !in FreshIndices(p, now, days)
    ensures FreshIndices(p + [x], now, days)
         == FreshIndices(p, now, days) + (if DaysBetween(x.timestamp, now) < days then {|p|} else {})
  {
    var log := p + [x];
    forall i: nat
      ensures i in FreshIndices(log, now, days)
          <==> i in FreshIndices(p, now, days) + (if DaysBetween(x.timestamp, now) < days then {|p|} else {})
    {
      if i < |p| { assert log[i] == p[i]; }
    }
  }

  /** Filtering `a + b` filters `a` and `b` in turn. */
  lemma {:induction false} RecentAppend(a: seq<LearningRecord>, b: seq<LearningRecord>, now: Instant, days: int)
    ensures Recent(a + b, now, days) == Recent(a, now, days) + Recent(b, now, days)
  {
    if a != [] {
      assert (a + b)[1..] == a[1..] + b;
      RecentAppend(a[1..], b, now, days);
    } else {
      assert a + b == b;
    }
  }

  // ----- task table -----

  /** Rowids as SQLite hands them out when no row is ever deleted: positive and
      increasing in insertion order. */
  ghost predicate IdsIncreasing(rows: seq<Task>)
  {
    && (forall i :: 0 <= i < |rows| ==> rows[i].id >= 1)
    && (forall i, j :: 0 <= i < j < |rows| ==> rows[i].id < rows[j].id)
  }

  ghost predicate DistinctIds(tasks: seq<Task>)
  {
    forall i, j :: 0 <= i < j < |tasks| ==> tasks[i].id != tasks[j].id
  }

  /** The rowid of the next insert: one more than the largest so far, 1 for an
      empty table. */
  function NextId(rows: seq<Task>): (id: nat)
    ensures IdsIncreasing(rows) ==> forall t :: t in rows ==> t.id < id
    ensures id >= 1
  {
    if rows == [] then 1 else rows[|rows| - 1].id + 1
  }

  /** The table after `INSERT INTO tasks (title, description, priority, due_date)`. */
  function AddTask(rows: seq<Task>, title: string, description: string, priority: int,
                   due: Option<Instant>, now: Instant): (r: seq<Task>)
    ensures IdsIncreasing(rows) ==> IdsIncreasing(r)
    ensures |r| == |rows| + 1 && r[..|rows|] == rows
    ensures r[|rows|] == Task(NextId(rows), title, description, PendingStatus, priority, due, now)
  {
    rows + [Task(NextId(rows), title, description, PendingStatus, priority, due, now)]
  }

  /** The arguments of one `create_task` call. */
  datatype TaskSpec = TaskSpec(title: string, description: string, priority: int, due: Option<Instant>)

  /** The table after one `create_task` call per spec, in order, all at `now`. */
  function AddTasks(rows: seq<Task>, specs: seq<TaskSpec>, now: Instant): seq<Task>
  {
    if specs == [] then rows
    else
      var last := specs[|specs| - 1];
      AddTask(AddTasks(rows, specs[..|specs| - 1], now), last.title, last.description, last.priority, last.due, now)
  }

  /** The rows already there are untouched, one row is added per spec and the
      next id has moved on by the number of specs. */
  lemma {:induction false} AddTasksShape(rows: seq<Task>, specs: seq<TaskSpec>, now: Instant)
    ensures |AddTasks(rows, specs, now)| == |rows| + |specs|
    ensures AddTasks(rows, specs, now)[..|rows|] == rows
    ensures NextId(AddTasks(rows, specs, now)) == NextId(rows) + |specs|
  {
    if specs != [] {
      var prefix := specs[..|specs| - 1];
      var last := specs[|specs| - 1];
      AddTasksShape(rows, prefix, now);
      var before := AddTasks(rows, prefix, now);
      var r := AddTask(before, last.title, last.description, last.priority, last.due, now);
      assert r[..|rows|] == before[..|rows|];
    }
  }

  /** Inserting several tasks keeps the ids increasing. */
  lemma {:induction false} AddTasksIds(rows: seq<Task>, specs: seq<TaskSpec>, now: Instant)
    requires IdsIncreasing(rows)
    ensures IdsIncreasing(AddTasks(rows, specs, now))
  {
    if specs != [] {
      AddTasksIds(rows, specs[..|specs| - 1], now);
    }
  }

  /** Each spec becomes exactly one new pending row, in order, with
      consecutive fresh ids. */
  lemma {:induction false} AddTasksRows(rows: seq<Task>, specs: seq<TaskSpec>, now: Instant)
    ensures |AddTasks(rows, specs, now)| == |rows| + |specs|
    ensures forall i :: 0 <= i < |specs| ==>
      AddTasks(rows, specs, now)[|rows| + i]
        == Task(NextId(rows) + i, specs[i].title, specs[i].description,
                PendingStatus, specs[i].priority, specs[i].due, now)
  {
    AddTasksShape(rows, specs, now);
    if specs != [] {
      var prefix := specs[..|specs| - 1];
      var last := specs[|specs| - 1];
      AddTasksRows(rows, prefix, now);
      AddTasksShape(rows, prefix, now);
      var before := AddTasks(rows, prefix, now);
      var r := AddTask(before, last.title, last.description, last.priority, last.due, now);
      assert r[..|before|] == before;
      forall i | 0 <= i < |specs|
        ensures r[|rows| + i] == Task(NextId(rows) + i, specs[i].title, specs[i].description,
                                      PendingStatus, specs[i].priority, specs[i].due, now)
      {
        if i < |prefix| {
          assert specs[i] == prefix[i];
          assert r[|rows| + i] == before[|rows| + i];
        }
      }
    }
  }

  /** Strictly earlier under `ORDER BY due_date ASC`, where SQLite puts NULL first. */
  predicate DueFirst(a: Option<Instant>, b: Option<Instant>)
  {
    (a.None? && b.Some?) || (a.Some? && b.Some? && a.value < b.value)
  }

  /** `a` is listed before `b` by `ORDER BY priority DESC, due_date ASC`; the
      rowid settles the ties SQL leaves open. */
  predicate Precedes(a: Task, b: Task)
  {
    || a.priority > b.priority
    || (a.priority == b.priority && DueFirst(a.due, b.due))
    || (a.priority == b.priority && a.due == b.due && a.id < b.id)
  }

  ghost predicate QueueOrdered(s: seq<Task>)
  {
    forall i, j :: 0 <= i < j < |s| ==> Precedes(s[i], s[j])
  }

  /** `WHERE status = 'pending'`, in rowid order. */
  function PendingRows(rows: seq<Task>): (r: seq<Task>)
    ensures forall t :: t in r <==> t in rows && t.status == PendingStatus
    ensures |r| <= |rows|
  {
    if rows == [] then []
    else
      assert rows == [rows[0]] + rows[1..];
      (if rows[0].status == PendingStatus then [rows[0]] else []) + PendingRows(rows[1..])
  }

  lemma IdsIncreasingCons(t: Task, s: seq<Task>)
    requires t.id >= 1 && IdsIncreasing(s)
    requires forall u :: u in s ==> t.id < u.id
    ensures IdsIncreasing([t] + s)
  {
    var r := [t] + s;
    forall i, j | 0 <= i < j < |r| ensures r[i].id < r[j].id {
      if i == 0 {
        assert r[j] == s[j - 1];
      } else {
        assert r[i] == s[i - 1] && r[j] == s[j - 1];
      }
    }
  }

  /** The pending rows keep the increasing rowids of the table. */
  lemma {:induction false} PendingRowsIds(rows: seq<Task>)
    requires IdsIncreasing(rows)
    ensures IdsIncreasing(PendingRows(rows))
  {
    if rows != [] {
      var tail := rows[1..];
      assert IdsIncreasing(tail) by {
        forall i, j | 0 <= i < j < |tail| ensures tail[i].id < tail[j].id {
          assert tail[i] == rows[i + 1] && tail[j] == rows[j + 1];
        }
      }
      PendingRowsIds(tail);
      var rest := PendingRows(tail);
      if rows[0].status == PendingStatus {
        forall u | u in rest ensures rows[0].id < u.id {
          var k :| 0 <= k < |tail| && tail[k] == u;
          assert rows[k + 1] == u;
        }
        IdsIncreasingCons(rows[0], rest);
      }
    }
  }

  /** Places `t` in front of the first task it precedes. */
  function Insert(t: Task, s: seq<Task>): (r: seq<Task>)
    ensures multiset(r) == multiset(s) + multiset{t}
  {
    if s == [] || Precedes(t, s[0]) then [t] + s
    else
      assert s == [s[0]] + s[1..];
      [s[0]] + Insert(t, s[1..])
  }

  function QueueSort(s: seq<Task>): (r: seq<Task>)
    ensures multiset(r) == multiset(s)
  {
    if s == [] then []
    else
      assert s == [s[0]] + s[1..];
      Insert(s[0], QueueSort(s[1..]))
  }

  /** `SELECT ... FROM tasks WHERE status = 'pending' ORDER BY priority DESC, due_date ASC` */
  function PendingTasks(rows: seq<Task>): (r: seq<Task>)
    ensures multiset(r) == multiset(PendingRows(rows))
  {
    QueueSort(PendingRows(rows))
  }

  lemma PrecedesTransitive(a: Task, b: Task, c: Task)
    requires Precedes(a, b) && Precedes(b, c)
    ensures Precedes(a, c)
  {
  }

  /** Two tasks with different ids are ordered one way or the other. */
  lemma PrecedesTotal(a: Task, b: Task)
    requires a.id != b.id && !Precedes(a, b)
    ensures Precedes(b, a)
  {
  }

  /** Putting in front a task that precedes the head keeps the queue ordered. */
  lemma ConsOrdered(t: Task, s: seq<Task>)
    requires QueueOrdered(s)
    requires s == [] || Precedes(t, s[0])
    ensures QueueOrdered([t] + s)
  {
    var r := [t] + s;
    forall i, j | 0 <= i < j < |r| ensures Precedes(r[i], r[j]) {
      if i == 0 {
        assert r[j] == s[j - 1];
        if j > 1 {
          PrecedesTransitive(t, s[0], s[j - 1]);
        }
      } else {
        assert r[i] == s[i - 1] && r[j] == s[j - 1];
      }
    }
  }

  lemma {:induction false} InsertOrdered(t: Task, s: seq<Task>)
    requires QueueOrdered(s)
    requires forall u :: u in s ==> u.id != t.id
    ensures QueueOrdered(Insert(t, s))
  {
    if s == [] || Precedes(t, s[0]) {
      ConsOrdered(t, s);
    } else {
      assert s[0] in s;
      PrecedesTotal(t, s[0]);
      var rest := s[1..];
      assert QueueOrdered(rest) by {
        forall i, j | 0 <= i < j < |rest| ensures Precedes(rest[i], rest[j]) {
          assert rest[i] == s[i + 1] && rest[j] == s[j + 1];
        }
      }
      forall u | u in rest ensures u.id != t.id {
        var k :| 0 <= k < |rest| && rest[k] == u;
        assert s[k + 1] == u;
      }
      InsertOrdered(t, rest);
      var tail := Insert(t, rest);
      assert tail != [] by { assert t in multiset(tail); }
      assert Precedes(s[0], tail[0]) by {
        var u := tail[0];
        assert u in multiset(tail);
        assert u in multiset(rest) + multiset{t};
        if u != t {
          assert u in rest;
          var k :| 0 <= k < |rest| && rest[k] == u;
          assert s[k + 1] == u;
        }
      }
      ConsOrdered(s[0], tail);
    }
  }

  lemma {:induction false} QueueSortOrdered(s: seq<Task>)
    requires DistinctIds(s)
    ensures QueueOrdered(QueueSort(s))
  {
    if s != [] {
      var tail := s[1..];
      assert DistinctIds(tail) by {
        forall i, j | 0 <= i < j < |tail| ensures tail[i].id != tail[j].id {
          assert tail[i] == s[i + 1] && tail[j] == s[j + 1];
        }
      }
      QueueSortOrdered(tail);
      forall u | u in QueueSort(tail) ensures u.id != s[0].id {
        assert u in multiset(QueueSort(tail));
        assert u in tail;
        var k :| 0 <= k < |tail| && tail[k] == u;
        assert s[k + 1] == u;
      }
      InsertOrdered(s[0], QueueSort(tail));
    }
  }

  /** Two orderings of the same tasks that both follow the queue order are the
      same list: the order is total on tasks with distinct ids. */
  lemma {:induction false} QueueOrderUnique(a: seq<Task>, b: seq<Task>)
    requires QueueOrdered(a) && QueueOrdered(b) && multiset(a) == multiset(b)
    ensures a == b
  {
    if a != [] {
      QueueHeadsEqual(a, b);
      QueueOrderedTail(a);
      QueueOrderedTail(b);
      assert a == [a[0]] + a[1..] && b == [b[0]] + b[1..];
      assert multiset(a[1..]) == multiset(a) - multiset{a[0]};
      assert multiset(b[1..]) == multiset(b) - multiset{b[0]};
      QueueOrderUnique(a[1..], b[1..]);
    }
  }

  /** Two queue-ordered lists of the same tasks start with the same task. */
  lemma QueueHeadsEqual(a: seq<Task>, b: seq<Task>)
    requires QueueOrdered(a) && QueueOrdered(b) && multiset(a) == multiset(b) && a != []
    ensures b != [] && a[0] == b[0]
  {
    assert |b| == |multiset(b)| == |multiset(a)| == |a|;
    assert a[0] in multiset(b);
    var j :| 0 <= j < |b| && b[j] == a[0];
    assert b[0] in multiset(a);
    var i :| 0 <= i < |a| && a[i] == b[0];
    if i != 0 && j != 0 {
      assert false;
    }
  }

  lemma QueueOrderedTail(s: seq<Task>)
    requires QueueOrdered(s) && s != []
    ensures QueueOrdered(s[1..])
  {
    var t := s[1..];
    forall i, j | 0 <= i < j < |t| ensures Precedes(t[i], t[j]) {
      assert t[i] == s[i + 1] && t[j] == s[j + 1];
    }
  }

  /** What `get_pending_tasks` returns: exactly the pending rows, each once,
      in queue order. */
  lemma PendingTasksSpec(rows: seq<Task>)
    requires IdsIncreasing(rows)
    ensures QueueOrdered(PendingTasks(rows))
    ensures multiset(PendingTasks(rows)) == multiset(PendingRows(rows))
    ensures forall t :: t in PendingTasks(rows) <==> t in rows && t.status == PendingStatus
    ensures forall s :: QueueOrdered(s) && multiset(s) == multiset(PendingRows(rows)) ==> s == PendingTasks(rows)
  {
    var p := PendingRows(rows);
    PendingRowsIds(rows);
    assert DistinctIds(p);
    QueueSortOrdered(p);
    forall t ensures t in PendingTasks(rows) <==> t in p {
      assert t in PendingTasks(rows) <==> t in multiset(PendingTasks(rows));
      assert t in p <==> t in multiset(p);
    }
    forall s | QueueOrdered(s) && multiset(s) == multiset(p) ensures s == PendingTasks(rows) {
      QueueOrderUnique(s, PendingTasks(rows));
    }
  }

  /** A task just created is pending and is listed with its title and priority. */
  lemma CreatedTaskIsListed(rows: seq<Task>, title: string, description: string, priority: int,
                            due: Option<Instant>, now: Instant)
    requires IdsIncreasing(rows)
    ensures Task(NextId(rows), title, description, PendingStatus, priority, due, now)
         in PendingTasks(AddTask(rows, title, description, priority, due, now))
    ensures |PendingTasks(AddTask(rows, title, description, priority, due, now))| == |PendingTasks(rows)| + 1
  {
    var rows' := AddTask(rows, title, description, priority, due, now);
    var t := rows'[|rows|];
    PendingTasksSpec(rows');
    assert t in rows';
    assert PendingRows(rows') == PendingRows(rows) + [t] by { PendingRowsAppend(rows, t); }
    calc {
      |PendingTasks(rows')|;
      |multiset(PendingTasks(rows'))|;
      |multiset(PendingRows(rows'))|;
      |PendingRows(rows)| + 1;
      |multiset(PendingTasks(rows))| + 1;
    }
  }

  lemma {:induction false} PendingRowsAppend(rows: seq<Task>, t: Task)
    requires t.status == PendingStatus
    ensures PendingRows(rows + [t]) == PendingRows(rows) + [t]
  {
    if rows != [] {
      assert (rows + [t])[1..] == rows[1..] + [t];
      PendingRowsAppend(rows[1..], t);
    }
  }

  // ----- daily report -----

  /** `[t for t in tasks if t['priority'] >= 8]` */
  function HighPriority(tasks: seq<Task>): (r: seq<Task>)
    ensures forall t :: t in r <==> t in tasks && t.priority >= 8
    ensures |r| <= |tasks|
  {
    if tasks == [] then []
    else (if tasks[0].priority >= 8 then [tasks[0]] else []) + HighPriority(tasks[1..])
  }

  function Titles(tasks: seq<Task>): (r: seq<string>)
    ensures |r| == |tasks|
    ensures forall i :: 0 <= i < |tasks| ==> r[i] == tasks[i].title
  {
    seq(|tasks|, i requires 0 <= i < |tasks| => tasks[i].title)
  }

  /** `s[:n]` */
  function Take<T>(s: seq<T>, n: nat): (r: seq<T>)
    ensures |r| == if |s| < n then |s| else n
    ensures r == s[..|r|]
  {
    if |s| <= n then s else s[..n]
  }

  /** The titles the report lists: those of the first three high-priority
      pending tasks, in pending order; none when no pending task has priority 8
      or more. */
  function HighPriorityTitles(pending: seq<Task>): (r: seq<string>)
    ensures |r| <= 3 && |r| <= |HighPriority(pending)|
    ensures forall i :: 0 <= i < |r| ==> r[i] == HighPriority(pending)[i].title
    ensures |r| == 3 || |r| == |HighPriority(pending)|
    ensures r == [] <==> forall t :: t in pending ==> t.priority < 8
  {
    var high := HighPriority(pending);
    assert high == [] <==> forall t :: t in pending ==> t.priority < 8 by {
      if high != [] { assert high[0] in high; }
    }
    Titles(Take(high, 3))
  }

  /** The report line of one task. */
  function Bullet(title: string): string
  {
    "- " + title + "\n"
  }

  /** One `- {title}` line per title. */
  function Bullets(titles: seq<string>): string
  {
    if titles == [] then ""
    else Bullets(titles[..|titles| - 1]) + Bullet(titles[|titles| - 1])
  }

  const Rule: string := "========================================"

  function ReportHeader(date: string, pendingCount: nat, recentLearning: nat, memoryItems: nat): string
  {
    "Daily Update - " + date + "\n"
    + Rule + "\n\n"
    + "Pending Tasks: " + NatToString(pendingCount) + "\n"
    + "New Learning Items: " + NatToString(recentLearning) + "\n"
    + "Memory Items: " + NatToString(memoryItems) + "\n\n"
  }

  /** The high-priority part of the report; empty when there is nothing to list. */
  function HighPrioritySection(titles: seq<string>): string
  {
    if titles == [] then "" else "High Priority Tasks:\n" + Bullets(titles) + "\n"
  }

  /** The text of `daily_update`. */
  function DailyReport(date: string, pending: seq<Task>, recentLearning: nat, memoryItems: nat): (r: string)
    ensures var header := ReportHeader(date, |pending|, recentLearning, memoryItems);
      && |header| <= |r| && r[..|header|] == header
      && (r == header <==> forall t :: t in pending ==> t.priority < 8)
  {
    var header := ReportHeader(date, |pending|, recentLearning, memoryItems);
    var section := HighPrioritySection(HighPriorityTitles(pending));
    assert (header + section)[..|header|] == header;
    assert section == [] <==> HighPriorityTitles(pending) == [];
    assert |header + section| == |header| + |section|;
    header + section
  }

  /** What `get_status` reports. */
  datatype Status = Status(
    memoryItems: nat,
    learningItems: nat,
    pendingTasks: nat,
    lastUpdate: string,
    preferences: PyValue)

  // ===================== the facade =====================

  class RandyAI {
    const preferences: Preferences
    const json: JsonCodec
    /** The SQLite file. */
    var db: Database
    /** `self.memory`: the mirror of the memory table. */
    var memory: Dict<PyValue>
    /** `self.learning_data`: the learning events recorded by this instance. */
    var learningData: seq<LearningRecord>

    /** The mirror is a well-formed dict and the tables are well-formed. */
    ghost predicate TablesValid()
      reads this
    {
      memory.Valid() && Stored()
    }

    /** The table constraints, and the learning list being the tail of the
        learning table that this instance wrote. */
    ghost predicate Stored()
      reads this`db, this`learningData
    {
      && UniqueKeys(db.memoryRows)
      && IdsIncreasing(db.taskRows)
      && |learningData| <= |db.learningRows|
      && db.learningRows[|db.learningRows| - |learningData|..] == RowsOf(learningData)
    }

    /** In addition, the mirror holds exactly the keys of the memory table. */
    ghost predicate Valid()
      reads this
    {
      TablesValid() && memory.vals.Keys == RowKeys(db.memoryRows)
    }

    /** `RandyAI()` on the file `file`: the tables exist, the mirror is loaded
        from the memory table and the learning list starts empty. */
    constructor Open(file: Database, codec: JsonCodec)
      requires UniqueKeys(file.memoryRows) && IdsIncreasing(file.taskRows)
      ensures Valid()
      ensures preferences == DefaultPreferences && json == codec && db == file
      ensures memory == LoadRows(codec, Empty(), file.memoryRows)
      ensures learningData == []
    {
      preferences := DefaultPreferences;
      json := codec;
      db := file;
      memory := Empty();
      learningData := [];
      new;
      LoadMemory();
    }

    /** `load_memory`: every row of the memory table is decoded into the
        mirror, in rowid order, on top of what the mirror already holds. */
    method LoadMemory()
      requires TablesValid()
      modifies this`memory
      ensures TablesValid()
      ensures memory == LoadRows(json, old(memory), db.memoryRows)
      ensures memory.vals.Keys == old(memory.vals.Keys) + RowKeys(db.memoryRows)
    {
      LoadRowsKeys(json, memory, db.memoryRows);
      memory := LoadInto(json, memory, db.memoryRows);
    }

    /** `save_memory(key, value, category)` */
    method SaveMemory(key: string, value: PyValue, category: string := "general")
      requires Valid()
      modifies this`db, this`memory
      ensures Valid()
      ensures db == old(db).(memoryRows := SaveRow(old(db.memoryRows), key, Encode(json, value), category))
      ensures memory == old(memory).Put(key, value)
    {
      SaveRowUnique(db.memoryRows, key, Encode(json, value), category);
      db := db.(memoryRows := SaveRow(db.memoryRows, key, Encode(json, value), category));
      memory := memory.Put(key, value);
    }

    /** `learn_from_interaction(input, output, success)` at instant `now`. */
    method LearnFromInteraction(now: Instant, input: string, output: string, success: real := 1.0)
      requires Valid()
      modifies this`db, this`learningData
      ensures Valid()
      ensures db == old(db).(learningRows := old(db.learningRows) + [LearningRow(input, output, success)])
      ensures learningData == old(learningData) + [LearningRecord(input, output, success, now)]
    {
      ghost var n := |db.learningRows|;
      ghost var m := |learningData|;
      var record := LearningRecord(input, output, success, now);
      db := db.(learningRows := db.learningRows + [LearningRow(input, output, success)]);
      learningData := learningData + [record];
      assert db.learningRows[|db.learningRows| - |learningData|..]
          == old(db.learningRows)[n - m..] + [LearningRow(input, output, success)];
    }

    /** `create_task(title, description, priority, due_date)`, with `now` the
        insert's `CURRENT_TIMESTAMP`; returns the new rowid. */
    method CreateTask(now: Instant, title: string, description: string := "", priority: int := DefaultPriority,
                      due: Option<Instant> := None)
      returns (id: nat)
      requires Valid()
      modifies this`db
      ensures Valid()
      ensures id == NextId(old(db.taskRows))
      ensures forall t :: t in old(db.taskRows) ==> t.id < id
      ensures db == old(db).(taskRows := AddTask(old(db.taskRows), title, description, priority, due, now))
    {
      id := NextId(db.taskRows);
      db := db.(taskRows := AddTask(db.taskRows, title, description, priority, due, now));
    }

    /** `get_pending_tasks()` */
    method GetPendingTasks() returns (tasks: seq<Task>)
      requires Valid()
      ensures tasks == PendingTasks(db.taskRows)
      ensures QueueOrdered(tasks)
      ensures forall t :: t in tasks <==> t in db.taskRows && t.status == PendingStatus
    {
      PendingTasksSpec(db.taskRows);
      tasks := PendingTasks(db.taskRows);
    }

    /** `daily_update()`, on the date `clock.dashedDate`. */
    method DailyUpdate(clock: Clock) returns (report: string)
      requires Valid()
      ensures report == DailyReport(clock.dashedDate, PendingTasks(db.taskRows),
                                    |Recent(learningData, clock.now, 1)|, memory.Size())
    {
      var pendingTasks := GetPendingTasks();
      var recentLearning := |Recent(learningData, clock.now, 1)|;
      report := ReportHeader(clock.dashedDate, |pendingTasks|, recentLearning, memory.Size());
      var highPriority := HighPriority(pendingTasks);
      if highPriority != [] {
        var top := Take(highPriority, 3);
        var lines := "";
        var i := 0;
        while i < |top|
          invariant 0 <= i <= |top|
          invariant lines == Bullets(Titles(top[..i]))
        {
          ghost var listed := Titles(top[..i + 1]);
          assert listed[..|listed| - 1] == Titles(top[..i]) && listed[|listed| - 1] == top[i].title;
          lines := lines + Bullet(top[i].title);
          i := i + 1;
        }
        assert top[..i] == top;
        report := report + ("High Priority Tasks:\n" + lines + "\n");
      }
    }

    /** `get_status()`, stamped `clock.iso`. */
    method GetStatus(clock: Clock) returns (status: Status)
      requires Valid()
      ensures status.memoryItems == memory.Size()
      ensures status.learningItems == |learningData|
      ensures status.pendingTasks == |PendingTasks(db.taskRows)|
      ensures status.pendingTasks == |PendingRows(db.taskRows)|
      ensures status.lastUpdate == clock.iso
      ensures status.preferences == PreferencesValue(preferences)
    {
      var pendingTasks := GetPendingTasks();
      PendingTasksSpec(db.taskRows);
      assert |pendingTasks| == |multiset(pendingTasks)| == |multiset(PendingRows(db.taskRows))|;
      status := Status(memory.Size(), |learningData|, |pendingTasks|, clock.iso, PreferencesValue(preferences));
    }
  }
}
