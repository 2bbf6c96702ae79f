/** Staging a batch: chunks of a thousand, each flattened into one argument list that the
    script walks nine fields at a time. */
module Batch {
  import opened Store
  import opened Scripts

  /** One task to stage, as the enqueuer hands it over. */
  datatype Task = Task(id: Id, payload: Payload, lane: nat, score: int, expire: int, reset: bool)

  /** What a position of ARGV can hold. */
  datatype Arg =
    | Number(n: int)
    | TaskKey(id: Id)
    | StreamKey(lane: nat)
    | DelayedKey(lane: nat)
    | Name(id: Id)
    | Packed(payload: Payload)
    | ResultKey(id: Id)
    | ResultsIndex

  const FIELDS: nat := 9
  const CHUNK: nat := 1000

  // ----- staging one by one

  function StageTask(db: Db, t: Task, now: int): Db
    requires t.lane < |db.lanes|
  {
    Stage(db, t.lane, t.id, t.payload, t.score, t.expire, now, t.reset)
  }

  ghost predicate InLanes(tasks: seq<Task>, lanes: nat) {
    forall i :: 0 <= i < |tasks| ==> tasks[i].lane < lanes
  }

  /** The state after staging `tasks` one after another. */
  ghost function StageAll(db: Db, tasks: seq<Task>, now: int): (r: Db)
    requires InLanes(tasks, |db.lanes|)
    ensures |r.lanes| == |db.lanes|
    decreases |tasks|
  {
    if tasks == [] then db
    else StageAll(StageTask(db, tasks[0], now), tasks[1..], now)
  }

  /** What each of those calls returns. */
  ghost function Answers(db: Db, tasks: seq<Task>, now: int): (r: seq<bool>)
    requires InLanes(tasks, |db.lanes|)
    ensures |r| == |tasks|
    decreases |tasks|
  {
    if tasks == [] then []
    else [tasks[0].id !in db.data] + Answers(StageTask(db, tasks[0], now), tasks[1..], now)
  }

  lemma {:induction false} StageInTwoParts(db: Db, a: seq<Task>, b: seq<Task>, now: int)
    requires InLanes(a, |db.lanes|) && InLanes(b, |db.lanes|)
    ensures InLanes(a + b, |db.lanes|)
    ensures StageAll(db, a + b, now) == StageAll(StageAll(db, a, now), b, now)
    ensures Answers(db, a + b, now) == Answers(db, a, now) + Answers(StageAll(db, a, now), b, now)
    decreases |a|
  {
    if a == [] {
      assert a + b == b;
    } else {
      assert (a + b)[1..] == a[1..] + b;
      StageInTwoParts(StageTask(db, a[0], now), a[1..], b, now);
    }
  }

  /** Exactly the first task of each new id is staged; a duplicate, in the batch or against
      what is queued, is refused. */
  lemma {:induction false} FirstOfIdWins(db: Db, tasks: seq<Task>, now: int, k: nat)
    requires InLanes(tasks, |db.lanes|) && k < |tasks|
    ensures Answers(db, tasks, now)[k]
        <==> tasks[k].id !in db.data && forall j :: 0 <= j < k ==> tasks[j].id != tasks[k].id
    decreases |tasks|
  {
    if k > 0 {
      var db1, rest := StageTask(db, tasks[0], now), tasks[1..];
      FirstOfIdWins(db1, rest, now, k - 1);
      NoneEarlier(tasks, k);
      assert tasks[k].id in db1.data <==> tasks[k].id in db.data || tasks[0].id == tasks[k].id;
    }
  }

  lemma NoneEarlier(tasks: seq<Task>, k: nat)
    requires 0 < k < |tasks|
    ensures (forall j :: 0 <= j < k ==> tasks[j].id != tasks[k].id)
        <==> tasks[0].id != tasks[k].id && forall j :: 0 <= j < k - 1 ==> tasks[1..][j].id != tasks[1..][k - 1].id
  {
    assert forall j :: 0 < j < k ==> tasks[1..][j - 1] == tasks[j];
  }

  /** After a batch, exactly the ids queued before and those of the batch are queued. */
  lemma {:induction false} StagedIds(db: Db, tasks: seq<Task>, now: int)
    requires InLanes(tasks, |db.lanes|)
    ensures forall id :: id in StageAll(db, tasks, now).data
                    <==> id in db.data || exists j :: 0 <= j < |tasks| && tasks[j].id == id
    decreases |tasks|
  {
    if tasks != [] {
      var db1, rest := StageTask(db, tasks[0], now), tasks[1..];
      StagedIds(db1, rest, now);
      forall id
        ensures id in StageAll(db, tasks, now).data <==> id in db.data || exists j :: 0 <= j < |tasks| && tasks[j].id == id
      {
        assert id in db1.data <==> id in db.data || tasks[0].id == id;
        if j :| 0 <= j < |rest| && rest[j].id == id {
          assert tasks[j + 1].id == id;
        }
        if j :| 0 <= j < |tasks| && tasks[j].id == id && j > 0 {
          assert rest[j - 1].id == id;
        }
      }
    }
  }

  // ----- the flat argument list

  function Fields(t: Task): (f: seq<Arg>)
    ensures |f| == FIELDS
  {
    [TaskKey(t.id), StreamKey(t.lane), DelayedKey(t.lane), Name(t.id), Packed(t.payload),
     Number(t.score), Number(t.expire), ResultKey(t.id), Number(if t.reset then 1 else 0)]
  }

  function Flat(tasks: seq<Task>): (f: seq<Arg>)
    ensures |f| == FIELDS * |tasks|
  {
    if tasks == [] then [] else Flat(tasks[..|tasks| - 1]) + Fields(tasks[|tasks| - 1])
  }

  lemma {:induction false} FlatAt(tasks: seq<Task>, k: nat)
    requires k < |tasks|
    ensures Flat(tasks)[FIELDS * k..FIELDS * (k + 1)] == Fields(tasks[k])
    decreases |tasks|
  {
    var n := |tasks| - 1;
    if k < n {
      FlatAt(tasks[..n], k);
      assert FIELDS * (k + 1) <= |Flat(tasks[..n])|;
    }
  }

  ghost predicate IsArgv(argv: seq<Arg>, tasks: seq<Task>, now: int) {
    argv == [Number(now), ResultsIndex] + Flat(tasks)
  }

  /** The nine positions the script reads for task `k` are that task's fields, in order. */
  lemma ArgvAt(argv: seq<Arg>, tasks: seq<Task>, now: int, k: nat)
    requires IsArgv(argv, tasks, now) && k < |tasks|
    ensures 2 + FIELDS * (k + 1) <= |argv|
    ensures argv[2 + FIELDS * k..2 + FIELDS * (k + 1)] == Fields(tasks[k])
  {
    FlatAt(tasks, k);
    assert FIELDS * (k + 1) <= FIELDS * |tasks|;
    assert argv[2..] == Flat(tasks);
  }

  /** The script's reply. */
  function Bits(flags: seq<bool>): (r: seq<int>)
    ensures |r| == |flags|
  {
    seq(|flags|, i requires 0 <= i < |flags| => if flags[i] then 1 else 0)
  }

  function Queued(bits: seq<int>): (r: seq<bool>)
    ensures |r| == |bits|
  {
    seq(|bits|, i requires 0 <= i < |bits| => bits[i] == 1)
  }

  lemma QueuedBits(flags: seq<bool>)
    ensures Queued(Bits(flags)) == flags
  {
  }

  lemma BitsSnoc(flags: seq<bool>, b: bool)
    ensures Bits(flags + [b]) == Bits(flags) + [if b then 1 else 0]
  {
  }

  /** publish_tasks.lua: 1 for each task staged, 0 for each refused. */
  method PublishTasks(redis: Redis, argv: seq<Arg>, ghost tasks: seq<Task>, ghost now: int) returns (staged: seq<int>)
    requires IsArgv(argv, tasks, now) && InLanes(tasks, |redis.lanes|)
    modifies redis
    ensures redis.State() == StageAll(old(redis.State()), tasks, now)
    ensures staged == Bits(Answers(old(redis.State()), tasks, now))
  {
    ghost var start := redis.State();
    var clock := argv[0].n;
    staged := [];
    var i := 2;
    ghost var k := 0;
    while i < |argv|
      invariant 0 <= k <= |tasks| && i == 2 + FIELDS * k
      invariant redis.State() == StageAll(start, tasks[..k], now)
      invariant staged == Bits(Answers(start, tasks[..k], now))
    {
      ArgvAt(argv, tasks, now, k);
      Snoc(start, tasks, k, now);
      BitsSnoc(Answers(start, tasks[..k], now), tasks[k].id !in redis.data);
      var stored := StageNine(redis, argv[i..i + 9], clock, tasks[k]);
      staged := staged + [if stored then 1 else 0];
      i := i + 9;
      k := k + 1;
    }
    assert tasks[..k] == tasks;
  }

  lemma Snoc(db: Db, tasks: seq<Task>, k: nat, now: int)
    requires k < |tasks| && InLanes(tasks, |db.lanes|)
    ensures var before := StageAll(db, tasks[..k], now);
            && StageAll(db, tasks[..k + 1], now) == StageTask(before, tasks[k], now)
            && Answers(db, tasks[..k + 1], now) == Answers(db, tasks[..k], now) + [tasks[k].id !in before.data]
  {
    assert tasks[..k + 1] == tasks[..k] + [tasks[k]];
    StageInTwoParts(db, tasks[..k], [tasks[k]], now);
    assert [tasks[k]][1..] == [];
  }

  /** The body of the script's loop, on the nine fields it reads. */
  method StageNine(redis: Redis, f: seq<Arg>, now: int, ghost t: Task) returns (stored: bool)
    requires f == Fields(t) && t.lane < |redis.lanes|
    modifies redis
    ensures redis.State() == StageTask(old(redis.State()), t, now)
    ensures stored == (t.id !in old(redis.data))
  {
    var taskKey, stream, delayed, taskId := f[0].id, f[1].lane, f[2].lane, f[3].id;
    var payload, score, expire := f[4].payload, f[5].n, f[6].n;
    var resultKey, reset := f[7].id, f[8].n;
    // SET NX, with PX when there is an expiry
    if taskKey in redis.data {
      return false;
    }
    redis.data := redis.data[taskKey := Stored(payload, expire > 0)];
    if reset == 1 {
      redis.results := redis.results - {resultKey};
    }
    if score > 0 {
      redis.lanes := redis.lanes[delayed := ZAdd(redis.lanes[delayed], taskId, score)];
    } else {
      redis.lanes := redis.lanes[stream := XAdd(redis.lanes[stream], taskId, now)];
    }
    return true;
  }

  /** Queue::enqueue_many: whatever the list, the state and the answers are those of
      staging its tasks one by one at the same clock. */
  method EnqueueMany(redis: Redis, items: seq<Task>, now: int) returns (staged: seq<bool>)
    requires InLanes(items, |redis.lanes|)
    modifies redis
    ensures redis.State() == StageAll(old(redis.State()), items, now)
    ensures staged == Answers(old(redis.State()), items, now)
  {
    ghost var start := redis.State();
    staged := [];
    var at := 0;
    while at < |items|
      invariant 0 <= at <= |items|
      invariant redis.State() == StageAll(start, items[..at], now)
      invariant staged == Answers(start, items[..at], now)
    {
      var end := if at + CHUNK < |items| then at + CHUNK else |items|;
      var chunk := items[at..end];
      var argv := Arguments(chunk, now);
      assert items[..end] == items[..at] + chunk;
      StageInTwoParts(start, items[..at], chunk, now);
      QueuedBits(Answers(redis.State(), chunk, now));
      var results := PublishTasks(redis, argv, chunk, now);
      staged := staged + Queued(results);
      at := end;
    }
    assert items[..at] == items;
  }

  method Arguments(chunk: seq<Task>, now: int) returns (argv: seq<Arg>)
    ensures IsArgv(argv, chunk, now)
  {
    argv := [Number(now), ResultsIndex];
    var i := 0;
    while i < |chunk|
      invariant 0 <= i <= |chunk|
      invariant argv == [Number(now), ResultsIndex] + Flat(chunk[..i])
    {
      argv := argv + Fields(chunk[i]);
      assert chunk[..i + 1][..i] == chunk[..i];
      i := i + 1;
    }
    assert chunk[..i] == chunk;
  }
}
