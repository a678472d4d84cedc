/**
 Migration of a lambda's chunks: while keys are copied from a source store to a local one,
 clients read and write through an adapter that forwards to the source and caches locally.
 */
module Migration {
  import opened Basics

  type Key = string
  type Byte = b: int | 0 <= b < 256
  type Bytes = seq<Byte>

  /** A stored chunk; a deleted one keeps its entry as a tombstone without a body. */
  datatype Chunk = Chunk(id: string, body: Option<Bytes>)

  type Repo = map<Key, Chunk>

  /** What a read finds. */
  datatype Found = Found(id: string, body: Bytes)

  predicate Seen(repo: Repo, key: Key) {
    key in repo && repo[key].body.Some?
  }

  function Lookup(repo: Repo, key: Key): Option<Found> {
    if Seen(repo, key) then Some(Found(repo[key].id, repo[key].body.value)) else None
  }

  function Put(repo: Repo, key: Key, id: string, body: Bytes): Repo {
    repo[key := Chunk(id, Some(body))]
  }

  /** Deleting leaves a tombstone; a key that was never stored stays unknown. */
  function Bury(repo: Repo, key: Key): Repo {
    if key in repo then repo[key := repo[key].(body := None)] else repo
  }

  /** Everything a client can read. */
  function Visible(repo: Repo): map<Key, Found> {
    map k | k in repo && repo[k].body.Some? :: Found(repo[k].id, repo[k].body.value)
  }

  // ---- the protocol ---------------------------------------------------------------

  datatype Op = OpGet | OpDel
  datatype Task = Task(op: Op, key: Key)

  /** Source store, local store, and the listed keys that are still to be copied or buried. */
  datatype State = State(source: Repo, local: Repo, todo: seq<Task>)

  /**
   Atomic steps: the adapter's serializer runs one command at a time. A forwarded command is
   either applied and acknowledged or not applied. A fetched body is cached unless its stream
   failed; `copied` is how much of it went through the interceptor. A set that the source has
   applied is kept locally unless the last read of its stream reported an error.
   */
  datatype Step =
    | Get(key: Key, fetched: bool, copied: nat, failed: bool)
    | Set(key: Key, id: string, body: Bytes, applied: bool, failed: bool)
    | Del(key: Key, applied: bool)
    | Copy(fetched: bool)

  function Zeros(n: nat): (r: Bytes)
    ensures |r| == n && forall i :: 0 <= i < n ==> r[i] == 0
  {
    seq(n, i => 0)
  }

  /** The local store after `found` was read from the source and cached. */
  function Cached(s: State, key: Key, found: Option<Found>): State {
    if found.None? then s else s.(local := Put(s.local, key, found.value.id, found.value.body))
  }

  /** What the interceptor's buffer holds after the first `copied` bytes went through it. */
  function Buffered(body: Bytes, copied: nat): (r: Bytes)
    ensures |r| == |body|
    ensures r == body <==> forall i :: copied <= i < |body| ==> body[i] == 0
  {
    if copied >= |body| then body
    else
      var r := body[..copied] + Zeros(|body| - copied);
      assert r == body ==> forall i :: copied <= i < |body| ==> body[i] == r[i];
      r
  }

  function Copied(found: Option<Found>, copied: nat): Option<Found> {
    if found.None? then None else Some(Found(found.value.id, Buffered(found.value.body, copied)))
  }

  /** Copying or burying the next listed key. */
  function CopyNext(s: State, fetched: bool): State {
    if s.todo == [] then s
    else
      var task, rest := s.todo[0], s.(todo := s.todo[1..]);
      if task.op.OpDel? then rest.(local := Bury(s.local, task.key))
      else if Seen(s.local, task.key) || !fetched then rest
      else Cached(rest, task.key, Lookup(s.source, task.key))
  }

  function Next(s: State, step: Step): State {
    match step
    case Get(key, fetched, copied, failed) =>
      if Seen(s.local, key) || !fetched || failed then s else Cached(s, key, Copied(Lookup(s.source, key), copied))
    case Set(key, id, body, applied, failed) =>
      if !applied then s
      else s.(source := Put(s.source, key, id, body), local := if failed then s.local else Put(s.local, key, id, body))
    case Del(key, applied) =>
      if !applied || key !in s.source then s
      else s.(source := Bury(s.source, key), local := Bury(s.local, key))
    case Copy(fetched) => CopyNext(s, fetched)
  }

  /** What the adapter answers to a read, when the source can be reached. */
  function Answer(s: State, key: Key): Option<Found> {
    if Seen(s.local, key) then Lookup(s.local, key) else Lookup(s.source, key)
  }

  function Run(s: State, steps: seq<Step>): State
    decreases |steps|
  {
    if steps == [] then s else Run(Next(s, steps[0]), steps[1..])
  }

  // ---- what the steps do ----------------------------------------------------------

  /** Both stores show the same for k as before, tombstones included. */
  predicate Untouched(s: State, t: State, k: Key) {
    && (k in t.source <==> k in s.source) && Lookup(t.source, k) == Lookup(s.source, k)
    && (k in t.local <==> k in s.local) && Lookup(t.local, k) == Lookup(s.local, k)
  }

  /** An applied delete leaves a tombstone at the source, nothing to be read anywhere, and other keys alone. */
  lemma DelEffect(s: State, key: Key)
    requires key in s.source
    ensures var t := Next(s, Del(key, true));
            && Lookup(t.source, key) == Lookup(t.local, key) == Answer(t, key) == None
            && key in t.source && (key in t.local <==> key in s.local) && t.todo == s.todo
            && forall k :: k != key ==> Untouched(s, t, k)
  {
  }

  /** A delete of an unknown key, and a command that is not applied, do nothing. */
  lemma NoEffect(s: State, step: Step)
    requires (step.Set? && !step.applied) || (step.Del? && (!step.applied || step.key !in s.source))
    ensures Next(s, step) == s
  {
  }

  /** An applied set is answered by the source at once, and by the local store unless it failed. */
  lemma SetEffect(s: State, key: Key, id: string, body: Bytes, failed: bool)
    ensures var t := Next(s, Set(key, id, body, true, failed));
            && Lookup(t.source, key) == Some(Found(id, body)) && t.todo == s.todo
            && Lookup(t.local, key) == (if failed then Lookup(s.local, key) else Some(Found(id, body)))
            && forall k :: k != key ==> Untouched(s, t, k)
  {
  }

  /** A read leaves the source alone, and the local store too unless it fetches a key that is not visible there. */
  lemma GetEffect(s: State, key: Key, fetched: bool, copied: nat, failed: bool)
    ensures var t := Next(s, Get(key, fetched, copied, failed));
            && t.source == s.source && t.todo == s.todo && (forall k :: k != key ==> Untouched(s, t, k))
            && Lookup(t.local, key) ==
                 if Seen(s.local, key) || !fetched || failed || !Seen(s.source, key) then Lookup(s.local, key)
                 else Some(Found(s.source[key].id, Buffered(s.source[key].body.value, copied)))
  {
  }

  /** The copy loop takes the first listed key: it buries it, or fetches it if it is not visible locally. */
  lemma CopyEffect(s: State, fetched: bool)
    requires s.todo != []
    ensures var t, key := Next(s, Copy(fetched)), s.todo[0].key;
            && t.source == s.source && t.todo == s.todo[1..] && (forall k :: k != key ==> Untouched(s, t, k))
            && Lookup(t.local, key) ==
                 if s.todo[0].op.OpDel? then None
                 else if Seen(s.local, key) || !fetched then Lookup(s.local, key)
                 else Lookup(s.source, key)
  {
  }

  // ---- coherence ------------------------------------------------------------------

  /** Every locally visible key is visible at the source with the same chunk id and bytes. */
  ghost predicate Coherent(s: State) {
    forall k :: Seen(s.local, k) ==> Seen(s.source, k) && s.local[k] == s.source[k]
  }

  /** A key is answered as the source would answer it, exactly if a local copy is what the source has. */
  lemma AnswerAgreesIff(s: State, key: Key)
    ensures Answer(s, key) == Lookup(s.source, key) <==>
              (Seen(s.local, key) ==> Seen(s.source, key) && s.local[key] == s.source[key])
  {
  }

  /** The step caches the read: it comes from the source, and its stream did not fail. */
  predicate Caches(s: State, step: Step) {
    step.Get? && !Seen(s.local, step.key) && step.fetched && !step.failed && Seen(s.source, step.key)
  }

  /**
   A read caches nothing but what the source has, so that bytes that were not copied are zeros; a
   set that failed after it was applied leaves no local copy of another value.
   */
  predicate Exact(s: State, step: Step) {
    && (Caches(s, step) ==>
          forall i :: step.copied <= i < |s.source[step.key].body.value| ==> s.source[step.key].body.value[i] == 0)
    && (step.Set? && step.applied && step.failed && Seen(s.local, step.key) ==>
          s.local[step.key] == Chunk(step.id, Some(step.body)))
  }

  /** All steps keep coherence but reads that were not copied in full, and sets that failed over another value. */
  lemma StepCoherentIff(s: State, step: Step)
    requires Coherent(s)
    ensures Coherent(Next(s, step)) <==> Exact(s, step)
  {
    var t := Next(s, step);
    if Caches(s, step) {
      assert t.local[step.key].body == Some(Buffered(s.source[step.key].body.value, step.copied));
      assert Seen(t.local, step.key);
      assert forall k :: Seen(t.local, k) && k != step.key ==> Seen(s.local, k);
    } else if step.Copy? && s.todo != [] {
      assert forall k :: Seen(t.local, k) && k != s.todo[0].key ==> Seen(s.local, k);
    } else if step.Set? && step.applied && step.failed {
      assert t.local == s.local && t.source[step.key] == Chunk(step.id, Some(step.body));
    }
  }

  /** Every set that fails after it was applied, over another value that both stores have: reads get the old value. */
  lemma StaleAfterFailedSet(s: State, key: Key, id: string, body: Bytes)
    requires Coherent(s) && Seen(s.local, key) && s.local[key] != Chunk(id, Some(body))
    ensures var t := Next(s, Set(key, id, body, true, true));
            && Answer(t, key) == Lookup(s.source, key) != Lookup(t.source, key) == Some(Found(id, body))
            && !Coherent(t)
  {
    StepCoherentIff(s, Set(key, id, body, true, true));
  }

  ghost predicate ExactRun(s: State, steps: seq<Step>)
    decreases |steps|
  {
    steps == [] || (Exact(s, steps[0]) && ExactRun(Next(s, steps[0]), steps[1..]))
  }

  /** During migration, from a coherent start, the adapter is indistinguishable from the source in every run. */
  lemma {:induction false} RunCoherent(s: State, steps: seq<Step>)
    requires Coherent(s) && ExactRun(s, steps)
    ensures Coherent(Run(s, steps))
    ensures forall k :: Answer(Run(s, steps), k) == Lookup(Run(s, steps).source, k)
    decreases |steps|
  {
    if steps != [] {
      StepCoherentIff(s, steps[0]);
      RunCoherent(Next(s, steps[0]), steps[1..]);
    }
  }

  // ---- completion -----------------------------------------------------------------

  /** The keys that are still to be buried or fetched account for every difference between the stores. */
  ghost predicate Sync(s: State) {
    && (forall k :: Seen(s.local, k) ==>
          if Seen(s.source, k) then s.local[k] == s.source[k] else Task(OpDel, k) in s.todo)
    && (forall k :: Seen(s.source, k) ==> Seen(s.local, k) || Task(OpGet, k) in s.todo)
    && (forall k :: Task(OpDel, k) in s.todo ==> !Seen(s.source, k))
  }

  /**
   Fetches succeed, reads are copied in full, no key is set while its burial is pending, and a set
   that fails after it was applied leaves a local copy of the same value or a key still to be fetched.
   */
  predicate Orderly(s: State, step: Step) {
    match step
    case Copy(fetched) => fetched
    case Set(key, _, _, applied, failed) =>
      applied ==>
        && Task(OpDel, key) !in s.todo && Exact(s, step)
        && (failed && !Seen(s.local, key) ==> Task(OpGet, key) in s.todo)
    case Get(_, _, _, _) => Exact(s, step)
    case Del(_, _) => true
  }

  /** The listed keys of a source store, tombstones first, in any listing order. */
  function Listed(source: Repo, keys: seq<Key>): seq<Task> {
    Tasks(source, keys, OpDel) + Tasks(source, keys, OpGet)
  }

  function Tasks(source: Repo, keys: seq<Key>, op: Op): seq<Task> {
    if keys == [] then []
    else
      Tasks(source, keys[..|keys| - 1], op)
      + if Seen(source, keys[|keys| - 1]) == op.OpGet? then [Task(op, keys[|keys| - 1])] else []
  }

  lemma {:induction false} TasksAre(source: Repo, keys: seq<Key>, op: Op, task: Task)
    ensures task in Tasks(source, keys, op) <==>
              task.op == op && task.key in keys && Seen(source, task.key) == op.OpGet?
  {
    if keys != [] {
      TasksAre(source, keys[..|keys| - 1], op, task);
      assert keys == keys[..|keys| - 1] + [keys[|keys| - 1]];
    }
  }

  /** The tombstones come first: behind a key to be fetched, there are only keys to be fetched. */
  lemma TombstonesFirst(source: Repo, keys: seq<Key>, i: nat, j: nat)
    requires i < j < |Listed(source, keys)| && Listed(source, keys)[i].op.OpGet?
    ensures Listed(source, keys)[j].op.OpGet?
  {
    var dels, gets := Tasks(source, keys, OpDel), Tasks(source, keys, OpGet);
    if i < |dels| {
      TasksAre(source, keys, OpDel, dels[i]);
    }
    TasksAre(source, keys, OpGet, gets[j - |dels|]);
  }

  lemma TasksSnoc(source: Repo, init: seq<Key>, k: Key, op: Op)
    ensures Tasks(source, init + [k], op) ==
              Tasks(source, init, op) + if Seen(source, k) == op.OpGet? then [Task(op, k)] else []
  {
    assert (init + [k])[..|init + [k]| - 1] == init;
  }

  /** The tasks name keys of the listing in its order; `at` says where each of them stands in it. */
  predicate InOrder(at: seq<nat>, tasks: seq<Task>, keys: seq<Key>) {
    && |at| == |tasks|
    && (forall i :: 0 <= i < |at| ==> at[i] < |keys| && tasks[i].key == keys[at[i]])
    && (forall i, j :: 0 <= i < j < |at| ==> at[i] < at[j])
  }

  /** Each part lists its keys in the order of the listing. */
  lemma {:induction false} TasksOrder(source: Repo, keys: seq<Key>, op: Op) returns (at: seq<nat>)
    ensures InOrder(at, Tasks(source, keys, op), keys)
  {
    at := [];
    if keys != [] {
      var init, last := keys[..|keys| - 1], keys[|keys| - 1];
      at := TasksOrder(source, init, op);
      assert keys == init + [last];
      TasksSnoc(source, init, last, op);
      if Seen(source, last) == op.OpGet? {
        at := at + [|init|];
      }
    }
  }

  /** A listing of the whole source store starts in sync, stale local copies of deleted keys included. */
  lemma StartSync(source: Repo, local: Repo, keys: seq<Key>)
    requires forall k :: k in source <==> k in keys
    requires forall k :: Seen(local, k) ==> k in source && (Seen(source, k) ==> local[k] == source[k])
    ensures Sync(State(source, local, Listed(source, keys)))
  {
    forall k, op ensures Task(op, k) in Listed(source, keys) <==> k in keys && Seen(source, k) == op.OpGet? {
      TasksAre(source, keys, OpDel, Task(op, k));
      TasksAre(source, keys, OpGet, Task(op, k));
    }
  }

  lemma Popped(s: State, task: Task)
    requires s.todo != []
    ensures task in s.todo <==> task == s.todo[0] || task in s.todo[1..]
  {
  }

  lemma CopySync(s: State)
    requires Sync(s) && s.todo != []
    ensures Sync(CopyNext(s, true))
  {
    var t, task := CopyNext(s, true), s.todo[0];
    assert t.source == s.source && t.todo == s.todo[1..];
    assert task in s.todo;
    forall k | Seen(t.local, k)
      ensures if Seen(t.source, k) then t.local[k] == t.source[k] else Task(OpDel, k) in t.todo
    {
      Popped(s, Task(OpDel, k));
    }
    forall k | Seen(t.source, k) ensures Seen(t.local, k) || Task(OpGet, k) in t.todo {
      Popped(s, Task(OpGet, k));
      assert task != Task(OpDel, k);
    }
    forall k | Task(OpDel, k) in t.todo ensures !Seen(t.source, k) {
      Popped(s, Task(OpDel, k));
    }
  }

  /** An orderly step keeps the stores in sync. */
  lemma StepSync(s: State, step: Step)
    requires Sync(s) && Orderly(s, step)
    ensures Sync(Next(s, step))
  {
    if step.Copy? && s.todo != [] {
      CopySync(s);
    }
  }

  ghost predicate OrderlyRun(s: State, steps: seq<Step>)
    decreases |steps|
  {
    steps == [] || (Orderly(s, steps[0]) && OrderlyRun(Next(s, steps[0]), steps[1..]))
  }

  lemma {:induction false} RunSync(s: State, steps: seq<Step>)
    requires Sync(s) && OrderlyRun(s, steps)
    ensures Sync(Run(s, steps))
    decreases |steps|
  {
    if steps != [] {
      StepSync(s, steps[0]);
      RunSync(Next(s, steps[0]), steps[1..]);
    }
  }

  /** Once every listed key has been handled, under any interleaving, both stores show the same. */
  lemma MigrationExact(source: Repo, local: Repo, keys: seq<Key>, steps: seq<Step>)
    requires forall k :: k in source <==> k in keys
    requires forall k :: Seen(local, k) ==> k in source && (Seen(source, k) ==> local[k] == source[k])
    requires OrderlyRun(State(source, local, Listed(source, keys)), steps)
    requires Run(State(source, local, Listed(source, keys)), steps).todo == []
    ensures var end := Run(State(source, local, Listed(source, keys)), steps);
            && Visible(end.local) == Visible(end.source)
            && forall k :: Lookup(end.local, k) == Lookup(end.source, k)
  {
    var s := State(source, local, Listed(source, keys));
    StartSync(source, local, keys);
    RunSync(s, steps);
    var end := Run(s, steps);
    forall k ensures Seen(end.local, k) <==> Seen(end.source, k) {
    }
  }

  // ---- what becomes of one key ----------------------------------------------------

  /** The step is not a client's command on key. */
  predicate Spares(step: Step, key: Key) {
    step.Copy? || step.key != key
  }

  /** Each key is listed for one operation, once. */
  predicate ListedOnce(todo: seq<Task>) {
    forall i, j :: 0 <= i < j < |todo| ==> todo[i].key != todo[j].key
  }

  /** The key is not visible locally and still to be fetched. */
  predicate Waits(s: State, key: Key) {
    !Seen(s.local, key) && Task(OpGet, key) in s.todo
  }

  /** What the local store will show for a key that no client touches any more. */
  function Outcome(s: State, key: Key): Option<Found> {
    if Task(OpDel, key) in s.todo then None
    else if Waits(s, key) then Lookup(s.source, key)
    else Lookup(s.local, key)
  }

  /** The step leaves the key to the migration, which fetches it if it is still to be fetched. */
  predicate Leaves(s: State, step: Step, key: Key) {
    Spares(step, key) && (step.Copy? && Waits(s, key) ==> step.fetched)
  }

  lemma ListedOnceRest(s: State, key: Key)
    requires s.todo != [] && ListedOnce(s.todo)
    ensures ListedOnce(s.todo[1..])
    ensures forall op :: Task(op, key) in s.todo <==> Task(op, key) == s.todo[0] || Task(op, key) in s.todo[1..]
    ensures s.todo[0].key == key ==> forall op :: Task(op, key) !in s.todo[1..]
  {
    forall op ensures Task(op, key) in s.todo <==> Task(op, key) == s.todo[0] || Task(op, key) in s.todo[1..] {
      Popped(s, Task(op, key));
    }
  }

  lemma StepOutcome(s: State, step: Step, key: Key)
    requires ListedOnce(s.todo) && Leaves(s, step, key)
    ensures var t := Next(s, step);
            && ListedOnce(t.todo) && Lookup(t.source, key) == Lookup(s.source, key)
            && Outcome(t, key) == Outcome(s, key) && (Waits(t, key) ==> Waits(s, key))
  {
    if step.Copy? && s.todo != [] {
      ListedOnceRest(s, key);
    }
  }

  lemma {:induction false} RunOutcome(s: State, steps: seq<Step>, key: Key)
    requires ListedOnce(s.todo) && forall i :: 0 <= i < |steps| ==> Leaves(s, steps[i], key)
    ensures Outcome(Run(s, steps), key) == Outcome(s, key)
    ensures Lookup(Run(s, steps).source, key) == Lookup(s.source, key)
    decreases |steps|
  {
    if steps != [] {
      StepOutcome(s, steps[0], key);
      RunOutcome(Next(s, steps[0]), steps[1..], key);
    }
  }

  /**
   The end of a migration for one key, whatever happens to other keys and whatever fails: once
   every listed key has been handled, the source shows what it showed, and the local store shows
   the outcome.
   */
  lemma EndsWith(s: State, steps: seq<Step>, key: Key)
    requires ListedOnce(s.todo) && forall i :: 0 <= i < |steps| ==> Leaves(s, steps[i], key)
    requires Run(s, steps).todo == []
    ensures Lookup(Run(s, steps).source, key) == Lookup(s.source, key)
    ensures Lookup(Run(s, steps).local, key) == Outcome(s, key)
  {
    RunOutcome(s, steps, key);
  }

  /**
   What becomes of an acknowledged set: at the end of the migration the source has the value, and
   the destination agrees if and only if no burial of the key was pending and, if the set failed
   after it was applied, the old local value was the same or the key was still to be fetched.
   */
  lemma SetSurvivesIff(s: State, key: Key, id: string, body: Bytes, failed: bool, steps: seq<Step>)
    requires ListedOnce(s.todo)
    requires var t := Next(s, Set(key, id, body, true, failed));
             (forall i :: 0 <= i < |steps| ==> Leaves(t, steps[i], key)) && Run(t, steps).todo == []
    ensures var end := Run(Next(s, Set(key, id, body, true, failed)), steps);
            && Lookup(end.source, key) == Some(Found(id, body))
            && (Lookup(end.local, key) == Some(Found(id, body)) <==> Orderly(s, Set(key, id, body, true, failed)))
            && (!failed ==> (Lookup(end.local, key) == None <==> Task(OpDel, key) in s.todo))
  {
    var t := Next(s, Set(key, id, body, true, failed));
    EndsWith(t, steps, key);
  }

  /**
   What becomes of a read that is cached: at the end of the migration the stores agree on the key if
   and only if no burial of it was pending and the bytes that were not copied are zeros.
   */
  lemma ReadSurvivesIff(s: State, step: Step, steps: seq<Step>)
    requires ListedOnce(s.todo) && Caches(s, step)
    requires (forall i :: 0 <= i < |steps| ==> Leaves(Next(s, step), steps[i], step.key))
    requires Run(Next(s, step), steps).todo == []
    ensures var end := Run(Next(s, step), steps);
            && Lookup(end.source, step.key) == Lookup(s.source, step.key)
            && (Lookup(end.local, step.key) == Lookup(end.source, step.key) <==>
                  Task(OpDel, step.key) !in s.todo && Exact(s, step))
  {
    EndsWith(Next(s, step), steps, step.key);
  }

  /** What becomes of an applied delete: both stores show nothing at the end of the migration. */
  lemma DelSurvives(s: State, key: Key, steps: seq<Step>)
    requires ListedOnce(s.todo) && key in s.source
    requires forall i :: 0 <= i < |steps| ==> Leaves(Next(s, Del(key, true)), steps[i], key)
    requires Run(Next(s, Del(key, true)), steps).todo == []
    ensures var end := Run(Next(s, Del(key, true)), steps);
            Lookup(end.source, key) == Lookup(end.local, key) == None
  {
    DelEffect(s, key);
    EndsWith(Next(s, Del(key, true)), steps, key);
  }

  lemma {:induction false} TasksOnce(source: Repo, keys: seq<Key>, op: Op)
    requires Distinct(keys)
    ensures ListedOnce(Tasks(source, keys, op))
  {
    if keys != [] {
      var init, last := keys[..|keys| - 1], keys[|keys| - 1];
      TasksOnce(source, init, op);
      forall i | 0 <= i < |Tasks(source, init, op)| ensures Tasks(source, init, op)[i].key != last {
        TasksAre(source, init, op, Tasks(source, init, op)[i]);
      }
    }
  }

  /** A listing of distinct keys lists each key once. */
  lemma ListedAreOnce(source: Repo, keys: seq<Key>)
    requires Distinct(keys)
    ensures ListedOnce(Listed(source, keys))
  {
    var dels, gets := Tasks(source, keys, OpDel), Tasks(source, keys, OpGet);
    TasksOnce(source, keys, OpDel);
    TasksOnce(source, keys, OpGet);
    forall i, j | 0 <= i < |dels| && 0 <= j < |gets| ensures dels[i].key != gets[j].key {
      TasksAre(source, keys, OpDel, dels[i]);
      TasksAre(source, keys, OpGet, gets[j]);
    }
  }

  lemma {:induction false} RunListsOnce(s: State, steps: seq<Step>)
    requires ListedOnce(s.todo)
    ensures ListedOnce(Run(s, steps).todo)
    decreases |steps|
  {
    if steps != [] {
      RunListsOnce(Next(s, steps[0]), steps[1..]);
    }
  }

  /** The same for a set at any moment of a migration. */
  lemma SetDuringMigrationIff(
    source: Repo, local: Repo, keys: seq<Key>, before: seq<Step>, write: Step, after: seq<Step>)
    requires Distinct(keys) && write.Set? && write.applied
    requires var t := Next(Run(State(source, local, Listed(source, keys)), before), write);
             (forall i :: 0 <= i < |after| ==> Leaves(t, after[i], write.key)) && Run(t, after).todo == []
    ensures var s := Run(State(source, local, Listed(source, keys)), before);
            var end := Run(Next(s, write), after);
            && Lookup(end.source, write.key) == Some(Found(write.id, write.body))
            && (Lookup(end.local, write.key) == Lookup(end.source, write.key) <==> Orderly(s, write))
  {
    var start := State(source, local, Listed(source, keys));
    ListedAreOnce(source, keys);
    RunListsOnce(start, before);
    SetSurvivesIff(Run(start, before), write.key, write.id, write.body, write.failed, after);
  }

  /** Without that order a key can be lost: set again before its burial, it ends up missing locally. */
  lemma SetBeforeBurialLoses(key: Key, id: string, body: Bytes)
    ensures var source: Repo := map[key := Chunk(id, None)];
            var s := State(source, map[], Listed(source, [key]));
            var end := Run(s, [Set(key, id, body, true, false), Copy(true)]);
            && Sync(s) && end.todo == []
            && key in Visible(end.source) && key !in Visible(end.local)
  {
    var source: Repo := map[key := Chunk(id, None)];
    var s := State(source, map[], Listed(source, [key]));
    StartSync(source, map[], [key]);
    assert [key][..0] == [];
    assert !Seen(source, key);
    assert Tasks(source, [key][..0], OpDel) == [] && Tasks(source, [key][..0], OpGet) == [];
    assert Tasks(source, [key], OpDel) == [Task(OpDel, key)] && Tasks(source, [key], OpGet) == [];
    assert s.todo == [Task(OpDel, key)];
    var t := Next(s, Set(key, id, body, true, false));
    assert [Set(key, id, body, true, false), Copy(true)][1..] == [Copy(true)] && [Copy(true)][1..] == [];
    assert Run(t, [Copy(true)]) == Next(t, Copy(true));
  }
}
