/** The chunk store, the intercepting reader and the storage adapter as they are written. */
module MigrationHeap {
  import opened Basics
  import opened Migration

  /** A stored chunk object; deletion clears its body in place. */
  class StoredChunk {
    ghost const owner: Storage
    const key: Key
    const id: string
    var body: Option<Bytes>

    constructor (ghost owner: Storage, key: Key, id: string, body: Option<Bytes>)
      ensures this.owner == owner && this.key == key && this.id == id && this.body == body
    {
      this.owner, this.key, this.id, this.body := owner, key, id, body;
    }
  }

  class Storage {
    var repo: map<Key, StoredChunk>
    ghost var model: Repo

    ghost predicate Valid()
      reads this, repo.Values
    {
      && model.Keys == repo.Keys
      && forall k :: k in repo ==>
           repo[k].owner == this && repo[k].key == k && model[k] == Chunk(repo[k].id, repo[k].body)
    }

    constructor ()
      ensures Valid() && repo == map[] && model == map[]
    {
      repo, model := map[], map[];
    }

    method Get(key: Key) returns (found: Option<Found>)
      requires Valid()
      ensures found == Lookup(model, key)
    {
      if key !in repo || repo[key].body.None? {
        return None;
      }
      return Some(Found(repo[key].id, repo[key].body.value));
    }

    /** Stores a chunk in a new object; the chunk objects that were there before are not touched. */
    method Set(key: Key, id: string, body: Bytes)
      requires Valid()
      modifies this
      ensures Valid() && model == Put(old(model), key, id, body)
      ensures Lookup(model, key) == Some(Found(id, body)) && model.Keys == old(model).Keys + {key}
      ensures forall k :: k != key ==> Lookup(model, k) == Lookup(old(model), k)
    {
      var chunk := new StoredChunk(this, key, id, Some(body));
      repo := repo[key := chunk];
      model := Put(model, key, id, body);
    }

    /** Leaves a tombstone; false if the key was never stored. */
    method Del(key: Key) returns (ok: bool)
      requires Valid()
      modifies this`model, repo.Values
      ensures Valid() && model == Bury(old(model), key)
      ensures (ok <==> key in repo) && Lookup(model, key) == None && model.Keys == old(model).Keys
      ensures forall k :: k != key ==> Lookup(model, k) == Lookup(old(model), k)
    {
      ok := key in repo;
      if ok {
        var chunk := repo[key];
        chunk.body := None;
        model := Bury(model, key);
      }
    }

    method Len() returns (n: nat)
      requires Valid()
      ensures n == |model|
    {
      n := |repo|;
      assert repo.Keys == model.Keys;
      assert |repo.Keys| == |repo| && |model.Keys| == |model|;
    }
  }

  function Sum(cuts: seq<nat>): nat {
    if cuts == [] then 0 else Sum(cuts[..|cuts| - 1]) + cuts[|cuts| - 1]
  }

  lemma {:induction false} SumPrefix(cuts: seq<nat>, i: nat)
    requires i <= |cuts|
    ensures Sum(cuts[..i]) <= Sum(cuts)
  {
    if i < |cuts| {
      SumPrefix(cuts[..|cuts| - 1], i);
      assert cuts[..|cuts| - 1][..i] == cuts[..i];
    } else {
      assert cuts[..i] == cuts;
    }
  }

  /** A reader that keeps a copy of what is read through it. */
  class InterceptReader {
    /** What the wrapped reader delivers, and how far it has been read. */
    const data: Bytes
    var at: nat

    const buf: array<Byte>
    var r: nat
    var lastError: bool

    ghost predicate Valid()
      reads this, buf
    {
      && r == at <= |data| == buf.Length
      && buf[..r] == data[..r]
      && forall i :: r <= i < buf.Length ==> buf[i] == 0
    }

    constructor (data: Bytes)
      ensures Valid() && this.data == data && r == 0 && !lastError && fresh(buf)
    {
      this.data, at, r, lastError := data, 0, 0, false;
      buf := new Byte[|data|](i => 0);
    }

    /** Reads n bytes, as many as the wrapped reader happens to deliver, copies them and keeps its error. */
    method Read(p: array<Byte>, n: nat, error: bool)
      requires Valid() && p != buf && n <= p.Length && r + n <= |data|
      modifies this`at, this`r, this`lastError, buf, p
      ensures Valid() && r == old(r) + n && lastError == error
      ensures p[..n] == data[old(r)..r]
    {
      for i := 0 to n
        invariant at == old(at) && r == old(r)
        invariant p[..i] == data[at..at + i]
        invariant buf[..] == old(buf[..])
      {
        p[i] := data[at + i];
      }
      at, lastError := at + n, error;
      Keep(p, n);
    }

    /** Copies the n bytes that were just read. */
    method Keep(p: array<Byte>, n: nat)
      requires r + n == at <= |data| == buf.Length && p != buf && n <= p.Length && p[..n] == data[r..r + n]
      requires buf[..r] == data[..r] && forall i :: r <= i < buf.Length ==> buf[i] == 0
      modifies this`r, buf
      ensures Valid() && r == old(r) + n
    {
      for i := 0 to n
        invariant r == old(r) && buf[..r + i] == data[..r + i]
        invariant forall j :: r + i <= j < buf.Length ==> buf[j] == 0
      {
        buf[r + i] := p[i];
      }
      r := r + n;
    }

    /** `ReadAll` is promoted from the wrapped reader: it delivers the rest and copies nothing. */
    method ReadAll() returns (all: Bytes)
      requires Valid()
      modifies this`at
      ensures all == data[r..] && at == |data| && buf[..] == Buffered(data, r)
    {
      all := data[at..];
      at := |data|;
    }

    method Intercepted() returns (copy: Bytes)
      ensures copy == buf[..]
    {
      copy := buf[..];
    }
  }

  /**
   Passes a stream on in reads of the given lengths, each with its error; returns what the
   receiver saw, what the interceptor holds, and the error of the last read.
   */
  method Stream(data: Bytes, cuts: seq<nat>, errors: seq<bool>) returns (received: Bytes, copy: Bytes, failed: bool)
    requires Sum(cuts) <= |data| && |errors| == |cuts|
    ensures received == data[..Sum(cuts)] && copy == Buffered(data, Sum(cuts))
    ensures failed == Failed(errors)
    ensures Sum(cuts) == |data| ==> received == copy == data
  {
    var reader := new InterceptReader(data);
    received := [];
    for i := 0 to |cuts|
      invariant reader.Valid() && reader.data == data && fresh(reader) && fresh(reader.buf)
      invariant reader.r == Sum(cuts[..i]) && received == data[..reader.r]
      invariant reader.lastError == Failed(errors[..i])
    {
      assert cuts[..i + 1][..i] == cuts[..i];
      SumPrefix(cuts, i + 1);
      var p := new Byte[cuts[i]];
      reader.Read(p, cuts[i], errors[i]);
      received := received + p[..];
    }
    assert cuts[..|cuts|] == cuts && errors[..|cuts|] == errors;
    copy := reader.Intercepted();
    failed := reader.lastError;
  }

  /** Only the last read's error is kept. */
  function Failed(errors: seq<bool>): bool {
    errors != [] && errors[|errors| - 1]
  }

  /** The local store behind an adapter that forwards to the source store. */
  class StorageAdapter {
    const local: Storage
    const source: Storage
    var todo: seq<Task>

    /** The two stores are separate objects, and so are their chunks. */
    ghost predicate Valid()
      reads this, local, source, local.repo.Values, source.repo.Values
    {
      local != source && local.Valid() && source.Valid()
    }

    ghost function View(): State
      reads this, local, source
    {
      State(source.model, local.model, todo)
    }

    constructor (local: Storage, source: Storage, todo: seq<Task>)
      requires local != source && local.Valid() && source.Valid()
      ensures Valid() && View() == State(source.model, local.model, todo)
      ensures this.local == local && this.source == source
    {
      this.local, this.source, this.todo := local, source, todo;
    }

    /** `getHandler`: answers locally, or fetches, streams the answer on and caches what went through. */
    method Get(key: Key, fetched: bool, cuts: seq<nat>, errors: seq<bool>) returns (answer: Option<Found>)
      requires Valid() && |errors| == |cuts|
      requires Seen(source.model, key) ==> Sum(cuts) <= |source.model[key].body.value|
      modifies local
      ensures Valid() && View() == Next(old(View()), Step.Get(key, fetched, Sum(cuts), Failed(errors)))
      ensures fetched || Seen(old(local.model), key) ==> answer == Answer(old(View()), key)
    {
      answer := local.Get(key);
      if answer.Some? || !fetched {
        return;
      }
      answer := source.Get(key);
      if answer.None? {
        return;
      }
      var _, copy, failed := Stream(answer.value.body, cuts, errors);
      if !failed {
        local.Set(key, answer.value.id, copy);
      }
    }

    /** `Get` of the adapter: reads the whole stream at once, around the interceptor. */
    method GetAll(key: Key, fetched: bool) returns (answer: Option<Found>)
      requires Valid()
      modifies local
      ensures Valid() && View() == Next(old(View()), Step.Get(key, fetched, 0, false))
      ensures fetched || Seen(old(local.model), key) ==> answer == Answer(old(View()), key)
    {
      answer := local.Get(key);
      if answer.Some? || !fetched {
        return;
      }
      answer := source.Get(key);
      if answer.Some? {
        var reader := new InterceptReader(answer.value.body);
        var all := reader.ReadAll();
        var copy := reader.Intercepted();
        local.Set(key, answer.value.id, copy);
        answer := Some(Found(answer.value.id, all));
      }
    }

    /**
     `setHandler`: streams the body to the source and, once it is acknowledged, keeps the
     intercepted copy unless the last read reported an error. A stream that breaks off is never
     acknowledged. Only a set that was kept is reported as successful.
     */
    method Set(key: Key, id: string, body: Bytes, cuts: seq<nat>, errors: seq<bool>, acknowledged: bool)
      returns (ok: bool)
      requires Valid() && Sum(cuts) <= |body| && |errors| == |cuts|
      modifies local, source
      ensures var applied := acknowledged && Sum(cuts) == |body|;
              && Valid() && View() == Next(old(View()), Step.Set(key, id, body, applied, Failed(errors)))
              && ok == (applied && !Failed(errors))
    {
      var received, copy, failed := Stream(body, cuts, errors);
      ok := false;
      if acknowledged && |received| == |body| {
        source.Set(key, id, received);
        if !failed {
          local.Set(key, id, copy);
          ok := true;
        }
      }
    }

    /** `delHandler`: the local tombstone follows the one at the source. */
    method Del(key: Key, forwarded: bool) returns (ok: bool)
      requires Valid()
      modifies local`model, source`model, local.repo.Values, source.repo.Values
      ensures Valid() && View() == Next(old(View()), Step.Del(key, forwarded))
      ensures ok <==> forwarded && key in source.model
      ensures ok ==> Lookup(source.model, key) == Lookup(local.model, key) == Answer(View(), key) == None
    {
      ok := false;
      if forwarded {
        ok := BuryBoth(key);
      }
    }

    method BuryBoth(key: Key) returns (ok: bool)
      requires Valid()
      modifies local`model, source`model, local.repo.Values, source.repo.Values
      ensures Valid() && (ok <==> key in source.model)
      ensures source.model == Bury(old(source.model), key)
      ensures local.model == if ok then Bury(old(local.model), key) else old(local.model)
    {
      assert local.repo.Values !! source.repo.Values;
      ok := source.Del(key);
      if ok {
        var _ := local.Del(key);
      }
    }

    /** `migrateHandler` or `LocalDel`, for the next listed key. */
    method CopyOne(fetched: bool)
      requires Valid() && todo != []
      modifies this`todo, local, local.repo.Values
      ensures Valid() && View() == CopyNext(old(View()), fetched)
    {
      var task := todo[0];
      todo := todo[1..];
      if task.op.OpDel? {
        var _ := local.Del(task.key);
        return;
      }
      var found := local.Get(task.key);
      if found.None? && fetched {
        found := source.Get(task.key);
        if found.Some? {
          local.Set(task.key, found.value.id, found.value.body);
        }
      }
    }
  }
}
