/** The key listing that opens a migration: how the source writes it and the destination reads it. */
module Listing {
  import opened Basics
  import opened Migration

  // ---- decimal numbers ------------------------------------------------------------

  predicate IsDigit(c: char) {
    '0' <= c <= '9'
  }

  /** A number without a sign. */
  function Unsigned(s: string): Option<nat> {
    if s == [] || !IsDigit(s[|s| - 1]) then None
    else
      var d := s[|s| - 1] as int - '0' as int;
      if |s| == 1 then Some(d)
      else
        var high := Unsigned(s[..|s| - 1]);
        if high.None? then None else Some(10 * high.value + d)
  }

  const MAX_INT: int := 0x7FFF_FFFF_FFFF_FFFF

  /** `strconv.Atoi`: a number with or without a sign that fits 64 bits. */
  function Atoi(s: string): Option<int> {
    if s == [] then None
    else if s[0] == '-' then
      var u := Unsigned(s[1..]); if u.None? || u.value > MAX_INT + 1 then None else Some(-(u.value as int))
    else
      var u := Unsigned(if s[0] == '+' then s[1..] else s); if u.None? || u.value > MAX_INT then None else Some(u.value)
  }

  lemma {:induction false} UnsignedItoa(n: nat)
    ensures Unsigned(Itoa(n)) == Some(n) && IsDigit(Itoa(n)[0])
  {
    if n >= 10 {
      UnsignedItoa(n / 10);
      assert Itoa(n)[..|Itoa(n)| - 1] == Itoa(n / 10);
    }
  }

  lemma AtoiItoa(n: nat)
    ensures Atoi(Itoa(n)) == if n <= MAX_INT then Some(n) else None
  {
    UnsignedItoa(n);
  }

  // ---- one line per key -----------------------------------------------------------

  const OP_GET: nat := 1
  const OP_DEL: nat := 2

  function OpCode(op: Op): nat {
    if op.OpGet? then OP_GET else OP_DEL
  }

  function Encode(task: Task): string {
    Itoa(OpCode(task.op)) + task.key
  }

  /** The receiver looks at the first character alone; anything but a deletion is a fetch. */
  function Decode(line: string): Task
    requires line != []
  {
    Task(if [line[0]] == Itoa(OP_DEL) then OpDel else OpGet, line[1..])
  }

  lemma DecodeEncode(task: Task)
    ensures Encode(task) != [] && Decode(Encode(task)) == task
  {
  }

  /** A line that starts with the code of a deletion is one, any other a fetch; the key is the rest. */
  lemma DecodeIs(line: string)
    requires line != []
    ensures Decode(line).op.OpDel? <==> line[0] == '2'
    ensures line == [line[0]] + Decode(line).key
  {
    assert Itoa(OP_DEL) == ['2'];
  }

  function EncodeAll(tasks: seq<Task>): (lines: seq<string>)
    ensures |lines| == |tasks|
    ensures forall i :: 0 <= i < |tasks| ==> lines[i] == Encode(tasks[i])
  {
    seq(|tasks|, i requires 0 <= i < |tasks| => Encode(tasks[i]))
  }

  /** The message of a source store whose keys are listed in the given order. */
  function Message(source: Repo, keys: seq<Key>): seq<string> {
    [Itoa(|source|)] + EncodeAll(Listed(source, keys))
  }

  /** What the destination makes of a message: it gives up, crashes after some keys, or handles all keys. */
  datatype Parsed = Unreadable | Crash(handled: seq<Task>) | Complete(tasks: seq<Task>)

  /**
   An announced count that is no number, or fewer lines than announced, ends the migration. A
   negative count crashes the allocation of the key array, an empty line the handling of its key.
   */
  function Parse(lines: seq<string>): Parsed {
    if lines == [] || Atoi(lines[0]).None? then Unreadable
    else
      var n := Atoi(lines[0]).value;
      if n < 0 then Crash([])
      else if n > |lines| - 1 then Unreadable
      else ParseLines(lines[1..n + 1])
  }

  /** Keys are handled up to the first empty line. */
  function ParseLines(lines: seq<string>): (p: Parsed)
    ensures !p.Unreadable?
  {
    if lines == [] then Complete([])
    else
      var init := ParseLines(lines[..|lines| - 1]);
      if init.Crash? then init
      else if lines[|lines| - 1] == [] then Crash(init.tasks)
      else Complete(init.tasks + [Decode(lines[|lines| - 1])])
  }

  lemma {:induction false} ParseEncoded(tasks: seq<Task>)
    ensures ParseLines(EncodeAll(tasks)) == Complete(tasks)
  {
    if tasks != [] {
      var init, last := tasks[..|tasks| - 1], tasks[|tasks| - 1];
      ParseEncoded(init);
      DecodeEncode(last);
      assert EncodeAll(tasks)[..|tasks| - 1] == EncodeAll(init);
      assert tasks == init + [last];
    }
  }

  /** What becomes of the announced lines: they are decoded one by one, up to the first empty one. */
  lemma {:induction false} ParseLinesIs(lines: seq<string>)
    ensures var p := ParseLines(lines);
            var handled := if p.Crash? then p.handled else p.tasks;
            && |handled| <= |lines|
            && (forall i :: 0 <= i < |handled| ==> lines[i] != [] && handled[i] == Decode(lines[i]))
            && (p.Complete? <==> |handled| == |lines|) && (p.Crash? ==> |handled| < |lines| && lines[|handled|] == [])
  {
    if lines != [] {
      ParseLinesIs(lines[..|lines| - 1]);
    }
  }

  /** No count or too few lines end the migration, and a negative count crashes; lines beyond the count are ignored. */
  lemma ParseIs(lines: seq<string>)
    requires lines != []
    ensures Atoi(lines[0]).None? ==> Parse(lines).Unreadable?
    ensures Atoi(lines[0]).Some? ==>
              var n := Atoi(lines[0]).value;
              && (n < 0 ==> Parse(lines) == Crash([]))
              && (n >= |lines| ==> Parse(lines) == Unreadable)
              && (0 <= n < |lines| ==> !Parse(lines).Unreadable? && Parse(lines) == Parse(lines[..n + 1]))
  {
    if Atoi(lines[0]).Some? && 0 <= Atoi(lines[0]).value < |lines| {
      var n := Atoi(lines[0]).value;
      assert lines[..n + 1][1..n + 1] == lines[1..n + 1];
    }
  }

  /** Signs are read, within 64 bits. */
  lemma AtoiSigned(n: nat)
    ensures Atoi("+" + Itoa(n)) == if n <= MAX_INT then Some(n) else None
    ensures Atoi("-" + Itoa(n)) == if n <= MAX_INT + 1 then Some(-(n as int)) else None
  {
    UnsignedItoa(n);
    assert ("+" + Itoa(n))[1..] == Itoa(n) && ("-" + Itoa(n))[1..] == Itoa(n);
  }

  // ---- the whole listing ----------------------------------------------------------

  lemma {:induction false} TasksCount(source: Repo, keys: seq<Key>)
    ensures |Tasks(source, keys, OpDel)| + |Tasks(source, keys, OpGet)| == |keys|
  {
    if keys != [] {
      TasksCount(source, keys[..|keys| - 1]);
    }
  }

  lemma {:induction false} CountKeys(keys: seq<Key>, all: set<Key>)
    requires Distinct(keys) && forall k :: k in all <==> k in keys
    ensures |all| == |keys|
  {
    if keys == [] {
      assert all == {};
    } else {
      var init, last := keys[..|keys| - 1], keys[|keys| - 1];
      assert keys == init + [last];
      CountKeys(init, all - {last});
      assert all == (all - {last}) + {last};
    }
  }

  /** The destination recovers every operation and key, in order, and the announced count is right. */
  lemma ParseMessage(source: Repo, keys: seq<Key>)
    requires Distinct(keys) && forall k :: k in source <==> k in keys
    ensures |Listed(source, keys)| == |keys| == |source|
    ensures Parse(Message(source, keys)) == if |source| <= MAX_INT then Complete(Listed(source, keys)) else Unreadable
  {
    var tasks := Listed(source, keys);
    var lines := EncodeAll(tasks);
    TasksCount(source, keys);
    CountKeys(keys, source.Keys);
    assert |source| == |source.Keys|;
    AtoiItoa(|source|);
    assert Message(source, keys)[1..|source| + 1] == lines;
    ParseEncoded(tasks);
  }

  function TasksOf(op: Op, keys: seq<Key>): seq<Task> {
    seq(|keys|, i requires 0 <= i < |keys| => Task(op, keys[i]))
  }

  /** The listed keys that are deleted, or that are present, in listing order. */
  function Picked(source: Repo, keys: seq<Key>, op: Op): seq<Key> {
    if keys == [] then []
    else
      Picked(source, keys[..|keys| - 1], op)
      + if Seen(source, keys[|keys| - 1]) == op.OpGet? then [keys[|keys| - 1]] else []
  }

  lemma {:induction false} PickedTasks(source: Repo, keys: seq<Key>, op: Op)
    ensures TasksOf(op, Picked(source, keys, op)) == Tasks(source, keys, op)
  {
    if keys != [] {
      PickedTasks(source, keys[..|keys| - 1], op);
    }
  }

  lemma PickedSnoc(source: Repo, keys: seq<Key>, i: nat, op: Op)
    requires i < |keys|
    ensures Picked(source, keys[..i + 1], op) ==
              Picked(source, keys[..i], op) + if Seen(source, keys[i]) == op.OpGet? then [keys[i]] else []
  {
    assert keys[..i + 1][..i] == keys[..i];
  }

  /** One key goes to one of the lists. */
  lemma SoFarNext(dels: seq<Key>, gets: seq<Key>, source: Repo, keys: seq<Key>, i: nat)
    requires i < |keys| && SoFar(dels, source, keys, i, OpDel) && SoFar(gets, source, keys, i, OpGet)
    ensures Lookup(source, keys[i]).None? ==>
              SoFar(dels + [keys[i]], source, keys, i + 1, OpDel) && SoFar(gets, source, keys, i + 1, OpGet)
    ensures Lookup(source, keys[i]).Some? ==>
              SoFar(dels, source, keys, i + 1, OpDel) && SoFar(gets + [keys[i]], source, keys, i + 1, OpGet)
  {
    PickedSnoc(source, keys, i, OpDel);
    PickedSnoc(source, keys, i, OpGet);
  }

  /**
   The `mhello` loop: deleted and present keys are appended to two slices that share one
   backing array, the second starting where the first could reach at most.
   */
  method Partition(source: Repo, keys: seq<Key>) returns (backing: array<Key>, dels: nat, gets: nat)
    requires |keys| == |source|
    ensures dels + gets == |source| && backing.Length == 2 * |source|
    ensures backing[..dels] == Picked(source, keys, OpDel)
    ensures backing[|source|..|source| + gets] == Picked(source, keys, OpGet)
  {
    var n := |source|;
    backing := new Key[2 * n](i => "");
    dels, gets := 0, 0;
    for i := 0 to |keys|
      invariant dels + gets == i && fresh(backing)
      invariant SoFar(backing[0..dels], source, keys, i, OpDel)
      invariant SoFar(backing[n..n + gets], source, keys, i, OpGet)
    {
      dels, gets := Pick(source, keys, i, backing, dels, gets);
    }
    assert keys[..|keys|] == keys && backing[..dels] == backing[0..dels];
  }

  /** One iteration. */
  method Pick(source: Repo, keys: seq<Key>, i: nat, backing: array<Key>, dels: nat, gets: nat)
    returns (dels': nat, gets': nat)
    requires i == dels + gets < |keys| == |source| && backing.Length == 2 * |source|
    requires SoFar(backing[0..dels], source, keys, i, OpDel)
    requires SoFar(backing[|source|..|source| + gets], source, keys, i, OpGet)
    modifies backing
    ensures dels' + gets' == i + 1
    ensures SoFar(backing[0..dels'], source, keys, i + 1, OpDel)
    ensures SoFar(backing[|source|..|source| + gets'], source, keys, i + 1, OpGet)
  {
    var n := |source|;
    dels', gets' := dels, gets;
    SoFarNext(backing[0..dels], backing[n..n + gets], source, keys, i);
    if Lookup(source, keys[i]).None? {
      Append(backing, 0, dels, n, n + gets, keys[i]);
      dels' := dels + 1;
    } else {
      Append(backing, n, n + gets, 0, dels, keys[i]);
      gets' := gets + 1;
    }
  }

  /** The list so far. */
  predicate SoFar(list: seq<Key>, source: Repo, keys: seq<Key>, i: nat, op: Op)
    requires i <= |keys|
  {
    list == Picked(source, keys[..i], op)
  }

  /** Appends to the slice from lo to hi, behind which there is room; a slice from a to b elsewhere is not touched. */
  method Append(backing: array<Key>, lo: nat, hi: nat, ghost a: nat, ghost b: nat, key: Key)
    requires lo <= hi < backing.Length && a <= b <= backing.Length && (b <= lo || hi < a)
    modifies backing
    ensures backing[lo..hi + 1] == old(backing[lo..hi]) + [key]
    ensures backing[a..b] == old(backing[a..b])
  {
    backing[hi] := key;
  }

  /** Writes one line per key. */
  method Emit(lines: seq<string>, op: Op, keys: seq<Key>) returns (r: seq<string>)
    ensures r == lines + EncodeAll(TasksOf(op, keys))
  {
    r := lines;
    for i := 0 to |keys|
      invariant r == lines + EncodeAll(TasksOf(op, keys[..i]))
    {
      r := r + [Itoa(OpCode(op)) + keys[i]];
    }
    assert keys[..|keys|] == keys;
  }

  /** The `mhello` handler: the count, the deleted keys, then the present ones. */
  method List(source: Repo, keys: seq<Key>) returns (lines: seq<string>)
    requires |keys| == |source|
    ensures lines == Message(source, keys)
  {
    var backing, dels, gets := Partition(source, keys);
    PickedTasks(source, keys, OpDel);
    PickedTasks(source, keys, OpGet);
    lines := Emit([Itoa(|source|)], OpDel, backing[..dels]);
    lines := Emit(lines, OpGet, backing[|source|..|source| + gets]);
  }

  /** The receiving side of `Migrate`: reads the count, then that many lines, then handles them one by one. */
  method Read(lines: seq<string>) returns (parsed: Parsed)
    ensures parsed == Parse(lines)
  {
    if lines == [] || Atoi(lines[0]).None? {
      return Unreadable;
    }
    var n := Atoi(lines[0]).value;
    if n < 0 {
      return Crash([]);
    }
    var keys := new string[n](i => "");
    for i := 0 to n
      invariant i < |lines| && keys[..i] == lines[1..i + 1]
    {
      if i + 1 >= |lines| {
        return Unreadable;
      }
      keys[i] := lines[i + 1];
    }
    var read := keys[..];
    assert read == lines[1..n + 1];
    var tasks: seq<Task> := [];
    for i := 0 to n
      invariant ParseLines(read[..i]) == Complete(tasks)
    {
      assert read[..i + 1][..i] == read[..i];
      if read[i] == [] {
        StaysCrashed(read, i + 1);
        return Crash(tasks);
      }
      tasks := tasks + [Decode(read[i])];
    }
    assert read[..n] == read;
    return Complete(tasks);
  }

  lemma {:induction false} StaysCrashed(lines: seq<string>, i: nat)
    requires i <= |lines| && ParseLines(lines[..i]).Crash?
    ensures ParseLines(lines) == ParseLines(lines[..i])
  {
    if i < |lines| {
      assert lines[..|lines| - 1][..i] == lines[..i];
      StaysCrashed(lines[..|lines| - 1], i);
    } else {
      assert lines[..i] == lines;
    }
  }

  /** End to end: the destination works off what it parsed, clients interfere, and the stores end up alike. */
  lemma ListedMigrationExact(source: Repo, local: Repo, keys: seq<Key>, steps: seq<Step>)
    requires Distinct(keys) && forall k :: k in source <==> k in keys
    requires forall k :: Seen(local, k) ==> k in source && (Seen(source, k) ==> local[k] == source[k])
    requires Parse(Message(source, keys)).Complete?
    requires OrderlyRun(State(source, local, Parse(Message(source, keys)).tasks), steps)
    requires Run(State(source, local, Parse(Message(source, keys)).tasks), steps).todo == []
    ensures var end := Run(State(source, local, Parse(Message(source, keys)).tasks), steps);
            Visible(end.local) == Visible(end.source)
  {
    ParseMessage(source, keys);
    MigrationExact(source, local, keys, steps);
  }

  /** One deleted key and one present key, as they go over the wire. */
  lemma MessageExample(id: string, body: Bytes)
    ensures Message(map["a" := Chunk(id, None), "b" := Chunk(id, Some(body))], ["a", "b"]) == ["2", "2a", "1b"]
  {
    var source: Repo, keys: seq<Key> := map["a" := Chunk(id, None), "b" := Chunk(id, Some(body))], ["a", "b"];
    assert source.Keys == {"a", "b"};
    assert |source| == |source.Keys|;
    assert keys == [] + ["a"] + ["b"];
    forall op ensures Tasks(source, keys, op) == [Task(op, if op.OpDel? then "a" else "b")] {
      TasksSnoc(source, [], "a", op);
      TasksSnoc(source, [] + ["a"], "b", op);
    }
    assert Listed(source, keys) == [Task(OpDel, "a"), Task(OpGet, "b")];
    assert Itoa(2) == ['2'] && Itoa(1) == ['1'] && |source| == 2;
    assert Encode(Task(OpDel, "a")) == "2a" && Encode(Task(OpGet, "b")) == "1b";
  }
}
