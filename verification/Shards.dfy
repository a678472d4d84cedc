/**
 The encoder used when there are no parity shards: an object is cut into data shards and put
 together again. A shard that is nil, rather than empty, is None.
 */
module Shards {
  import opened Basics

  type Bytes = seq<bv8>
  type Shard = Option<Bytes>

  datatype Error = TooFewShards | ReconstructRequired | ShortData

  function Len(s: Shard): nat {
    if s.Some? then |s.value| else 0
  }

  function Content(s: Shard): (b: Bytes)
    ensures |b| == Len(s)
  {
    if s.Some? then s.value else []
  }

  /** The bytes of all shards in order. */
  function Joined(shards: seq<Shard>): Bytes {
    if shards == [] then [] else Joined(shards[..|shards| - 1]) + Content(shards[|shards| - 1])
  }

  lemma JoinedSnoc(shards: seq<Shard>, i: nat)
    requires i < |shards|
    ensures Joined(shards[..i + 1]) == Joined(shards[..i]) + Content(shards[i])
  {
    assert shards[..i + 1][..i] == shards[..i];
  }

  lemma {:induction false} JoinedPrefix(shards: seq<Shard>, i: nat)
    requires i <= |shards|
    ensures Joined(shards[..i]) <= Joined(shards)
    decreases |shards| - i
  {
    if i == |shards| {
      assert shards[..i] == shards;
    } else {
      JoinedSnoc(shards, i);
      JoinedPrefix(shards, i + 1);
    }
  }

  // ---- Split ----------------------------------------------------------------------

  function PerShard(n: nat, d: nat): nat
    requires d > 0
  {
    (n + d - 1) / d
  }

  /** The size of a shard is the least with which d shards hold all the data. */
  lemma PerShardLeast(n: nat, d: nat)
    requires d > 0
    ensures PerShard(n, d) * d >= n
    ensures n > 0 ==> PerShard(n, d) > 0 && (PerShard(n, d) - 1) * d < n
  {
  }

  /** The bytes from `a` on, at most p of them; nil if the data ends before. */
  function Piece(data: Bytes, a: nat, p: nat): Shard {
    if a + p <= |data| then Some(data[a..a + p])
    else if a <= |data| then Some(data[a..])
    else None
  }

  /** Shard i; the first that is not full is the last one set. */
  function Window(data: Bytes, p: nat, i: nat): Shard {
    Piece(data, i * p, p)
  }

  function Windows(data: Bytes, p: nat, d: nat): (shards: seq<Shard>)
    ensures |shards| == d
  {
    seq(d, i requires 0 <= i < d => Window(data, p, i))
  }

  /** `Split`: full shards as long as the data lasts, then what is left of it; the rest stays nil. */
  method Split(data: Bytes, d: nat) returns (dst: seq<Shard>, error: Option<Error>)
    requires d > 0
    ensures data == [] ==> error == Some(ShortData) && dst == []
    ensures data != [] ==> error == None && dst == Windows(data, PerShard(|data|, d), d)
  {
    if |data| == 0 {
      return [], Some(ShortData);
    }
    var p := PerShard(|data|, d);
    PerShardLeast(|data|, d);
    var slots := new Shard[d](_ => None);
    var i, rest := 0, data;
    while i < slots.Length && |rest| >= p
      invariant 0 <= i <= d && i * p <= |data| && rest == data[i * p..]
      invariant forall j :: 0 <= j < i ==> slots[j] == Window(data, p, j)
      invariant forall j :: i <= j < d ==> slots[j] == None
    {
      NextWindow(data, p, i);
      slots[i] := Some(rest[..p]);
      rest := rest[p..];
      i := i + 1;
    }
    if i < slots.Length {
      NoWindowsAfter(data, p, i);
      slots[i] := Some(rest);
    }
    dst, error := slots[..], None;
  }

  lemma NextWindow(data: Bytes, p: nat, i: nat)
    requires i * p <= |data| && |data| - i * p >= p
    ensures (i + 1) * p == i * p + p <= |data|
    ensures Window(data, p, i) == Some(data[i * p..][..p]) && data[(i + 1) * p..] == data[i * p..][p..]
  {
    assert (i + 1) * p == i * p + p;
    NextPiece(data, i * p, p);
  }

  lemma NextPiece(data: Bytes, a: nat, p: nat)
    requires a + p <= |data|
    ensures Piece(data, a, p) == Some(data[a..][..p]) && data[a + p..] == data[a..][p..]
  {
    assert data[a..][..p] == data[a..a + p];
  }

  lemma NoWindowsAfter(data: Bytes, p: nat, i: nat)
    requires i * p <= |data| < i * p + p
    ensures Window(data, p, i) == Some(data[i * p..])
    ensures forall j :: j > i ==> Window(data, p, j) == None
  {
    assert (i + 1) * p == i * p + p;
    forall j | j > i ensures Window(data, p, j) == None {
      MulMonotone(i + 1, j, p);
    }
  }

  lemma MulMonotone(i: nat, j: nat, p: nat)
    requires i <= j
    ensures i * p <= j * p
  {
  }

  function Min(a: nat, b: nat): nat {
    if a <= b then a else b
  }

  lemma PieceExtends(data: Bytes, a: nat, p: nat)
    ensures data[..Min(a, |data|)] + Content(Piece(data, a, p)) == data[..Min(a + p, |data|)]
  {
  }

  /** The first i windows hold the first i * p bytes. */
  lemma {:induction false} WindowsHold(data: Bytes, p: nat, d: nat, i: nat)
    requires i <= d
    ensures Joined(Windows(data, p, d)[..i]) == data[..Min(i * p, |data|)]
  {
    if i > 0 {
      var a := (i - 1) * p;
      assert i * p == a + p;
      PieceExtends(data, a, p);
      JoinedSnoc(Windows(data, p, d), i - 1);
      WindowsHold(data, p, d, i - 1);
    }
  }

  /** No byte is lost, added or moved by cutting. */
  lemma SplitHolds(data: Bytes, d: nat)
    requires d > 0 && data != []
    ensures Joined(Windows(data, PerShard(|data|, d), d)) == data
  {
    var p := PerShard(|data|, d);
    PerShardLeast(|data|, d);
    WindowsHold(data, p, d, d);
    assert Windows(data, p, d)[..d] == Windows(data, p, d);
    assert d * p == p * d;
  }

  // ---- Join -----------------------------------------------------------------------

  /** The first j shards are there and hold outSize bytes. */
  predicate Enough(shards: seq<Shard>, j: nat, outSize: nat)
    requires j <= |shards|
  {
    && (forall i :: 0 <= i < j ==> shards[i].Some?)
    && |Joined(shards[..j])| >= outSize
  }

  /** At least one shard is always looked at, even for no bytes. */
  ghost predicate Ready(shards: seq<Shard>, outSize: nat) {
    if shards == [] then outSize == 0
    else exists j :: 0 < j <= |shards| && Enough(shards, j, outSize)
  }

  /** The check before anything is written: looks at shards until there are enough bytes. */
  method Check(shards: seq<Shard>, outSize: nat) returns (error: Option<Error>)
    ensures error.None? <==> Ready(shards, outSize)
    ensures error == Some(ReconstructRequired) <==> !Ready(shards, outSize) && None in shards
    ensures error != Some(TooFewShards)
  {
    var size, i := 0, 0;
    while i < |shards|
      invariant 0 <= i <= |shards| && size == |Joined(shards[..i])|
      invariant forall j :: 0 <= j < i ==> shards[j].Some?
      invariant i > 0 ==> size < outSize
    {
      if shards[i].None? {
        NotEnough(shards, i, outSize);
        return Some(ReconstructRequired);
      }
      JoinedSnoc(shards, i);
      size := size + Len(shards[i]);
      i := i + 1;
      if size >= outSize {
        assert Enough(shards, i, outSize);
        return None;
      }
    }
    assert shards[..i] == shards;
    if size < outSize {
      NotEnough(shards, i, outSize);
      return Some(ShortData);
    }
    return None;
  }

  lemma NotEnough(shards: seq<Shard>, i: nat, outSize: nat)
    requires i <= |shards| && (i > 0 ==> |Joined(shards[..i])| < outSize)
    requires i == |shards| ==> outSize > 0
    requires i < |shards| ==> shards[i].None?
    ensures !Ready(shards, outSize)
  {
    forall j | 0 < j <= |shards| ensures !Enough(shards, j, outSize) {
      if j <= i {
        assert shards[..i][..j] == shards[..j];
        JoinedPrefix(shards[..i], j);
      }
    }
  }

  /** The copy loop: whole shards, then the part of a shard that is still wanted. */
  method Copy(shards: seq<Shard>, outSize: nat) returns (dst: Bytes)
    requires |Joined(shards)| >= outSize
    ensures dst == Joined(shards)[..outSize]
  {
    var write, i := outSize, 0;
    dst := [];
    while i < |shards|
      invariant 0 <= i <= |shards| && dst == Joined(shards[..i]) && write == outSize - |dst| && write >= 0
    {
      JoinedSnoc(shards, i);
      JoinedPrefix(shards, i + 1);
      if write < Len(shards[i]) {
        return dst + Content(shards[i])[..write];
      }
      dst := dst + Content(shards[i]);
      write := write - Len(shards[i]);
      i := i + 1;
    }
    assert shards[..i] == shards;
  }

  /** `Join`: the first outSize bytes of the data shards, or the reason why they cannot be had. */
  method Join(shards: seq<Shard>, d: nat, outSize: nat) returns (dst: Bytes, error: Option<Error>)
    ensures error == Some(TooFewShards) <==> |shards| < d
    ensures |shards| >= d ==>
              && (error.None? <==> Ready(shards[..d], outSize))
              && (error == Some(ReconstructRequired) <==> !Ready(shards[..d], outSize) && None in shards[..d])
    ensures error.None? ==> outSize <= |Joined(shards[..d])| && dst == Joined(shards[..d])[..outSize]
    ensures error.Some? ==> dst == []
  {
    if |shards| < d {
      return [], Some(TooFewShards);
    }
    error := Check(shards[..d], outSize);
    if error.Some? {
      return [], error;
    }
    ReadyHolds(shards[..d], outSize);
    dst := Copy(shards[..d], outSize);
  }

  lemma ReadyHolds(shards: seq<Shard>, outSize: nat)
    requires Ready(shards, outSize)
    ensures outSize <= |Joined(shards)|
  {
    if shards != [] {
      var j :| 0 < j <= |shards| && Enough(shards, j, outSize);
      JoinedPrefix(shards, j);
    }
  }

  /** Shards that are there, followed by nil shards only. */
  predicate TrailingNils(shards: seq<Shard>, k: nat) {
    && k <= |shards|
    && (forall i :: 0 <= i < k ==> shards[i].Some?)
    && (forall i :: k <= i < |shards| ==> shards[i].None?)
  }

  lemma {:induction false} NilsHoldNothing(shards: seq<Shard>, k: nat, i: nat)
    requires TrailingNils(shards, k) && k <= i <= |shards|
    ensures Joined(shards[..i]) == Joined(shards[..k])
    decreases i
  {
    if i > k {
      NilsHoldNothing(shards, k, i - 1);
      JoinedSnoc(shards, i - 1);
    }
  }

  /** With only trailing shards missing, just the sizes up to the total can be read, unless all are missing. */
  lemma TrailingNilsReadyIff(shards: seq<Shard>, k: nat, outSize: nat)
    requires TrailingNils(shards, k) && shards != []
    ensures Ready(shards, outSize) <==> k > 0 && outSize <= |Joined(shards)|
  {
    NilsHoldNothing(shards, k, |shards|);
    assert shards[..|shards|] == shards;
    if k > 0 && outSize <= |Joined(shards)| {
      assert Enough(shards, k, outSize);
    }
    if Ready(shards, outSize) {
      ReadyHolds(shards, outSize);
    }
  }

  lemma SplitTrails(data: Bytes, d: nat)
    requires d > 0 && data != []
    ensures exists k :: k > 0 && TrailingNils(Windows(data, PerShard(|data|, d), d), k)
  {
    var p := PerShard(|data|, d);
    PerShardLeast(|data|, d);
    var q := |data| / p;
    assert q * p <= |data| < q * p + p;
    WindowsTrail(data, p, d, q);
  }

  lemma WindowsTrail(data: Bytes, p: nat, d: nat, q: nat)
    requires q * p <= |data| < q * p + p
    ensures TrailingNils(Windows(data, p, d), Min(q + 1, d))
  {
    NoWindowsAfter(data, p, q);
    forall i | 0 <= i <= q ensures Window(data, p, i).Some? {
      MulMonotone(i, q, p);
    }
  }

  /** Cutting and joining returns every prefix of the data, so with the full size the data itself. */
  method RoundTrip(data: Bytes, d: nat, outSize: nat) returns (dst: Bytes, error: Option<Error>)
    requires d > 0 && data != []
    ensures error.None? <==> outSize <= |data|
    ensures error.None? ==> dst == data[..outSize]
    ensures error.None? && outSize == |data| ==> dst == data
  {
    var shards, _ := Split(data, d);
    assert shards[..d] == shards;
    SplitHolds(data, d);
    SplitTrails(data, d);
    ghost var k :| k > 0 && TrailingNils(shards, k);
    TrailingNilsReadyIff(shards, k, outSize);
    dst, error := Join(shards, d, outSize);
  }

  // ---- Verify ---------------------------------------------------------------------

  predicate AllFilled(shards: seq<Shard>) {
    forall i :: 0 <= i < |shards| ==> Len(shards[i]) > 0
  }

  method Verify(shards: seq<Shard>, d: nat) returns (ok: bool, error: Option<Error>)
    ensures ok <==> |shards| == d && AllFilled(shards)
    ensures error == if ok then None else Some(TooFewShards)
  {
    if |shards| != d {
      return false, Some(TooFewShards);
    }
    for i := 0 to |shards|
      invariant forall j :: 0 <= j < i ==> Len(shards[j]) > 0
    {
      if Len(shards[i]) == 0 {
        return false, Some(TooFewShards);
      }
    }
    return true, None;
  }

  lemma WindowFilledIff(data: Bytes, p: nat, i: nat)
    requires p > 0
    ensures Len(Window(data, p, i)) > 0 <==> i * p < |data|
  {
  }

  /** What was cut is accepted exactly when the last shard starts within the data. */
  lemma SplitVerifiesIff(data: Bytes, d: nat)
    requires d > 0 && data != []
    ensures AllFilled(Windows(data, PerShard(|data|, d), d)) <==> (d - 1) * PerShard(|data|, d) < |data|
  {
    var p := PerShard(|data|, d);
    PerShardLeast(|data|, d);
    var shards := Windows(data, p, d);
    WindowFilledIff(data, p, d - 1);
    assert shards[d - 1] == Window(data, p, d - 1);
    if (d - 1) * p < |data| {
      forall i | 0 <= i < d ensures Len(shards[i]) > 0 {
        MulMonotone(i, d - 1, p);
        WindowFilledIff(data, p, i);
      }
    }
  }

  /** Five bytes in four shards: the last shard stays nil, and the encoder rejects its own output. */
  lemma SplitRejected()
    ensures !AllFilled(Windows([1, 2, 3, 4, 5], PerShard(5, 4), 4))
  {
    SplitVerifiesIff([1, 2, 3, 4, 5], 4);
  }
}
