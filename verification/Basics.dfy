/** Small generic pieces shared by the models. */
module Basics {

  datatype Option<+T> = None | Some(value: T)

  /** An index into a two-element Go array. */
  type Side = i: int | 0 <= i < 2

  function Other(side: Side): Side {
    1 - side
  }

  /** A two-element Go array `[2]T`. */
  datatype Two<T> = Two(zero: T, one: T) {
    function At(side: Side): T {
      if side == 0 then zero else one
    }

    function Put(side: Side, value: T): Two<T> {
      if side == 0 then Two(value, one) else Two(zero, value)
    }
  }

  /** A number in decimal digits. */
  function Itoa(n: nat): (s: string)
    ensures |s| > 0
  {
    if n < 10 then [Digit(n)] else Itoa(n / 10) + [Digit(n % 10)]
  }

  function Digit(d: nat): char
    requires d < 10
  {
    '0' + d as char
  }

  /** The occupied slots of an array with holes, in order. */
  function Live<T>(slots: seq<Option<T>>): seq<T> {
    if slots == [] then []
    else
      var init, last := slots[..|slots| - 1], slots[|slots| - 1];
      Live(init) + if last.Some? then [last.value] else []
  }

  /** A hole-free array holding exactly the given items. */
  function Slots<T>(items: seq<T>): seq<Option<T>> {
    seq(|items|, i requires 0 <= i < |items| => Some(items[i]))
  }

  /** A sequence with every occurrence of one item removed. */
  function Without<T(==)>(items: seq<T>, item: T): seq<T> {
    if items == [] then []
    else
      var init, last := items[..|items| - 1], items[|items| - 1];
      Without(init, item) + if last == item then [] else [last]
  }

  /** The first index in [lo, hi) whose item belongs to `wanted`, or hi if there is none. */
  function First<T(==)>(items: seq<T>, lo: nat, hi: nat, wanted: set<T>): (j: nat)
    requires lo <= hi <= |items|
    ensures lo <= j <= hi
    ensures j < hi ==> items[j] in wanted
    ensures forall i :: lo <= i < j ==> items[i] !in wanted
    decreases hi - lo
  {
    if lo == hi || items[lo] in wanted then lo else First(items, lo + 1, hi, wanted)
  }

  predicate Distinct<T(==)>(items: seq<T>) {
    forall i, j :: 0 <= i < j < |items| ==> items[i] != items[j]
  }

  lemma LiveSnoc<T>(slots: seq<Option<T>>, i: nat)
    requires i < |slots|
    ensures Live(slots[..i + 1]) == Live(slots[..i]) + if slots[i].Some? then [slots[i].value] else []
  {
    assert slots[..i + 1][..i] == slots[..i];
  }

  lemma {:induction false} LiveConcat<T>(a: seq<Option<T>>, b: seq<Option<T>>)
    ensures Live(a + b) == Live(a) + Live(b)
  {
    if b == [] {
      assert a + b == a;
    } else {
      LiveConcat(a, b[..|b| - 1]);
      assert (a + b)[..|a + b| - 1] == a + b[..|b| - 1];
    }
  }

  lemma LiveSplit<T>(slots: seq<Option<T>>, i: nat)
    requires i <= |slots|
    ensures Live(slots) == Live(slots[..i]) + Live(slots[i..])
  {
    var a, b := slots[..i], slots[i..];
    assert slots == a + b;
    LiveConcat(a, b);
  }

  /** The occupant of slot i is the item whose index is the number of occupied slots before it. */
  lemma LiveAt<T>(slots: seq<Option<T>>, i: nat)
    requires i < |slots|
    ensures |Live(slots[..i])| <= |Live(slots)|
    ensures Live(slots[..i]) == Live(slots)[..|Live(slots[..i])|]
    ensures slots[i].Some? ==>
              && |Live(slots[..i])| < |Live(slots)|
              && Live(slots)[|Live(slots[..i])|] == slots[i].value
  {
    LiveSplit(slots, i);
    LiveSplit(slots, i + 1);
    LiveSnoc(slots, i);
  }

  lemma {:induction false} LiveIn<T>(slots: seq<Option<T>>, x: T)
    ensures x in Live(slots) <==> Some(x) in slots
  {
    if slots != [] {
      var init := slots[..|slots| - 1];
      LiveIn(init, x);
      assert slots == init + [slots[|slots| - 1]];
    }
  }

  lemma {:induction false} LiveSlots<T>(items: seq<T>)
    ensures Live(Slots(items)) == items
  {
    if items != [] {
      var init := items[..|items| - 1];
      LiveSlots(init);
      assert Slots(items)[..|items| - 1] == Slots(init);
      assert items == init + [items[|items| - 1]];
    }
  }

  /** Erasing the only slot that holds x removes x from the live items. */
  lemma {:induction false} LiveErase<T>(slots: seq<Option<T>>, p: nat, x: T)
    requires p < |slots| && slots[p] == Some(x)
    requires forall i :: 0 <= i < |slots| && slots[i] == Some(x) ==> i == p
    ensures Live(slots[p := None]) == Without(Live(slots), x)
  {
    var n := |slots| - 1;
    var init := slots[..n];
    assert slots == init + [slots[n]];
    if p == n {
      LiveIn(init, x);
      WithoutAbsent(Live(init), x);
      assert slots[p := None][..n] == init;
      assert Live(slots)[..|Live(slots)| - 1] == Live(init);
    } else {
      LiveErase(init, p, x);
      assert slots[p := None][..n] == init[p := None];
      if slots[n].Some? {
        assert slots[n] != Some(x);
        assert Live(slots)[..|Live(slots)| - 1] == Live(init);
      } else {
        assert Live(slots) == Live(init);
      }
    }
  }

  lemma {:induction false} WithoutAbsent<T>(items: seq<T>, item: T)
    requires item !in items
    ensures Without(items, item) == items
  {
    if items != [] {
      WithoutAbsent(items[..|items| - 1], item);
    }
  }

  lemma {:induction false} WithoutConcat<T>(a: seq<T>, b: seq<T>, item: T)
    ensures Without(a + b, item) == Without(a, item) + Without(b, item)
  {
    if b == [] {
      assert a + b == a;
    } else {
      WithoutConcat(a, b[..|b| - 1], item);
      assert (a + b)[..|a + b| - 1] == a + b[..|b| - 1];
    }
  }

  lemma {:induction false} LiveDistinct<T>(slots: seq<Option<T>>)
    requires forall i, j :: 0 <= i < j < |slots| && slots[i].Some? ==> slots[i] != slots[j]
    ensures Distinct(Live(slots))
  {
    if slots != [] {
      var n := |slots| - 1;
      LiveDistinct(slots[..n]);
      if slots[n].Some? {
        LiveIn(slots[..n], slots[n].value);
      }
    }
  }

  lemma FirstAgrees<T>(items: seq<T>, lo: nat, hi: nat, a: set<T>, b: set<T>)
    requires lo <= hi <= |items|
    requires forall i :: lo <= i < hi ==> (items[i] in a <==> items[i] in b)
    ensures First(items, lo, hi, a) == First(items, lo, hi, b)
  {
  }

  lemma LiveTail<T>(tail: seq<Option<T>>, after: seq<Option<T>>, x: T)
    requires |after| == |tail|
    requires forall i :: 0 <= i < |tail| ==> after[i] == if tail[i] == Some(x) then None else tail[i]
    requires forall i, j :: 0 <= i < j < |tail| && tail[i] == Some(x) ==> tail[j] != Some(x)
    ensures Live(after) == Without(Live(tail), x)
  {
    if i :| 0 <= i < |tail| && tail[i] == Some(x) {
      assert after == tail[i := None];
      LiveErase(tail, i, x);
    } else {
      assert after == tail;
      LiveIn(tail, x);
      WithoutAbsent(Live(tail), x);
    }
  }

  /** A list of slots around the occupied slot c. */
  lemma LiveAround<T>(slots: seq<Option<T>>, c: nat)
    requires c < |slots| && slots[c].Some?
    ensures Live(slots) == Live(slots[..c]) + [slots[c].value] + Live(slots[c + 1..])
  {
    LiveSplit(slots, c + 1);
    LiveSnoc(slots, c);
  }

  /** Putting x into the occupied slot c, after erasing the one later slot p that held it, if any. */
  lemma LiveReplace<T>(slots: seq<Option<T>>, c: nat, p: nat, x: T)
    requires c < |slots| && slots[c].Some? && slots[c] != Some(x) && p < |slots|
    requires (slots[p].None? && Some(x) !in slots) || (c < p && slots[p] == Some(x))
    requires slots[p].None? ==> p < c
    requires forall i :: 0 <= i < |slots| && slots[i] == Some(x) ==> i == p
    ensures var h := |Live(slots[..c])|;
            && h < |Live(slots)|
            && Live(slots[p := None][c := Some(x)]) == Live(slots)[..h] + [x] + Without(Live(slots)[h + 1..], x)
  {
    var after := slots[p := None][c := Some(x)];
    LiveAround(slots, c);
    LiveAround(after, c);
    LiveTail(slots[c + 1..], after[c + 1..], x);
    assert after[..c] == slots[..c];
    Parts(Live(slots[..c]), slots[c].value, Live(slots[c + 1..]));
  }

  lemma Parts<T>(front: seq<T>, x: T, back: seq<T>)
    ensures (front + [x] + back)[..|front|] == front
    ensures (front + [x] + back)[|front| + 1..] == back
  {
  }

  lemma LiveShrinks<T>(slots: seq<Option<T>>, p: nat)
    requires p < |slots| && slots[p].Some?
    ensures |Live(slots[p := None])| == |Live(slots)| - 1
  {
    var after := slots[p := None];
    LiveSplit(slots, p + 1);
    LiveSnoc(slots, p);
    LiveSplit(after, p + 1);
    LiveSnoc(after, p);
    assert after[p + 1..] == slots[p + 1..] && after[..p] == slots[..p];
  }

  lemma {:induction false} WithoutIn<T>(items: seq<T>, item: T, x: T)
    ensures x in Without(items, item) <==> x in items && x != item
  {
    if items != [] {
      var init := items[..|items| - 1];
      WithoutIn(init, item, x);
      assert items == init + [items[|items| - 1]];
    }
  }

  lemma TakeSnoc<T>(items: seq<T>, i: nat)
    requires i < |items|
    ensures items[..i + 1] == items[..i] + [items[i]]
  {
  }

  predicate UpTo(flags: seq<bool>, k: nat)
    requires k <= |flags|
  {
    forall j :: 0 <= j < k ==> flags[j]
  }

  /** If each step keeps what holds exactly when it is good, it holds up to i exactly when all steps before i are. */
  lemma {:induction false} HoldsUpTo(holds: seq<bool>, good: seq<bool>, i: nat)
    requires i <= |good| < |holds| && holds[0]
    requires forall j {:trigger good[j]} :: 0 <= j < |good| && holds[j] ==> holds[j + 1] == good[j]
    ensures UpTo(holds, i + 1) <==> UpTo(good, i)
  {
    if i > 0 {
      HoldsUpTo(holds, good, i - 1);
      if UpTo(holds, i) {
        assert holds[i - 1 + 1] == good[i - 1];
        assert UpTo(holds, i + 1) <==> holds[i];
        assert UpTo(good, i) <==> good[i - 1];
      }
    }
  }
}
