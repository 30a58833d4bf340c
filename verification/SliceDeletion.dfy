/** The loop that takes a container id out of a pod's slice of ids. It ranges over the
    slice header read once at its start while `append` shifts the shared backing array
    under it, so it also reads the stale tail and can slice out of range. */
module SliceDeletion {
  import opened GoStrings

  /** What one call leaves behind: the kept ids, or a slice-bounds panic. */
  datatype Deletion = Kept(ids: seq<string>) | Panicked

  // ---- what deleting an id should mean ----

  function Without(ids: seq<string>, id: string): (rest: seq<string>)
    ensures id !in rest
    ensures forall x :: x in rest <==> x in ids && x != id
  {
    if ids == [] then []
    else if ids[0] == id then Without(ids[1..], id)
    else [ids[0]] + Without(ids[1..], id)
  }

  predicate NoDuplicates(ids: seq<string>) {
    forall i, j :: 0 <= i < j < |ids| ==> ids[i] != ids[j]
  }

  function Occurrences(ids: seq<string>, id: string): nat {
    if ids == [] then 0 else (if ids[0] == id then 1 else 0) + Occurrences(ids[1..], id)
  }

  predicate Adjacent(ids: seq<string>, id: string) {
    exists k :: 0 < k < |ids| && ids[k - 1] == id == ids[k]
  }

  // ---- what the loop does ----

  /** The backing array after the elements from `i + 1` up to `len` moved down one place. */
  function Shift(a: seq<string>, len: nat, i: nat): (b: seq<string>)
    requires i < len <= |a|
    ensures |b| == |a|
    ensures b[..i] == a[..i]
    ensures forall k :: i <= k < len - 1 ==> b[k] == a[k + 1]
    ensures forall k :: len - 1 <= k < |a| ==> b[k] == a[k]
  {
    a[..i] + a[i + 1..len] + a[len - 1..]
  }

  /** The rest of the loop from index `i`: `a` is the array under the stale header,
      `len` the current length of the slice. */
  function Sweep(a: seq<string>, len: nat, i: nat, id: string): Deletion
    requires len <= |a| && i <= |a|
    decreases |a| - i
  {
    if i == |a| then Kept(a[..len])
    else if a[i] != id then Sweep(a, len, i + 1, id)
    else if len < i + 1 then Panicked
    else Sweep(Shift(a, len, i), len - 1, i + 1, id)
  }

  /** Moves the elements after `i` down one place, as appending them to the front does. */
  method CloseGap(backing: array<string>, count: nat, len: nat, i: nat)
    requires i < len <= count <= backing.Length
    modifies backing
    ensures backing[..count] == Shift(old(backing[..count]), len, i)
    ensures backing[count..] == old(backing[count..])
  {
    ghost var before := backing[..count];
    var k := i;
    while k < len - 1
      invariant i <= k <= len - 1
      invariant forall j :: i <= j < k ==> backing[j] == before[j + 1]
      invariant forall j :: 0 <= j < i || k <= j < count ==> backing[j] == before[j]
      invariant backing[count..] == old(backing[count..])
    {
      backing[k] := backing[k + 1];
      k := k + 1;
    }
    assert backing[..count] == Shift(before, len, i);
  }

  /** The deletion loop on its array. `count` is the slice length on entry. */
  method DeleteInPlace(backing: array<string>, count: nat, id: string) returns (len: nat, panicked: bool)
    requires count <= backing.Length
    modifies backing
    ensures panicked <==> Sweep(old(backing[..count]), count, 0, id).Panicked?
    ensures !panicked ==> len <= count && Kept(backing[..len]) == Sweep(old(backing[..count]), count, 0, id)
    ensures backing[count..] == old(backing[count..])
  {
    len := count;
    var i := 0;
    while i < count
      invariant 0 <= i <= count && len <= count
      invariant Sweep(old(backing[..count]), count, 0, id) == Sweep(backing[..count], len, i, id)
      invariant backing[count..] == old(backing[count..])
    {
      if backing[i] == id {
        if len < i + 1 {
          return len, true;
        }
        CloseGap(backing, count, len, i);
        len := len - 1;
      }
      i := i + 1;
    }
    assert backing[..count][..len] == backing[..len];
    return len, false;
  }

  // ---- when the two agree ----

  /** The loop's effect on the list: each removal hides the next element from the test. */
  function Thinned(ids: seq<string>, id: string): seq<string> {
    if ids == [] then []
    else if ids[0] != id then [ids[0]] + Thinned(ids[1..], id)
    else if |ids| == 1 then []
    else [ids[1]] + Thinned(ids[2..], id)
  }

  lemma ShiftMoves(a: seq<string>, len: nat, i: nat)
    requires i + 1 < len <= |a|
    ensures Shift(a, len, i)[..i + 1] == a[..i] + [a[i + 1]]
    ensures Shift(a, len, i)[i + 1..len - 1] == a[i + 2..len]
    ensures Last(Shift(a, len, i)) == Last(a)
  {
  }

  /** One unfolding of `Thinned` on the live part of the array. */
  lemma ThinnedAt(a: seq<string>, len: nat, i: nat, id: string)
    requires i < len <= |a| && (a[i] == id ==> i + 1 < len)
    ensures a[..i] + Thinned(a[i..len], id) ==
            if a[i] != id then a[..i + 1] + Thinned(a[i + 1..len], id)
            else a[..i] + [a[i + 1]] + Thinned(a[i + 2..len], id)
  {
    var live := a[i..len];
    assert live[1..] == a[i + 1..len];
    if a[i] != id {
      assert a[..i + 1] == a[..i] + [a[i]];
    } else {
      assert live[2..] == a[i + 2..len] && live[1] == a[i + 1];
    }
  }

  /** Past the first removal the tail of the array repeats the last id; the loop panics
      on it exactly when that is the id being removed. */
  lemma {:induction false} SweepAfterRemoval(a: seq<string>, len: nat, i: nat, id: string)
    requires i <= len < |a|
    requires forall k :: i <= k < |a| && len - 1 <= k ==> a[k] == Last(a)
    ensures Last(a) == id ==> Sweep(a, len, i, id) == Panicked
    ensures Last(a) != id ==> Sweep(a, len, i, id) == Kept(a[..i] + Thinned(a[i..len], id))
    decreases |a| - i
  {
    if i == len {
      StaleTail(a, len, i, id);
    } else if a[i] != id {
      SweepAfterRemoval(a, len, i + 1, id);
      ThinnedAt(a, len, i, id);
    } else {
      var b := Shift(a, len, i);
      if i == len - 1 {
        StaleTail(b, len - 1, i + 1, id);
      } else {
        ShiftMoves(a, len, i);
        SweepAfterRemoval(b, len - 1, i + 1, id);
        ThinnedAt(a, len, i, id);
      }
    }
  }

  /** In the stale tail the loop finds nothing, or an id it can no longer slice away. */
  lemma {:induction false} StaleTail(a: seq<string>, len: nat, i: nat, id: string)
    requires a != [] && len <= i <= |a|
    requires forall k :: i <= k < |a| ==> a[k] == Last(a)
    ensures Sweep(a, len, i, id) == if i < |a| && Last(a) == id then Panicked else Kept(a[..len])
    decreases |a| - i
  {
    if i < |a| && Last(a) != id {
      StaleTail(a, len, i + 1, id);
    }
  }

  /** The loop from the first occurrence of the id on. */
  lemma FirstRemoval(ids: seq<string>, i: nat, id: string)
    requires i < |ids| && ids[i] == id
    ensures Sweep(ids, |ids|, i, id) ==
            if i < |ids| - 1 && Last(ids) == id then Panicked
            else Kept(ids[..i] + Thinned(ids[i..|ids|], id))
  {
    var b := Shift(ids, |ids|, i);
    if i == |ids| - 1 {
      assert ids[i..|ids|] == [id];
      assert Thinned([id], id) == [];
      assert Sweep(b, |ids| - 1, i + 1, id) == Kept(b[..i]);
      assert ids[..i] + [] == ids[..i];
    } else {
      ShiftMoves(ids, |ids|, i);
      SweepAfterRemoval(b, |ids| - 1, i + 1, id);
      ThinnedAt(ids, |ids|, i, id);
    }
  }

  lemma {:induction false} SweepBeforeRemoval(ids: seq<string>, i: nat, id: string)
    requires i <= |ids|
    ensures Sweep(ids, |ids|, i, id) ==
            if Occurrences(ids[i..], id) >= 2 && Last(ids) == id then Panicked
            else Kept(ids[..i] + Thinned(ids[i..|ids|], id))
    decreases |ids| - i
  {
    if i < |ids| {
      assert ids[i..][1..] == ids[i + 1..];
      if ids[i] != id {
        ThinnedAt(ids, |ids|, i, id);
        SweepBeforeRemoval(ids, i + 1, id);
      } else {
        FirstRemoval(ids, i, id);
        OccursWhenIn(ids[i + 1..], id);
        assert i < |ids| - 1 ==> ids[i + 1..][|ids| - i - 2] == Last(ids);
        assert i == |ids| - 1 ==> ids[i + 1..] == [];
      }
    } else {
      assert ids[..i] == ids;
    }
  }

  lemma {:induction false} OccursWhenIn(ids: seq<string>, id: string)
    ensures Occurrences(ids, id) >= 1 <==> id in ids
  {
    if ids != [] {
      OccursWhenIn(ids[1..], id);
    }
  }

  /** The whole call on any list: it panics exactly when the id being removed occurs at
      least twice and also ends the list; otherwise it thins the list. */
  lemma DeletionOutcome(ids: seq<string>, id: string)
    ensures Sweep(ids, |ids|, 0, id) ==
            if Occurrences(ids, id) >= 2 && Last(ids) == id then Panicked else Kept(Thinned(ids, id))
  {
    SweepBeforeRemoval(ids, 0, id);
    assert ids[0..] == ids && ids[0..|ids|] == ids;
    assert ids[..0] + Thinned(ids, id) == Thinned(ids, id);
  }

  lemma {:induction false} ThinnedIsWithout(ids: seq<string>, id: string)
    ensures Thinned(ids, id) == Without(ids, id) <==> !Adjacent(ids, id)
    decreases |ids|
  {
    if |ids| >= 1 {
      var rest := ids[1..];
      assert Adjacent(ids, id) <==> (|ids| >= 2 && ids[0] == id == ids[1]) || Adjacent(rest, id) by {
        if k :| 0 < k < |rest| && rest[k - 1] == id == rest[k] {
          assert ids[k] == id == ids[k + 1];
        }
        if k :| 0 < k < |ids| && ids[k - 1] == id == ids[k] && k > 1 {
          assert rest[k - 2] == id == rest[k - 1];
        }
      }
      if ids[0] != id {
        ThinnedIsWithout(rest, id);
        assert Thinned(ids, id)[1..] == Thinned(rest, id) && Without(ids, id)[1..] == Without(rest, id);
      } else if |ids| >= 2 {
        if ids[1] == id {
          assert id in Thinned(ids, id);
        } else {
          ThinnedIsWithout(rest, id);
          assert rest[1..] == ids[2..];
          assert Thinned(ids, id) == Thinned(rest, id);
        }
      }
    }
  }

  /** The loop removes the id and nothing else, exactly when the list never holds the id
      twice in a row and holds it at most once if it ends with it. */
  lemma DeletesExactlyWhen(ids: seq<string>, id: string)
    ensures Sweep(ids, |ids|, 0, id) == Kept(Without(ids, id)) <==>
            !Adjacent(ids, id) && (Occurrences(ids, id) >= 2 ==> Last(ids) != id)
  {
    DeletionOutcome(ids, id);
    ThinnedIsWithout(ids, id);
  }

  lemma {:induction false} NoDuplicatesOccurOnce(ids: seq<string>, id: string)
    requires NoDuplicates(ids)
    ensures Occurrences(ids, id) <= 1
  {
    if ids != [] {
      NoDuplicatesOccurOnce(ids[1..], id);
      OccursWhenIn(ids[1..], id);
    }
  }

  /** On the lists the service keeps, deletion never panics, removes exactly the given
      id, and keeps the order of the rest. */
  lemma DeletesFromDuplicateFree(ids: seq<string>, id: string)
    requires NoDuplicates(ids)
    ensures Sweep(ids, |ids|, 0, id) == Kept(Without(ids, id))
    ensures NoDuplicates(Without(ids, id))
  {
    NoDuplicatesOccurOnce(ids, id);
    DeletesExactlyWhen(ids, id);
    WithoutKeepsDistinct(ids, id);
  }

  lemma {:induction false} WithoutKeepsDistinct(ids: seq<string>, id: string)
    requires NoDuplicates(ids)
    ensures NoDuplicates(Without(ids, id))
  {
    if ids != [] {
      WithoutKeepsDistinct(ids[1..], id);
      assert ids[0] !in ids[1..];
    }
  }

  /** The smallest failures: two adjacent copies at the end panic, and a hidden copy stays. */
  lemma DuplicatesBreakDeletion(x: string, y: string)
    requires x != y
    ensures Sweep([x, x], 2, 0, x) == Panicked
    ensures Sweep([x, x, y], 3, 0, x) == Kept([x, y])
  {
    DeletionOutcome([x, x], x);
    DeletionOutcome([x, x, y], x);
    assert [x, x][1..] == [x];
    assert [x, x, y][1..] == [x, y] && [x, y][1..] == [y] && [x, x, y][2..] == [y];
    assert Thinned([y], x) == [y];
  }
}
