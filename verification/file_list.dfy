/** The list of input files behind PDFJoin's window, as values: what adding a batch of
    selected paths, removing one path, and the enable/label decision compute. */
module FileList {
  import opened JoinTypes

  /** The list's invariant: no path is listed twice. */
  predicate NoDuplicates(s: seq<Path>)
  {
    forall i, j :: 0 <= i < j < |s| ==> s[i] != s[j]
  }

  /** The position of the first occurrence of p. */
  function FirstIndex(s: seq<Path>, p: Path): (i: nat)
    requires p in s
    ensures i < |s| && s[i] == p && p !in s[..i]
  {
    if s[0] == p then 0
    else
      var k := FirstIndex(s[1..], p);
      assert s[..k + 1] == [s[0]] + s[1..][..k];
      k + 1
  }

  /** Any position holding the first occurrence of p is FirstIndex(s, p). */
  lemma FirstIndexUnique(s: seq<Path>, p: Path, k: nat)
    requires k < |s| && s[k] == p && p !in s[..k]
    ensures FirstIndex(s, p) == k
  {
  }

  /** Appending an element does not move the first occurrence of a path already present. */
  lemma FirstIndexAppend(s: seq<Path>, x: Path, y: Path)
    requires y in s
    ensures y in s + [x] && FirstIndex(s + [x], y) == FirstIndex(s, y)
  {
    var k := FirstIndex(s, y);
    assert (s + [x])[..k] == s[..k];
    FirstIndexUnique(s + [x], y, k);
  }

  /** One step of the selection loop: a path already listed is skipped, any other is appended. */
  function AddPath(s: seq<Path>, p: Path): seq<Path>
  {
    if p in s then s else s + [p]
  }

  /** The list after the selection loop has run over a whole batch of selected paths. */
  function AddAll(s: seq<Path>, batch: seq<Path>): seq<Path>
    decreases |batch|
  {
    if batch == [] then s else AddPath(AddAll(s, batch[..|batch| - 1]), batch[|batch| - 1])
  }

  /** After an add, the list holds exactly the old entries and the batch's paths. */
  lemma {:induction false} AddAllMembers(s: seq<Path>, batch: seq<Path>)
    ensures forall x :: x in AddAll(s, batch) <==> x in s || x in batch
    decreases |batch|
  {
    if batch != [] {
      var init := batch[..|batch| - 1];
      assert batch == init + [batch[|batch| - 1]];
      AddAllMembers(s, init);
    }
  }

  /** An add keeps every old entry at its old position and appends only batch paths that
      were not listed before. */
  lemma {:induction false} AddAllKeepsExisting(s: seq<Path>, batch: seq<Path>)
    ensures var r := AddAll(s, batch);
      |s| <= |r| && r[..|s|] == s &&
      forall k :: |s| <= k < |r| ==> r[k] in batch && r[k] !in s
    decreases |batch|
  {
    if batch != [] {
      var init := batch[..|batch| - 1];
      var x := batch[|batch| - 1];
      assert batch == init + [x];
      AddAllKeepsExisting(s, init);
      AddAllMembers(s, init);
      var r' := AddAll(s, init);
      if x !in r' {
        assert (r' + [x])[..|s|] == r'[..|s|];
      }
    }
  }

  /** The appended paths come in the order in which they first occur in the batch. */
  lemma {:induction false} AddAllOrder(s: seq<Path>, batch: seq<Path>)
    ensures var r := AddAll(s, batch);
      forall i, j :: |s| <= i < j < |r| ==>
        r[i] in batch && r[j] in batch && FirstIndex(batch, r[i]) < FirstIndex(batch, r[j])
    decreases |batch|
  {
    if batch != [] {
      var init := batch[..|batch| - 1];
      var x := batch[|batch| - 1];
      assert batch == init + [x];
      AddAllOrder(s, init);
      AddAllKeepsExisting(s, init);
      AddAllMembers(s, init);
      var r' := AddAll(s, init);
      var r := AddAll(s, batch);
      if x !in r' {
        assert batch[..|init|] == init;
        FirstIndexUnique(batch, x, |init|);
      }
      forall i, j | |s| <= i < j < |r|
        ensures r[i] in batch && r[j] in batch && FirstIndex(batch, r[i]) < FirstIndex(batch, r[j])
      {
        FirstIndexAppend(init, x, r[i]);
        if j < |r'| {
          FirstIndexAppend(init, x, r[j]);
        }
      }
    }
  }

  /** Adding a batch to a duplicate-free list yields a duplicate-free list, even when the
      batch itself names a path twice. */
  lemma {:induction false} AddAllNoDuplicates(s: seq<Path>, batch: seq<Path>)
    requires NoDuplicates(s)
    ensures NoDuplicates(AddAll(s, batch))
    decreases |batch|
  {
    if batch != [] {
      var init := batch[..|batch| - 1];
      AddAllNoDuplicates(s, init);
    }
  }

  /** A batch whose paths are all listed already changes nothing. */
  lemma {:induction false} AddAllPresent(t: seq<Path>, batch: seq<Path>)
    requires forall x :: x in batch ==> x in t
    ensures AddAll(t, batch) == t
    decreases |batch|
  {
    if batch != [] {
      var init := batch[..|batch| - 1];
      assert batch == init + [batch[|batch| - 1]];
      AddAllPresent(t, init);
    }
  }

  /** Adding the same batch twice is the same as adding it once. */
  lemma AddAllIdempotent(s: seq<Path>, batch: seq<Path>)
    ensures AddAll(AddAll(s, batch), batch) == AddAll(s, batch)
  {
    AddAllMembers(s, batch);
    AddAllPresent(AddAll(s, batch), batch);
  }

  /** The list with the first occurrence of p deleted, as `list.remove` leaves it. */
  function RemoveFirst(s: seq<Path>, p: Path): seq<Path>
    requires p in s
  {
    s[..FirstIndex(s, p)] + s[FirstIndex(s, p) + 1..]
  }

  /** Removing deletes exactly one copy of p and nothing else. */
  lemma RemoveFirstCounts(s: seq<Path>, p: Path)
    requires p in s
    ensures |RemoveFirst(s, p)| == |s| - 1
    ensures multiset(RemoveFirst(s, p)) == multiset(s) - multiset{p}
  {
    var i := FirstIndex(s, p);
    assert s == s[..i] + [p] + s[i + 1..];
  }

  /** A path other than p keeps its first occurrence, one position earlier when it stood
      behind the removed entry. */
  lemma RemoveFirstIndex(s: seq<Path>, p: Path, x: Path)
    requires p in s && x in s && x != p
    ensures x in RemoveFirst(s, p)
    ensures FirstIndex(RemoveFirst(s, p), x) ==
      if FirstIndex(s, x) < FirstIndex(s, p) then FirstIndex(s, x) else FirstIndex(s, x) - 1
  {
    var i, k, r := FirstIndex(s, p), FirstIndex(s, x), RemoveFirst(s, p);
    if k < i {
      assert r[k] == x && r[..k] == s[..k];
      FirstIndexUnique(r, x, k);
    } else {
      assert r[k - 1] == x;
      assert r[..k - 1] == s[..i] + s[i + 1..k];
      assert s[..k] == s[..i] + [p] + s[i + 1..k];
      FirstIndexUnique(r, x, k - 1);
    }
  }

  /** Removing leaves the other entries in the same relative order. */
  lemma RemoveFirstKeepsOrder(s: seq<Path>, p: Path)
    requires p in s
    ensures forall x, y :: x in s && y in s && x != p && y != p ==>
      x in RemoveFirst(s, p) && y in RemoveFirst(s, p) &&
      (FirstIndex(RemoveFirst(s, p), x) < FirstIndex(RemoveFirst(s, p), y) <==> FirstIndex(s, x) < FirstIndex(s, y))
  {
    forall x, y | x in s && y in s && x != p && y != p
      ensures x in RemoveFirst(s, p) && y in RemoveFirst(s, p) &&
        (FirstIndex(RemoveFirst(s, p), x) < FirstIndex(RemoveFirst(s, p), y) <==> FirstIndex(s, x) < FirstIndex(s, y))
    {
      RemoveFirstIndex(s, p, x);
      RemoveFirstIndex(s, p, y);
    }
  }

  /** On a duplicate-free list, removing p leaves a duplicate-free list holding every other
      entry and not p. */
  lemma RemoveFirstNoDuplicates(s: seq<Path>, p: Path)
    requires NoDuplicates(s) && p in s
    ensures NoDuplicates(RemoveFirst(s, p))
    ensures forall x :: x in RemoveFirst(s, p) <==> x in s && x != p
  {
  }

  /** Removing a path and then adding it again puts it back at the end of the list. */
  lemma RemoveThenAdd(s: seq<Path>, p: Path)
    requires NoDuplicates(s) && p in s
    ensures AddAll(RemoveFirst(s, p), [p]) == RemoveFirst(s, p) + [p]
  {
  }

  /** The status line under the list. */
  datatype Label =
    | PleaseAddFiles       // "Please add PDF files."
    | JoinFiles(count: nat) // "Join <count> files."

  /** What `update_label` sets: the label and whether the Join and "Remove all files."
      buttons are enabled. */
  datatype Controls = Controls(status: Label, joinEnabled: bool, removeAllEnabled: bool)

  /** The controls' state as a function of the list. */
  function UpdateLabel(files: seq<Path>): (c: Controls)
    ensures c.joinEnabled <==> files != []
    ensures c.removeAllEnabled <==> files != []
    ensures c.status == PleaseAddFiles <==> files == []
    ensures c.status.JoinFiles? ==> c.status.count == |files|
  {
    if |files| > 0 then Controls(JoinFiles(|files|), true, true)
    else Controls(PleaseAddFiles, false, false)
  }

  /** A non-empty selection always enables Join. */
  lemma AddEnablesJoin(s: seq<Path>, batch: seq<Path>)
    requires batch != []
    ensures UpdateLabel(AddAll(s, batch)).joinEnabled
  {
  }
}
