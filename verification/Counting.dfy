/** `open_files` against the open-file table it is meant to count. */
module Counting {
  import opened Config
  import opened TableModel
  import opened Serial

  function Count(taken: seq<bool>): nat {
    if taken == [] then 0 else Count(taken[..|taken| - 1]) + if taken[|taken| - 1] then 1 else 0
  }

  lemma {:induction false} CountUpdate(taken: seq<bool>, i: nat, b: bool)
    requires i < |taken|
    ensures Count(taken[i := b]) == Count(taken) - (if taken[i] then 1 else 0) + (if b then 1 else 0)
    decreases |taken|
  {
    var last := |taken| - 1;
    if i == last {
      assert taken[i := b][..last] == taken[..last];
    } else {
      assert taken[i := b][..last] == taken[..last][i := b];
      CountUpdate(taken[..last], i, b);
    }
  }

  lemma {:induction false} CountZero(taken: seq<bool>)
    ensures Count(taken) == 0 <==> forall i :: 0 <= i < |taken| ==> !taken[i]
    decreases |taken|
  {
    if taken != [] {
      CountZero(taken[..|taken| - 1]);
      assert forall i :: 0 <= i < |taken| - 1 ==> taken[..|taken| - 1][i] == taken[i];
    }
  }

  /** `open_files` is the number of taken entries of the open-file table. */
  predicate CountRight(s: Shared)
    requires s.tables.Shaped()
  {
    s.openFiles == Count(s.tables.entryTaken)
  }

  /** Open takes one free entry or none; nothing is assumed of the tables. */
  lemma EntriesAfterOpen(t: Tables, path: CString, flags: int)
    requires t.Shaped() && OpenDefined(path, flags)
    ensures var (r, h) := Open(t, path, flags);
            && (h == -1 ==> r.entryTaken == t.entryTaken)
            && (h != -1 ==> 0 <= h < MAX_OPEN_FILES && !t.entryTaken[h] && r.entryTaken == t.entryTaken[h := true])
  {
  }

  /** The counter stays right across any call exactly when the call is not a close of a handle that is not open. */
  lemma CountKeptExactly(s: Shared, op: Op)
    requires s.tables.Shaped() && CountRight(s)
    ensures CountRight(Apply(s, op).0) <==> (op.OpClose? ==> InRange(op.h, MAX_OPEN_FILES) && s.tables.entryTaken[op.h])
  {
    match op
    case OpOpen(path, flags) =>
      if OpenDefined(path, flags) {
        EntriesAfterOpen(s.tables, path, flags);
        if Open(s.tables, path, flags).1 != -1 {
          CountUpdate(s.tables.entryTaken, Open(s.tables, path, flags).1, true);
        }
      }
    case OpClose(h) =>
      if InRange(h, MAX_OPEN_FILES) && s.tables.entryTaken[h] {
        CountUpdate(s.tables.entryTaken, h, false);
      }
    case OpWrite(h, buffer) =>
    case OpRead(h, len) =>
  }
}
