/** The bounded list of rotated files kept on disk (rotate/logger.go:265-271). */
module Retention {
  import opened Outcomes

  /** The list after a rotation, oldest first, and the file deleted to make room, if any. */
  datatype Retained = Retained(list: seq<string>, evicted: Option<string>)

  /** Records a newly rotated file. With a positive depth the path is appended
      and, when that takes the list past the depth, the oldest entry is dropped
      (and its file deleted); with depth zero or less nothing is kept. */
  function Retain(list: seq<string>, depth: int, path: string): (r: Retained)
    ensures depth <= 0 ==> r == Retained(list, None)
    ensures depth > 0 ==> |r.list| > 0 && r.list[|r.list| - 1] == path
    ensures depth > 0 && |list| <= depth ==> |r.list| <= depth
    ensures depth > 0 ==> (r.evicted.Some? <==> |list| + 1 > depth)
    ensures r.evicted.Some? ==> |list| > 0 && r.evicted.value == list[0] && r.list == list[1..] + [path]
    ensures depth > 0 && r.evicted.None? ==> r.list == list + [path]
  {
    if depth > 0 then
      var grown := list + [path];
      if |grown| > depth then Retained(grown[1..], Some(grown[0]))
      else Retained(grown, None)
    else
      Retained(list, None)
  }

  /** The list and the deletions after a run of rotations, oldest first. */
  datatype History = History(list: seq<string>, evicted: seq<string>)

  function RetainAll(list: seq<string>, depth: int, paths: seq<string>): History
    decreases |paths|
  {
    if |paths| == 0 then History(list, [])
    else
      var r := Retain(list, depth, paths[0]);
      var rest := RetainAll(r.list, depth, paths[1..]);
      History(rest.list, (if r.evicted.Some? then [r.evicted.value] else []) + rest.evicted)
  }

  /** How many of `n` entries fall off a list bounded by `depth`. */
  function Overflow(n: nat, depth: nat): nat
  {
    if n > depth then n - depth else 0
  }

  /** Starting from a list within the depth, after any run of rotations the
      list holds the `depth` most recent paths and every older one has been
      deleted, oldest first: nothing is lost from the record of files. */
  lemma {:induction false} RetainAllKeepsNewest(list: seq<string>, depth: nat, paths: seq<string>)
    requires depth > 0 && |list| <= depth
    ensures var h := RetainAll(list, depth, paths);
            var all := list + paths;
            h.list == all[Overflow(|all|, depth)..] && h.evicted == all[..Overflow(|all|, depth)]
    decreases |paths|
  {
    var all := list + paths;
    if |paths| > 0 {
      var r := Retain(list, depth, paths[0]);
      RetainAllKeepsNewest(r.list, depth, paths[1..]);
      var rest := RetainAll(r.list, depth, paths[1..]);
      if r.evicted.Some? {
        EvictingStep(list, depth, paths, rest);
      } else {
        KeepingStep(list, depth, paths);
      }
    } else {
      assert all == list;
    }
  }

  /** The inductive step of RetainAllKeepsNewest when the first rotation deletes nothing. */
  lemma KeepingStep(list: seq<string>, depth: nat, paths: seq<string>)
    requires depth > 0 && |paths| > 0
    requires Retain(list, depth, paths[0]).evicted.None?
    ensures Retain(list, depth, paths[0]).list + paths[1..] == list + paths
  {
    assert (list + [paths[0]]) + paths[1..] == list + paths;
  }

  /** The inductive step of RetainAllKeepsNewest when the first rotation deletes a file. */
  lemma EvictingStep(list: seq<string>, depth: nat, paths: seq<string>, rest: History)
    requires depth > 0 && |list| <= depth && |paths| > 0
    requires Retain(list, depth, paths[0]).evicted.Some?
    requires var l := Retain(list, depth, paths[0]).list;
             var all := l + paths[1..];
             rest.list == all[Overflow(|all|, depth)..] && rest.evicted == all[..Overflow(|all|, depth)]
    ensures var all := list + paths;
            var e := [list[0]] + rest.evicted;
            rest.list == all[Overflow(|all|, depth)..] && e == all[..Overflow(|all|, depth)]
  {
    var all := list + paths;
    var n := |all|;
    var l := Retain(list, depth, paths[0]).list;
    assert |list| == depth;
    assert l + paths[1..] == all[1..];
    assert Overflow(n - 1, depth) == n - 1 - depth;
    assert all[1..][n - 1 - depth..] == all[n - depth..];
    assert [list[0]] + all[1..][..n - 1 - depth] == all[..n - depth];
  }

  /** With no positive depth nothing is ever recorded or deleted. */
  lemma {:induction false} RetainAllUnbounded(list: seq<string>, depth: int, paths: seq<string>)
    requires depth <= 0
    ensures RetainAll(list, depth, paths) == History(list, [])
    decreases |paths|
  {
    if |paths| > 0 {
      RetainAllUnbounded(list, depth, paths[1..]);
    }
  }
}
