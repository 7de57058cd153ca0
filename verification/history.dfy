/**
  The history ledger: snapshots of the whole state taken before each
  `assignState`, oldest first.
*/
module History {
  import opened Wrappers
  import opened Json

  /** `pushHistory` (index.ts:75-84): outside debug mode the oldest entry is
      evicted first (when there is one), then the snapshot is appended. */
  function PushHistory(history: seq<State>, debug: bool, snapshot: State): (h: seq<State>)
    ensures |h| > 0 && h[|h| - 1] == snapshot
    ensures debug ==> h == history + [snapshot]
    ensures !debug ==> |h| == if |history| == 0 then 1 else |history|
    ensures !debug && |history| > 0 ==> h[..|h| - 1] == history[1..]
  {
    var kept := if !debug && |history| > 0 then history[1..] else history;
    kept + [snapshot]
  }

  /** Outside debug mode a ledger holding at most one entry keeps exactly
      the newest snapshot. */
  lemma PushHistoryKeepsOne(history: seq<State>, snapshot: State)
    requires |history| <= 1
    ensures PushHistory(history, false, snapshot) == [snapshot]
  {
  }

  /** The entry the subscription engine diffs against: the newest one, or
      absent when the ledger is empty. */
  function Last(history: seq<State>): (r: Option<State>)
    ensures r.None? <==> |history| == 0
    ensures |history| > 0 ==> r == Some(history[|history| - 1])
  {
    if |history| == 0 then None else Some(history[|history| - 1])
  }
}
