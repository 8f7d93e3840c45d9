/** Garbled rows travel in chunks.

All but the last hold exactly `c` rows. */
module Chunks {
  function Split<T>(rows: seq<T>, c: nat): (chunks: seq<seq<T>>)
    requires c > 0
    ensures rows != [] <==> chunks != []
    decreases |rows|
  {
    if rows == [] then []
    else if |rows| <= c then [rows]
    else [rows[..c]] + Split(rows[c..], c)
  }

  /** Appending rows after a whole number of full chunks starts a new chunk. */
  lemma {:induction false} SplitAppend<T>(done: seq<T>, more: seq<T>, c: nat, j: nat)
    requires c > 0 && |done| == c * j && 0 < |more| <= c
    ensures Split(done + more, c) == Split(done, c) + [more]
    decreases j
  {
    if j == 0 {
      assert done + more == more;
    } else {
      assert c * j == c + c * (j - 1);
      var rows := done + more;
      assert rows[..c] == done[..c] && rows[c..] == done[c..] + more;
      SplitAppend(done[c..], more, c, j - 1);
      if |done| == c {
        assert done[c..] == [] && done == done[..c];
      }
    }
  }

  /** Chunk `j` holds the rows from `c * j` on. */
  lemma {:induction false} ChunkAt<T>(rows: seq<T>, c: nat, j: nat)
    requires c > 0 && c * j < |rows|
    ensures j < |Split(rows, c)|
    ensures Split(rows, c)[j] == rows[c * j..if c * j + c < |rows| then c * j + c else |rows|]
    decreases j
  {
    if j == 0 {
    } else {
      var m, rest := c * (j - 1), rows[c..];
      assert c * j == c + m;
      ChunkAt(rest, c, j - 1);
      var end := if m + c < |rest| then m + c else |rest|;
      assert rest[m..end] == rows[c + m..c + end];
    }
  }
}
