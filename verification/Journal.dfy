/** Append-only hash chains: the journal of the prediction ledger (src/predict_agent/db.py:219-255) and
    the event log of the trading agent (src/japan_agent/storage.py:562-645). Both store, beside each
    entry's content, the digest of the entry before it and the digest of all that.

    A digest is modelled as the value it digests, so distinct entries have distinct digests and none
    equals the genesis value. */
module Journal {
  import opened Prelude

  datatype Digest<T> = Genesis | Hash(content: T, prev: Digest<T>)

  datatype Entry<T> = Entry(content: T, prev: Digest<T>, hash: Digest<T>)

  function Head<T>(rows: seq<Entry<T>>): Digest<T> {
    if rows == [] then Genesis else rows[|rows| - 1].hash
  }

  /** The rows after appending one entry. */
  function Appended<T>(rows: seq<Entry<T>>, content: T): seq<Entry<T>> {
    rows + [Entry(content, Head(rows), Hash(content, Head(rows)))]
  }

  function AppendedAll<T>(rows: seq<Entry<T>>, contents: seq<T>): seq<Entry<T>>
    decreases |contents|
  {
    if contents == [] then rows else AppendedAll(Appended(rows, contents[0]), contents[1..])
  }

  function Contents<T>(rows: seq<Entry<T>>): (r: seq<T>)
    ensures |r| == |rows|
  {
    seq(|rows|, i requires 0 <= i < |rows| => rows[i].content)
  }

  /** Every row is linked to the row before it and carries the digest of its own columns. */
  ghost predicate Chained<T(!new)>(rows: seq<Entry<T>>) {
    forall i | 0 <= i < |rows| :: rows[i].prev == Head(rows[..i]) && rows[i].hash == Hash(rows[i].content, rows[i].prev)
  }

  class Log<T(==)> {
    var rows: seq<Entry<T>>

    constructor ()
      ensures rows == []
    {
      rows := [];
    }

    method Append(content: T) returns (hash: Digest<T>)
      modifies this
      ensures rows == Appended(old(rows), content) && hash == Head(rows)
    {
      var prev := Head(rows);
      hash := Hash(content, prev);
      rows := rows + [Entry(content, prev, hash)];
    }
  }

  /** Walk the chain from the genesis value; the first broken link ends it. A count is returned for an
      intact chain. */
  method Verify<T(==, !new)>(rows: seq<Entry<T>>) returns (count: Option<nat>)
    ensures count == if Chained(rows) then Some(|rows|) else None
  {
    var prev := Genesis;
    var i := 0;
    while i < |rows|
      invariant 0 <= i <= |rows|
      invariant prev == Head(rows[..i])
      invariant forall k | 0 <= k < i ::
                  rows[k].prev == Head(rows[..k]) && rows[k].hash == Hash(rows[k].content, rows[k].prev)
    {
      var row := rows[i];
      if row.prev != prev {
        return None;
      }
      if Hash(row.content, row.prev) != row.hash {
        return None;
      }
      prev := row.hash;
      i := i + 1;
      assert rows[..i][|rows[..i]| - 1] == row;
    }
    count := Some(|rows|);
  }

  lemma ChainedSnoc<T(!new)>(rows: seq<Entry<T>>, e: Entry<T>)
    ensures Chained(rows + [e]) <==> Chained(rows) && e.prev == Head(rows) && e.hash == Hash(e.content, e.prev)
  {
    var all := rows + [e];
    assert forall i | 0 <= i <= |rows| :: all[..i] == rows[..i];
    assert rows[..|rows|] == rows;
    assert all[|rows|] == e;
    if Chained(all) {
      assert forall i | 0 <= i < |rows| :: all[i] == rows[i];
    }
  }

  /** What was appended verifies, and nothing of it is lost. */
  lemma {:induction false} AppendedVerifies<T(!new)>(rows: seq<Entry<T>>, contents: seq<T>)
    requires Chained(rows)
    ensures Chained(AppendedAll(rows, contents))
    ensures Contents(AppendedAll(rows, contents)) == Contents(rows) + contents
    decreases |contents|
  {
    if contents == [] {
      assert Contents(rows) + contents == Contents(rows);
    } else {
      var next := Appended(rows, contents[0]);
      ChainedSnoc(rows, next[|rows|]);
      AppendedVerifies(next, contents[1..]);
      assert Contents(next) == Contents(rows) + [contents[0]];
      assert contents == [contents[0]] + contents[1..];
    }
  }

  /** TAMPER EVIDENCE: two chains that verify and end in the same digest are the same chain. */
  lemma {:induction false} SameHeadSameChain<T(!new)>(rows: seq<Entry<T>>, other: seq<Entry<T>>)
    requires Chained(rows) && Chained(other) && Head(rows) == Head(other)
    ensures rows == other
    decreases |rows|
  {
    if rows != [] {
      assert rows == rows[..|rows| - 1] + [rows[|rows| - 1]];
      ChainedSnoc(rows[..|rows| - 1], rows[|rows| - 1]);
    }
    if other != [] {
      assert other == other[..|other| - 1] + [other[|other| - 1]];
      ChainedSnoc(other[..|other| - 1], other[|other| - 1]);
    }
    if rows != [] && other != [] {
      SameHeadSameChain(rows[..|rows| - 1], other[..|other| - 1]);
    }
  }

  /** A chain verifies exactly when appending its own contents in order builds it. */
  lemma {:induction false} VerifiesIffAppended<T(!new)>(rows: seq<Entry<T>>)
    ensures Chained(rows) <==> rows == AppendedAll([], Contents(rows))
  {
    AppendedVerifies<T>([], Contents(rows));
    if Chained(rows) {
      var built := AppendedAll<T>([], Contents(rows));
      SameContentsSameChain(rows, built);
    }
  }

  lemma {:induction false} SameContentsSameChain<T(!new)>(rows: seq<Entry<T>>, other: seq<Entry<T>>)
    requires Chained(rows) && Chained(other) && Contents(rows) == Contents(other)
    ensures rows == other
    decreases |rows|
  {
    assert |rows| == |other|;
    if rows != [] {
      var init, last := rows[..|rows| - 1], rows[|rows| - 1];
      var init', last' := other[..|other| - 1], other[|other| - 1];
      assert rows == init + [last] && other == init' + [last'];
      ChainedSnoc(init, last);
      ChainedSnoc(init', last');
      assert Contents(rows)[..|init|] == Contents(init) && Contents(other)[..|init'|] == Contents(init');
      assert Contents(rows)[|init|] == last.content && Contents(other)[|init'|] == last'.content;
      SameContentsSameChain(init, init');
    }
  }
}
