/**
 What a restart vouches for, whatever journal it finds (src/sleeves/chain.js:22-33): nothing is assumed of the rows
 except that they were read.
 */
module ReplayLaws {
  import opened Prelude
  import opened Journal

  /** The row says what the machine does in its place. */
  ghost predicate Agrees<V>(m: Machine<V>, c: Chain<V>, row: Row) {
    var answer := Send(m, c.(timestamp := row.time), row.call).1;
    && c.timestamp <= row.time
    && match row.status
       case REVERTED => row.error != "" && answer == Err(row.error)
       case _ => answer.Ok? && (row.hash == "" || row.hash == answer.value.hash)
  }

  /** The row has for its error the text of the very check it fails, and so the failure is taken for the expected one. */
  ghost predicate Excused<V>(m: Machine<V>, c: Chain<V>, row: Row) {
    && row.status == REVERTED
    && if row.time < c.timestamp then row.error == CLOCK_BACKWARDS
       else row.error == REVERT_CHANGED && Send(m, c.(timestamp := row.time), row.call).1.Ok?
  }

  function Next<V>(m: Machine<V>, c: Chain<V>, row: Row): Chain<V> {
    if row.time < c.timestamp then c else Send(m, c.(timestamp := row.time), row.call).0
  }

  ghost predicate Vouched<V>(m: Machine<V>, c: Chain<V>, rows: seq<Row>)
    decreases rows
  {
    rows == [] || ((Agrees(m, c, rows[0]) || Excused(m, c, rows[0])) && Vouched(m, Next(m, c, rows[0]), rows[1..]))
  }

  lemma RowPassesIff<V>(m: Machine<V>, c: Chain<V>, row: Row)
    ensures Perform(m, c, row).chain == Next(m, c, row)
    ensures Expected(row, Perform(m, c, row).answer) <==> Agrees(m, c, row) || Excused(m, c, row)
  {
    hide Send;
  }

  /**
   A restart completes exactly when every row of the journal, in order, agrees with the machine: confirmed and prepared
   ones succeed, with the recorded hash if there is one, reverted ones revert with the recorded text, and the clock does
   not go back. The exception is a row whose recorded text is that of the check it fails.
   */
  lemma {:induction false} ReplayPassesIff<V>(m: Machine<V>, c: Chain<V>, rows: seq<Row>)
    ensures Replay(m, c, rows).failure.None? <==> Vouched(m, c, rows)
    decreases rows
  {
    hide Perform, Agrees, Excused, Expected, Next;
    if rows != [] {
      RowPassesIff(m, c, rows[0]);
      ReplayPassesIff(m, Next(m, c, rows[0]), rows[1..]);
    }
  }

  /** No row carries the text of one of the two checks. */
  ghost predicate NoneExcused(rows: seq<Row>) {
    forall i :: 0 <= i < |rows| ==> rows[i].error != CLOCK_BACKWARDS && rows[i].error != REVERT_CHANGED
  }

  ghost predicate NoneDone<V>(c: Chain<V>, rows: seq<Row>) {
    forall i :: 0 <= i < |rows| ==> rows[i].call.tag !in c.done
  }

  lemma AgreedIsHonest<V>(m: Machine<V>, c: Chain<V>, row: Row)
    requires Agrees(m, c, row) && row.call.tag !in c.done
    ensures var after := Perform(m, c, row).row;
      && HonestRow(m, c, after) && after.status != PREPARED && after.call == row.call && after.time == row.time
    ensures Perform(m, c, row).chain == Send(m, c.(timestamp := row.time), row.call).0
  {
    hide Send;
  }

  lemma SendAddsTag<V>(m: Machine<V>, c: Chain<V>, call: Call, tag: string)
    ensures tag in Send(m, c, call).0.done ==> tag in c.done || tag == call.tag
  {
  }

  /**
   Whatever journal a restart finds, if it completes, the journal it leaves is honest and has every outcome, and the chain
   is that of one ordered run over the journal it found; only different tags and no excused row are asked for.
   */
  lemma {:induction false} RestartCertifies<V(!new)>(m: Machine<V>, c: Chain<V>, rows: seq<Row>)
    requires TagsDiffer(rows) && NoneDone(c, rows) && NoneExcused(rows)
    requires Replay(m, c, rows).failure.None?
    ensures var r := Replay(m, c, rows);
      && Honest(m, c, r.journal) && Finished(r.journal) && r.chain == Fold(m, c, r.journal) == Fold(m, c, rows)
      && |r.journal| == |rows| && (forall i :: 0 <= i < |rows| ==> r.journal[i].call == rows[i].call)
    decreases rows
  {
    hide Perform, Agrees, Expected, Send, HonestRow;
    if rows != [] {
      RowPassesIff(m, c, rows[0]);
      AgreedIsHonest(m, c, rows[0]);
      var p, next, tail := Perform(m, c, rows[0]), Send(m, c.(timestamp := rows[0].time), rows[0].call).0, rows[1..];
      forall i | 0 <= i < |tail| ensures tail[i].call.tag !in next.done {
        SendAddsTag(m, c.(timestamp := rows[0].time), rows[0].call, tail[i].call.tag);
        assert tail[i] == rows[i + 1];
      }
      RestartCertifies(m, next, tail);
      var rest := Replay(m, next, tail);
      assert ([p.row] + rest.journal)[1..] == rest.journal;
    }
  }

  /** The exception is real: a row out of time passes, and the machine never runs, if its error says just that. */
  lemma ExcusedPasses<V>(m: Machine<V>, c: Chain<V>, row: Row)
    requires row.status == REVERTED && row.error == CLOCK_BACKWARDS && row.time < c.timestamp
    ensures Replay(m, c, [row]).failure.None? && Replay(m, c, [row]).chain == c && !Agrees(m, c, row)
  {
    hide Send;
    assert [row][1..] == [];
  }

  // ---------------------------------------------------------------------------------------------
  // Tags on the live chain

  function SendAll<V>(m: Machine<V>, c: Chain<V>, calls: seq<Call>): Chain<V>
    decreases calls
  {
    if calls == [] then c else SendAll(m, Send(m, c, calls[0]).0, calls[1..])
  }

  lemma {:induction false} ReceiptStays<V>(m: Machine<V>, c: Chain<V>, calls: seq<Call>, tag: string)
    requires tag in c.done
    ensures tag in SendAll(m, c, calls).done && SendAll(m, c, calls).done[tag] == c.done[tag]
    decreases calls
  {
    if calls != [] {
      ReceiptStays(m, Send(m, c, calls[0]).0, calls[1..], tag);
    }
  }

  /**
   Whatever is sent in between (src/pilot/chain.js:75-90), a tag that has succeeded once changes nothing any more: the same
   intent is answered with the receipt of the first time, another one is refused.
   */
  lemma TagKeepsIntent<V>(m: Machine<V>, c: Chain<V>, first: Call, between: seq<Call>, later: Call)
    requires Send(m, c, first).1.Ok? && later.tag == first.tag
    ensures
      var once := Send(m, c, first);
      var at := SendAll(m, once.0, between);
      && m.encode(first).Ok? && Send(m, at, later).0 == at
      && (m.encode(later) == m.encode(first) ==> Send(m, at, later).1 == once.1)
      && (m.encode(later).Ok? && m.encode(later) != m.encode(first) ==> Send(m, at, later).1 == Err(TAG_REUSED))
      && (m.encode(later).Err? ==> Send(m, at, later).1 == Err(m.encode(later).error))
  {
    ReceiptStays(m, Send(m, c, first).0, between, first.tag);
  }
}
