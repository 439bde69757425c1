/**
 The write-ahead journal of the local chain (src/sleeves/chain.js:18-42) over the deterministic EVM step
 (src/pilot/chain.js:60-119): an intent is journaled before it runs, and a restart replays the journal.
 */
module Journal {
  import opened Prelude

  /** A journaled call: its first argument is the tag, `body` stands for the method and the other arguments. */
  datatype Call = Call(tag: string, body: string)

  /** What one transaction did to the machine: a hash, or the message it reverted with. */
  datatype Ran<V> = Ran(vm: V, outcome: Result<string, string>)

  /**
   The machine: encoding a call may fail before anything runs; running a transaction changes the machine even
   when it reverts, since nonce and gas are consumed. Both are functions, so the machine is deterministic.
   */
  datatype Machine<!V> = Machine(
    encode: Call -> Result<string, string>,
    run: (V, nat, int, string) -> Ran<V>)

  datatype Receipt = Receipt(tag: string, intent: string, hash: string, block: nat, time: int)

  datatype Chain<V> = Chain(
    vm: V, number: nat, timestamp: int, done: map<string, Receipt>, transactions: seq<Receipt>)

  datatype Status = PREPARED | CONFIRMED | REVERTED

  /** A journal row. A missing hash or error is the empty string. */
  datatype Row = Row(call: Call, time: int, status: Status, hash: string, error: string)

  const TAG_REUSED := "Transaction tag reused with different intent"
  const CLOCK_BACKWARDS := "Clock cannot go backwards"
  const REVERT_CHANGED := "Replay changed a previously reverted transaction"
  const HASH_MISMATCH := "Local EVM replay hash mismatch"
  const INTENT_MISMATCH := "Journal intent mismatch"

  // ---------------------------------------------------------------------------------------------
  // The chain

  /** Sending a tagged transaction: a repeated tag answers from memory, a revert consumes a block. */
  function Send<V>(m: Machine<V>, c: Chain<V>, call: Call): (Chain<V>, Result<Receipt, string>) {
    var encoded := m.encode(call);
    if encoded.Err? then (c, Err(encoded.error))
    else if call.tag in c.done then
      (c, if c.done[call.tag].intent == encoded.value then Ok(c.done[call.tag]) else Err(TAG_REUSED))
    else
      var block := c.number + 1;
      var ran := m.run(c.vm, block, c.timestamp, encoded.value);
      var next := c.(vm := ran.vm, number := block);
      if ran.outcome.Err? then (next, Err(ran.outcome.error))
      else
        var receipt := Receipt(call.tag, encoded.value, ran.outcome.value, block, c.timestamp);
        (next.(done := c.done[call.tag := receipt], transactions := c.transactions + [receipt]), Ok(receipt))
  }

  /** What performing a row leaves: the chain, the row as it is then saved, and the answer. */
  datatype Performed<V> = Performed(chain: Chain<V>, row: Row, answer: Result<Receipt, string>)

  function Perform<V>(m: Machine<V>, c: Chain<V>, row: Row): Performed<V> {
    if row.time < c.timestamp then Performed(c, row, Err(CLOCK_BACKWARDS))
    else
      var (next, sent) := Send(m, c.(timestamp := row.time), row.call);
      match sent {
        case Ok(receipt) =>
          if row.status == REVERTED then Performed(next, row, Err(REVERT_CHANGED))
          else if row.hash != "" && row.hash != receipt.hash then
            // a confirmed row is left alone; a prepared one takes the error for its outcome
            Performed(next, if row.status == CONFIRMED then row else row.(status := REVERTED, error := HASH_MISMATCH),
                      Err(HASH_MISMATCH))
          else Performed(next, row.(status := CONFIRMED, hash := receipt.hash), sent)
        case Err(error) =>
          if row.status == CONFIRMED || (row.status == REVERTED && error != row.error) then Performed(next, row, sent)
          else Performed(next, row.(status := REVERTED, error := error), sent)
      }
  }

  /** Replay tolerates exactly the error a reverted row is known for. */
  predicate Expected(row: Row, answer: Result<Receipt, string>) {
    answer.Ok? || (row.status == REVERTED && row.error != "" && answer.error == row.error)
  }

  datatype Replayed<V> = Replayed(chain: Chain<V>, journal: seq<Row>, failure: Option<string>)

  /** The restart: every row in order, until one answers with an error that was not expected. */
  function Replay<V>(m: Machine<V>, c: Chain<V>, rows: seq<Row>): Replayed<V>
    decreases rows
  {
    if rows == [] then Replayed(c, [], None)
    else
      var p := Perform(m, c, rows[0]);
      if !Expected(rows[0], p.answer) then Replayed(p.chain, [p.row] + rows[1..], Some(p.answer.error))
      else
        var rest := Replay(m, p.chain, rows[1..]);
        Replayed(rest.chain, [p.row] + rest.journal, rest.failure)
  }

  function Find(rows: seq<Row>, tag: string): (i: nat)
    ensures i <= |rows|
    ensures i < |rows| ==> rows[i].call.tag == tag
  {
    if rows == [] || rows[0].call.tag == tag then 0 else 1 + Find(rows[1..], tag)
  }

  datatype Executed<V> = Executed(chain: Chain<V>, journal: seq<Row>, answer: Result<Receipt, string>)

  /** A call on the durable chain: known tags answer from the journal, new ones are journaled first. */
  function Execute<V>(m: Machine<V>, c: Chain<V>, journal: seq<Row>, call: Call): Executed<V> {
    var i := Find(journal, call.tag);
    if i < |journal| then
      if journal[i].call != call then Executed(c, journal, Err(INTENT_MISMATCH))
      else if journal[i].status == REVERTED then Executed(c, journal, Err(journal[i].error))
      else
        var (next, sent) := Send(m, c, call);
        Executed(next, journal, sent)
    else
      var p := Perform(m, c, Row(call, c.timestamp, PREPARED, "", ""));
      Executed(p.chain, journal + [p.row], p.answer)
  }

  /** The journal when the process stops after the intent was saved and before its outcome was. */
  function Prepared<V>(c: Chain<V>, journal: seq<Row>, call: Call): seq<Row> {
    if Find(journal, call.tag) < |journal| then journal
    else journal + [Row(call, c.timestamp, PREPARED, "", "")]
  }

  // ---------------------------------------------------------------------------------------------
  // One ordered run over a journal

  /** The reference: each call once, in order, at its own time, reverts included. */
  function Fold<V>(m: Machine<V>, c: Chain<V>, rows: seq<Row>): Chain<V>
    decreases rows
  {
    if rows == [] then c
    else Fold(m, Send(m, c.(timestamp := rows[0].time), rows[0].call).0, rows[1..])
  }

  /** A row tells what the deterministic machine answers in its place. */
  ghost predicate HonestRow<V>(m: Machine<V>, c: Chain<V>, row: Row) {
    var answer := Send(m, c.(timestamp := row.time), row.call).1;
    && c.timestamp <= row.time
    && row.call.tag !in c.done
    && match row.status
       case CONFIRMED => answer.Ok? && answer.value.hash == row.hash
       case REVERTED => answer.Err? && answer.error == row.error
       case PREPARED => row.hash == "" && row.error == ""
  }

  /** All rows are honest, and only the last one may be without an outcome. */
  ghost predicate Honest<V>(m: Machine<V>, c: Chain<V>, rows: seq<Row>)
    decreases rows
  {
    rows == []
    || (&& HonestRow(m, c, rows[0])
        && (|rows| > 1 ==> rows[0].status != PREPARED)
        && Honest(m, Send(m, c.(timestamp := rows[0].time), rows[0].call).0, rows[1..]))
  }

  ghost predicate TagsDiffer(rows: seq<Row>) {
    forall i, j :: 0 <= i < j < |rows| ==> rows[i].call.tag != rows[j].call.tag
  }

  ghost predicate Finished(rows: seq<Row>) {
    rows == [] || rows[|rows| - 1].status != PREPARED
  }

  /** A machine says something when it fails. */
  ghost predicate Speaks<V(!new)>(m: Machine<V>) {
    && (forall call :: m.encode(call).Err? ==> m.encode(call).error != "")
    && (forall vm, block, time, intent ::
          m.run(vm, block, time, intent).outcome.Err? ==> m.run(vm, block, time, intent).outcome.error != "")
  }

  /** The outcome a prepared row would be given now. */
  function Outcome<V>(m: Machine<V>, c: Chain<V>, row: Row): Row {
    match Send(m, c.(timestamp := row.time), row.call).1
    case Ok(receipt) => row.(status := CONFIRMED, hash := receipt.hash)
    case Err(error) => row.(status := REVERTED, error := error)
  }

  lemma PerformHonest<V(!new)>(m: Machine<V>, c: Chain<V>, row: Row)
    requires HonestRow(m, c, row) && Speaks(m)
    ensures var p := Perform(m, c, row);
            && p.chain == Send(m, c.(timestamp := row.time), row.call).0
            && p.answer == Send(m, c.(timestamp := row.time), row.call).1
            && p.row == (if row.status == PREPARED then Outcome(m, c, row) else row)
            && HonestRow(m, c, p.row) && p.row.status != PREPARED
            && (Expected(row, p.answer) <==> row.status != PREPARED || p.answer.Ok?)
  {
  }

  lemma {:induction false} FoldAppend<V>(m: Machine<V>, c: Chain<V>, rows: seq<Row>, row: Row)
    ensures Fold(m, c, rows + [row]) == Send(m, Fold(m, c, rows).(timestamp := row.time), row.call).0
    decreases rows
  {
    hide Send;
    if rows == [] {
      assert (rows + [row])[1..] == [];
    } else {
      assert (rows + [row])[1..] == rows[1..] + [row];
      FoldAppend(m, Send(m, c.(timestamp := rows[0].time), rows[0].call).0, rows[1..], row);
    }
  }

  lemma {:induction false} HonestAppend<V>(m: Machine<V>, c: Chain<V>, rows: seq<Row>, row: Row)
    requires Honest(m, c, rows) && Finished(rows) && HonestRow(m, Fold(m, c, rows), row)
    ensures Honest(m, c, rows + [row])
    decreases rows
  {
    hide Send, HonestRow;
    if rows == [] {
      assert (rows + [row])[1..] == [];
    } else {
      assert (rows + [row])[1..] == rows[1..] + [row];
      HonestAppend(m, Send(m, c.(timestamp := rows[0].time), rows[0].call).0, rows[1..], row);
    }
  }

  /** Whether the last row is prepared and its transaction will revert. */
  ghost predicate WillRevert<V>(m: Machine<V>, c: Chain<V>, rows: seq<Row>) {
    rows != [] && rows[|rows| - 1].status == PREPARED
    && var before, last := Fold(m, c, rows[..|rows| - 1]), rows[|rows| - 1];
       Send(m, before.(timestamp := last.time), last.call).1.Err?
  }

  /** The error a restart ends with: the text of the machine for the transaction under way, or none. */
  ghost function RevertText<V>(m: Machine<V>, c: Chain<V>, rows: seq<Row>): Option<string> {
    if !WillRevert(m, c, rows) then None
    else
      var before, last := Fold(m, c, rows[..|rows| - 1]), rows[|rows| - 1];
      Some(Send(m, before.(timestamp := last.time), last.call).1.error)
  }

  /** The journal a restart leaves behind. */
  ghost function Resolved<V>(m: Machine<V>, c: Chain<V>, rows: seq<Row>): seq<Row> {
    if Finished(rows) then rows
    else rows[..|rows| - 1] + [Outcome(m, Fold(m, c, rows[..|rows| - 1]), rows[|rows| - 1])]
  }

  /**
   What a restart does with an honest journal: the chain it builds is that of one ordered run over the journal;
   the journal it leaves is honest and has every outcome; and it fails only if the transaction that was under
   way at the stop turns out to revert, with the very text the machine reverts with: the checks on the clock, on
   hashes and on changed reverts never decide.
   */
  lemma {:induction false} ReplayRefinesFold<V(!new)>(m: Machine<V>, c: Chain<V>, rows: seq<Row>)
    requires Honest(m, c, rows) && Speaks(m)
    ensures var r := Replay(m, c, rows);
            && r.chain == Fold(m, c, rows)
            && r.journal == Resolved(m, c, rows)
            && Honest(m, c, r.journal) && Finished(r.journal) && |r.journal| == |rows|
            && r.failure == RevertText(m, c, rows)
    decreases rows
  {
    hide Send, HonestRow, Expected, Outcome;
    if rows != [] {
      PerformHonest(m, c, rows[0]);
      var p := Perform(m, c, rows[0]);
      var tail := rows[1..];
      if |rows| == 1 {
        assert tail == [] && rows[..0] == [];
        assert [p.row][1..] == [];
        LastRow(m, c, rows);
      } else {
        ReplayRefinesFold(m, p.chain, tail);
        assert tail[|tail| - 1] == rows[|rows| - 1];
        assert rows[..|rows| - 1][1..] == tail[..|tail| - 1];
        assert rows[..|rows| - 1] == [rows[0]] + tail[..|tail| - 1];
        assert ([p.row] + Replay(m, p.chain, tail).journal)[1..] == Replay(m, p.chain, tail).journal;
      }
    }
  }

  lemma LastRow<V(!new)>(m: Machine<V>, c: Chain<V>, rows: seq<Row>)
    requires |rows| == 1 && HonestRow(m, c, rows[0]) && Speaks(m)
    ensures var p := Perform(m, c, rows[0]);
            && Replay(m, c, rows).chain == p.chain
            && Replay(m, c, rows).journal == [p.row]
            && Replay(m, c, rows).failure == (if Expected(rows[0], p.answer) then None else Some(p.answer.error))
            && Resolved(m, c, rows) == [p.row]
            && RevertText(m, c, rows)
               == (if rows[0].status == PREPARED && p.answer.Err? then Some(p.answer.error) else None)
            && Fold(m, c, rows) == p.chain
  {
    hide Send, HonestRow, Expected, Outcome;
    PerformHonest(m, c, rows[0]);
    var p := Perform(m, c, rows[0]);
    assert rows[1..] == [] && rows[..0] == [];
    assert Fold(m, c, []) == c;
    assert Replay(m, p.chain, []) == Replayed(p.chain, [], None);
    assert [p.row] + [] == [p.row];
  }

  // ---------------------------------------------------------------------------------------------
  // All histories

  /** The disk, and the chain in memory while the process is up. */
  datatype Process<V> = Process(journal: seq<Row>, live: Option<Chain<V>>)

  datatype Event =
    | Called(call: Call)
    | CalledAndCrashed(call: Call)
    | Crashed
    | Restarted
    | ClockMoved(time: int)

  function Step<V>(m: Machine<V>, genesis: Chain<V>, p: Process<V>, e: Event): Process<V> {
    match e {
      case Called(call) =>
        if p.live.None? then p
        else
          var r := Execute(m, p.live.value, p.journal, call);
          Process(r.journal, Some(r.chain))
      case CalledAndCrashed(call) =>
        if p.live.None? then p else Process(Prepared(p.live.value, p.journal, call), None)
      case Crashed => p.(live := None)
      case Restarted =>
        var r := Replay(m, genesis, p.journal);
        Process(r.journal, if r.failure.None? then Some(r.chain) else None)
      case ClockMoved(time) =>
        if p.live.None? || time < p.live.value.timestamp then p
        else p.(live := Some(p.live.value.(timestamp := time)))
    }
  }

  function RunEvents<V>(m: Machine<V>, genesis: Chain<V>, p: Process<V>, events: seq<Event>): Process<V>
    decreases events
  {
    if events == [] then p else RunEvents(m, genesis, Step(m, genesis, p, events[0]), events[1..])
  }

  /**
   Disk and memory belong together: the journal is honest, and a live chain is the one ordered run over the
   journal, except that its clock may have moved on.
   */
  ghost predicate Inv<V>(m: Machine<V>, genesis: Chain<V>, p: Process<V>) {
    && Honest(m, genesis, p.journal) && TagsDiffer(p.journal)
    && (p.live.Some? ==>
          && Finished(p.journal)
          && p.live.value.timestamp >= Fold(m, genesis, p.journal).timestamp
          && p.live.value == Fold(m, genesis, p.journal).(timestamp := p.live.value.timestamp))
  }

  /** The tags that took effect are tags of the journal. */
  lemma {:induction false} DoneIsJournaled<V>(m: Machine<V>, c: Chain<V>, rows: seq<Row>, tag: string)
    ensures tag in Fold(m, c, rows).done ==> tag in c.done || exists i :: 0 <= i < |rows| && rows[i].call.tag == tag
    decreases rows
  {
    if rows != [] {
      var next := Send(m, c.(timestamp := rows[0].time), rows[0].call).0;
      DoneIsJournaled(m, next, rows[1..], tag);
      if tag in Fold(m, c, rows).done && tag !in next.done {
        var i :| 0 <= i < |rows[1..]| && rows[1..][i].call.tag == tag;
        assert rows[i + 1].call.tag == tag;
      } else if tag in next.done && tag !in c.done {
        assert rows[0].call.tag == tag;
      }
    }
  }

  lemma {:induction false} FindFirst(rows: seq<Row>, tag: string)
    ensures Find(rows, tag) == |rows| ==> forall i :: 0 <= i < |rows| ==> rows[i].call.tag != tag
  {
    if rows != [] {
      FindFirst(rows[1..], tag);
    }
  }

  lemma NewRowIsHonest<V>(m: Machine<V>, genesis: Chain<V>, p: Process<V>, call: Call)
    requires Inv(m, genesis, p) && p.live.Some? && genesis.done == map[]
    requires Find(p.journal, call.tag) == |p.journal|
    ensures var row := Row(call, p.live.value.timestamp, PREPARED, "", "");
            && HonestRow(m, Fold(m, genesis, p.journal), row)
            && Fold(m, genesis, p.journal).(timestamp := row.time) == p.live.value
            && Honest(m, genesis, p.journal + [row]) && TagsDiffer(p.journal + [row])
  {
    hide Send;
    var row := Row(call, p.live.value.timestamp, PREPARED, "", "");
    DoneIsJournaled(m, genesis, p.journal, call.tag);
    FindFirst(p.journal, call.tag);
    HonestAppend(m, genesis, p.journal, row);
  }

  /** A confirmed call is remembered by the chain of the ordered run. */
  lemma {:induction false} ConfirmedIsDone<V>(m: Machine<V>, c: Chain<V>, rows: seq<Row>, i: nat)
    requires Honest(m, c, rows) && i < |rows| && rows[i].status == CONFIRMED
    ensures m.encode(rows[i].call).Ok?
    ensures rows[i].call.tag in Fold(m, c, rows).done
    ensures Fold(m, c, rows).done[rows[i].call.tag].intent == m.encode(rows[i].call).value
    ensures Fold(m, c, rows).done[rows[i].call.tag].hash == rows[i].hash
    decreases rows
  {
    var next := Send(m, c.(timestamp := rows[0].time), rows[0].call).0;
    if i == 0 {
      DoneStays(m, next, rows[1..], rows[0].call.tag);
    } else {
      ConfirmedIsDone(m, next, rows[1..], i - 1);
    }
  }

  lemma {:induction false} DoneStays<V>(m: Machine<V>, c: Chain<V>, rows: seq<Row>, tag: string)
    requires tag in c.done
    ensures tag in Fold(m, c, rows).done && Fold(m, c, rows).done[tag] == c.done[tag]
    decreases rows
  {
    if rows != [] {
      DoneStays(m, Send(m, c.(timestamp := rows[0].time), rows[0].call).0, rows[1..], tag);
    }
  }

  lemma {:induction false} OutcomeOfAll<V>(m: Machine<V>, c: Chain<V>, rows: seq<Row>, i: nat)
    requires Honest(m, c, rows) && Finished(rows) && i < |rows|
    ensures rows[i].status != PREPARED
    decreases rows
  {
    hide Send, HonestRow;
    if i > 0 {
      OutcomeOfAll(m, Send(m, c.(timestamp := rows[0].time), rows[0].call).0, rows[1..], i - 1);
    }
  }

  /** Repeating a known call changes nothing: the answer is the recorded receipt, or the recorded error. */
  lemma RepeatedCallIsAnswered<V>(m: Machine<V>, genesis: Chain<V>, p: Process<V>, i: nat)
    requires Inv(m, genesis, p) && p.live.Some? && i < |p.journal|
    ensures var row := p.journal[i];
            var r := Execute(m, p.live.value, p.journal, row.call);
            && r.chain == p.live.value && r.journal == p.journal
            && (row.status == CONFIRMED ==> r.answer.Ok? && r.answer.value.hash == row.hash)
            && (row.status == REVERTED ==> r.answer == Err(row.error))
            && row.status != PREPARED
  {
    OutcomeOfAll(m, genesis, p.journal, i);
    FindsItself(p.journal, i);
    if p.journal[i].status == CONFIRMED {
      ConfirmedIsDone(m, genesis, p.journal, i);
    }
  }

  lemma {:induction false} FindsItself(rows: seq<Row>, i: nat)
    requires TagsDiffer(rows) && i < |rows|
    ensures Find(rows, rows[i].call.tag) == i
  {
    if i > 0 {
      FindsItself(rows[1..], i - 1);
    }
  }

  lemma NewCallKeeps<V(!new)>(m: Machine<V>, genesis: Chain<V>, p: Process<V>, call: Call)
    requires Inv(m, genesis, p) && p.live.Some? && genesis.done == map[] && Speaks(m)
    requires Find(p.journal, call.tag) == |p.journal|
    ensures Inv(m, genesis, Step(m, genesis, p, Called(call)))
    ensures Inv(m, genesis, Step(m, genesis, p, CalledAndCrashed(call)))
  {
    hide Send, HonestRow, Outcome, Fold, Honest, Expected, Perform;
    NewRowIsHonest(m, genesis, p, call);
    var row := Row(call, p.live.value.timestamp, PREPARED, "", "");
    var before := Fold(m, genesis, p.journal);
    PerformHonest(m, before, row);
    PerformLive(m, before, p.live.value, row);
    var done := Perform(m, before, row).row;
    RowOutcome(m, before, row);
    HonestAppend(m, genesis, p.journal, done);
    FoldAppend(m, genesis, p.journal, done);
    var next := Step(m, genesis, p, Called(call));
    assert next == Process(p.journal + [done], Some(Perform(m, before, row).chain));
    assert next.live.value == Fold(m, genesis, next.journal);
    assert next.live.value == next.live.value.(timestamp := next.live.value.timestamp);
    SameTags(p.journal, row, done);
  }

  /** Performing on a chain whose clock already stands at the row's time. */
  lemma PerformLive<V>(m: Machine<V>, before: Chain<V>, live: Chain<V>, row: Row)
    requires before.timestamp <= row.time && before.(timestamp := row.time) == live
    ensures Perform(m, live, row) == Perform(m, before, row)
  {
    hide Send;
    assert live.(timestamp := row.time) == live;
  }

  lemma RowOutcome<V>(m: Machine<V>, c: Chain<V>, row: Row)
    ensures Outcome(m, c, row).call == row.call && Outcome(m, c, row).time == row.time
  {
    hide Send;
  }

  lemma SameTags(rows: seq<Row>, a: Row, b: Row)
    requires TagsDiffer(rows + [a]) && a.call == b.call
    ensures TagsDiffer(rows + [b])
  {
    assert forall i :: 0 <= i < |rows| ==> (rows + [b])[i] == (rows + [a])[i];
  }

  lemma StepKeeps<V(!new)>(m: Machine<V>, genesis: Chain<V>, p: Process<V>, e: Event)
    requires Inv(m, genesis, p) && genesis.done == map[] && Speaks(m)
    ensures Inv(m, genesis, Step(m, genesis, p, e))
  {
    hide Send, HonestRow, Perform, Outcome, Honest, Fold, Replay, Speaks;
    match e {
      case Called(call) =>
        if p.live.Some? {
          CallKeeps(m, genesis, p, call);
        }
      case CalledAndCrashed(call) =>
        if p.live.Some? && Find(p.journal, call.tag) == |p.journal| {
          NewCallKeeps(m, genesis, p, call);
        }
      case Restarted =>
        ReplayRefinesFold(m, genesis, p.journal);
        ResolvedIsFolded(m, genesis, p.journal);
      case _ =>
    }
  }

  lemma CallKeeps<V(!new)>(m: Machine<V>, genesis: Chain<V>, p: Process<V>, call: Call)
    requires Inv(m, genesis, p) && p.live.Some? && genesis.done == map[] && Speaks(m)
    ensures Inv(m, genesis, Step(m, genesis, p, Called(call)))
  {
    hide Send, HonestRow, Perform, Honest, Fold, Speaks;
    var i := Find(p.journal, call.tag);
    if i == |p.journal| {
      NewCallKeeps(m, genesis, p, call);
    } else if p.journal[i].call == call {
      RepeatedCallIsAnswered(m, genesis, p, i);
    }
  }

  /** Writing down the outcome of the last row does not change the ordered run, nor any tag. */
  lemma ResolvedIsFolded<V>(m: Machine<V>, c: Chain<V>, rows: seq<Row>)
    requires TagsDiffer(rows)
    ensures Fold(m, c, Resolved(m, c, rows)) == Fold(m, c, rows)
    ensures TagsDiffer(Resolved(m, c, rows))
  {
    hide Send, Outcome;
    if !Finished(rows) {
      var front, last := rows[..|rows| - 1], rows[|rows| - 1];
      assert rows == front + [last];
      RowOutcome(m, Fold(m, c, front), last);
      FoldAppend(m, c, front, last);
      FoldAppend(m, c, front, Outcome(m, Fold(m, c, front), last));
    }
  }

  /**
   Journal replay refines live execution: after any mix of calls, reverts, crashes, clock movements and
   restarts, the journal is honest, and whenever the process is up its chain is that of one ordered run over
   the journal, with every nonce and block that reverts have consumed.
   */
  lemma {:induction false} AlwaysOneOrderedRun<V(!new)>(m: Machine<V>, genesis: Chain<V>, p: Process<V>, events: seq<Event>)
    requires Inv(m, genesis, p) && genesis.done == map[] && Speaks(m)
    ensures Inv(m, genesis, RunEvents(m, genesis, p, events))
    decreases events
  {
    hide Inv, Step, Speaks;
    if events != [] {
      StepKeeps(m, genesis, p, events[0]);
      AlwaysOneOrderedRun(m, genesis, Step(m, genesis, p, events[0]), events[1..]);
    }
  }

  /**
   Exactly when a restart completes, and that it is only ever one restart that fails: the stopped transaction
   is then on record as reverted, and the next restart passes.
   */
  lemma RestartIff<V(!new)>(m: Machine<V>, genesis: Chain<V>, p: Process<V>)
    requires Inv(m, genesis, p) && genesis.done == map[] && Speaks(m)
    ensures var once := Step(m, genesis, p, Restarted);
            && (once.live.Some? <==> !WillRevert(m, genesis, p.journal))
            && (once.live.Some? ==> once.live.value == Fold(m, genesis, p.journal))
            && Step(m, genesis, once, Restarted).live.Some?
            && Step(m, genesis, once, Restarted).journal == once.journal
  {
    hide Send, HonestRow, Fold, Honest, Replay, Speaks, Outcome;
    ReplayRefinesFold(m, genesis, p.journal);
    StepKeeps(m, genesis, p, Restarted);
    var once := Step(m, genesis, p, Restarted);
    ReplayRefinesFold(m, genesis, once.journal);
  }

  // ---------------------------------------------------------------------------------------------
  // No tag takes effect twice

  function EffectsOf(receipts: seq<Receipt>, tag: string): nat {
    if receipts == [] then 0
    else (if receipts[0].tag == tag then 1 else 0) + EffectsOf(receipts[1..], tag)
  }

  lemma {:induction false} EffectsAppend(receipts: seq<Receipt>, r: Receipt, tag: string)
    ensures EffectsOf(receipts + [r], tag) == EffectsOf(receipts, tag) + if r.tag == tag then 1 else 0
  {
    if receipts == [] {
      assert (receipts + [r])[1..] == [];
    } else {
      assert (receipts + [r])[1..] == receipts[1..] + [r];
      EffectsAppend(receipts[1..], r, tag);
    }
  }

  /** A chain on which each tag has as many transactions as it is remembered. */
  ghost predicate OncePerTag<V>(c: Chain<V>) {
    forall tag :: EffectsOf(c.transactions, tag) == if tag in c.done then 1 else 0
  }

  lemma SendOncePerTag<V>(m: Machine<V>, c: Chain<V>, call: Call)
    requires OncePerTag(c)
    ensures OncePerTag(Send(m, c, call).0)
  {
    var (next, sent) := Send(m, c, call);
    if next.transactions != c.transactions {
      forall tag
        ensures EffectsOf(next.transactions, tag) == if tag in next.done then 1 else 0
      {
        EffectsAppend(c.transactions, sent.value, tag);
      }
    }
  }

  lemma {:induction false} FoldOncePerTag<V>(m: Machine<V>, c: Chain<V>, rows: seq<Row>)
    requires OncePerTag(c)
    ensures OncePerTag(Fold(m, c, rows))
    decreases rows
  {
    hide Send;
    if rows != [] {
      var at := c.(timestamp := rows[0].time);
      SendOncePerTag(m, at, rows[0].call);
      FoldOncePerTag(m, Send(m, at, rows[0].call).0, rows[1..]);
    }
  }

  /** In every state of every history each tag has taken effect at most once on the live chain. */
  lemma NoTagTwice<V(!new)>(m: Machine<V>, genesis: Chain<V>, events: seq<Event>, tag: string)
    requires genesis.done == map[] && genesis.transactions == [] && Speaks(m)
    ensures var p := RunEvents(m, genesis, Process([], Some(genesis)), events);
            p.live.Some? ==> EffectsOf(p.live.value.transactions, tag) <= 1
  {
    hide Send, Speaks, HonestRow;
    var start := Process([], Some(genesis));
    assert genesis.(timestamp := genesis.timestamp) == genesis;
    AlwaysOneOrderedRun(m, genesis, start, events);
    var p := RunEvents(m, genesis, start, events);
    FoldOncePerTag(m, genesis, p.journal);
  }
}
