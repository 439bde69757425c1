/** The durable chain as an object: the journal and its rows are updated in place (src/sleeves/chain.js:18-42). */
module DurableChains {
  import opened Prelude
  import opened Journal

  class DurableChain<V(!new)> {
    const machine: Machine<V>
    var vm: V
    var number: nat
    var timestamp: int
    var done: map<string, Receipt>
    var transactions: seq<Receipt>
    var journal: seq<Row>

    function View(): Chain<V>
      reads this
    {
      Chain(vm, number, timestamp, done, transactions)
    }

    /** A process that comes up: the chain starts from its genesis, the journal is what the disk holds. */
    constructor (m: Machine<V>, genesis: Chain<V>, rows: seq<Row>)
      ensures machine == m && View() == genesis && journal == rows
    {
      machine, journal := m, rows;
      vm, number, timestamp := genesis.vm, genesis.number, genesis.timestamp;
      done, transactions := genesis.done, genesis.transactions;
    }

    method SendTx(call: Call) returns (r: Result<Receipt, string>)
      modifies this`vm, this`number, this`done, this`transactions
      ensures (View(), r) == Send(machine, old(View()), call)
    {
      var intent :- (machine.encode)(call);
      if call.tag in done {
        var previous := done[call.tag];
        return if previous.intent == intent then Ok(previous) else Err(TAG_REUSED);
      }
      number := number + 1;
      var ran := (machine.run)(vm, number, timestamp, intent);
      vm := ran.vm;
      if ran.outcome.Err? {
        return Err(ran.outcome.error);
      }
      var receipt := Receipt(call.tag, intent, ran.outcome.value, number, timestamp);
      done := done[call.tag := receipt];
      transactions := transactions + [receipt];
      r := Ok(receipt);
    }

    /** Performing one row: the clock moves to its time, the call runs, and the row is marked in place. */
    method PerformRow(i: nat) returns (r: Result<Receipt, string>)
      requires i < |journal|
      modifies this
      ensures var p := Perform(machine, old(View()), old(journal[i]));
              View() == p.chain && journal == old(journal)[i := p.row] && r == p.answer
    {
      hide Send;
      var row := journal[i];
      if row.time < timestamp {
        return Err(CLOCK_BACKWARDS);
      }
      timestamp := row.time;
      var sent := SendTx(row.call);
      match sent {
        case Ok(receipt) =>
          if row.status == REVERTED {
            return Err(REVERT_CHANGED);
          }
          if row.hash != "" && row.hash != receipt.hash {
            if row.status != CONFIRMED {
              journal := journal[i := row.(status := REVERTED, error := HASH_MISMATCH)];
            }
            return Err(HASH_MISMATCH);
          }
          journal := journal[i := row.(status := CONFIRMED, hash := receipt.hash)];
        case Err(error) =>
          if row.status == CONFIRMED || (row.status == REVERTED && error != row.error) {
            return sent;
          }
          journal := journal[i := row.(status := REVERTED, error := error)];
      }
      r := sent;
    }

    /** The restart loop; `failure` is the error it aborts with. */
    method ReplayJournal() returns (failure: Option<string>)
      modifies this
      ensures var replayed := Replay(machine, old(View()), old(journal));
              View() == replayed.chain && journal == replayed.journal && failure == replayed.failure
    {
      hide Perform;
      ghost var rows := journal;
      var k := 0;
      Joined(rows, 0, Replay(machine, View(), rows));
      while k < |journal|
        invariant 0 <= k <= |journal| == |rows|
        invariant journal[k..] == rows[k..]
        invariant Replay(machine, old(View()), rows) == Join(journal[..k], Replay(machine, View(), rows[k..]))
      {
        ghost var before := View();
        ghost var front := journal[..k];
        var expected := journal[k];
        assert rows[k..][0] == expected && rows[k..][1..] == rows[k + 1..];
        var r := PerformRow(k);
        assert journal[..k] == front && journal[..k + 1] == front + [journal[k]] && journal[k + 1..] == rows[k + 1..];
        if !Expected(expected, r) {
          assert journal == front + ([journal[k]] + rows[k + 1..]);
          return Some(r.error);
        }
        JoinOne(front, journal[k], Replay(machine, View(), rows[k + 1..]));
        k := k + 1;
      }
      assert journal[..k] == journal && rows[k..] == [] && journal + [] == journal;
      failure := None;
    }

    /** A call: answered from the journal when its tag is known, otherwise journaled and then performed. */
    method ExecuteCall(call: Call) returns (r: Result<Receipt, string>)
      modifies this
      ensures var e := Execute(machine, old(View()), old(journal), call);
              View() == e.chain && journal == e.journal && r == e.answer
    {
      hide Send, Perform, Find;
      var i := Find(journal, call.tag);
      if i < |journal| {
        var existing := journal[i];
        if existing.call != call {
          return Err(INTENT_MISMATCH);
        }
        if existing.status == REVERTED {
          return Err(existing.error);
        }
        r := SendTx(call);
        return;
      }
      journal := journal + [Row(call, timestamp, PREPARED, "", "")];
      r := PerformRow(|journal| - 1);
      assert journal == old(journal) + [journal[|journal| - 1]];
    }
  }

  ghost function Join<V>(front: seq<Row>, rest: Replayed<V>): Replayed<V> {
    rest.(journal := front + rest.journal)
  }

  lemma Joined<V>(rows: seq<Row>, k: nat, rest: Replayed<V>)
    requires k == 0
    ensures Join(rows[..k], rest) == rest
  {
    assert rows[..0] + rest.journal == rest.journal;
  }

  lemma JoinOne<V>(front: seq<Row>, row: Row, rest: Replayed<V>)
    ensures Join(front, rest.(journal := [row] + rest.journal)) == Join(front + [row], rest)
  {
    assert front + ([row] + rest.journal) == front + [row] + rest.journal;
  }
}
