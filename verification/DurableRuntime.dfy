/**
 The runtime over the journaled local chain (src/sleeves/runtime.js over src/sleeves/chain.js): every transaction of a
 plan goes through the journal under the tag of its command, the process may stop anywhere, and what it finds after a
 restart is what the replayed chain holds. Each happening is one step of the abstract runtime, so that everything
 proved about all runs of the one holds for all histories of the other.
 */
module DurableRuntime {
  import opened Prelude
  import opened Reconciliation
  import opened Ledger
  import opened Runtime
  import opened RuntimeLaws
  import Journal
  import RuntimeProgress
  import Review

  /** How the machine's state and receipts are read: the vault's holdings and commitments, and the reported amounts. */
  datatype View<!V> = View(
    custody: V -> Custody, anchors: V -> set<string>, report: Journal.Receipt -> Execution, body: Plan -> string)

  datatype Durable<V> = Durable(disk: Disk, process: Journal.Process<V>)

  // ---------------------------------------------------------------------------------------------
  // Tags

  const COMMIT_SUFFIX := "-commit"

  function AnchorTag(id: string): string {
    id + COMMIT_SUFFIX
  }

  predicate IsAnchorTag(tag: string) {
    |tag| >= |COMMIT_SUFFIX| && tag[|tag| - |COMMIT_SUFFIX|..] == COMMIT_SUFFIX
  }

  /** The command a tag belongs to. */
  function IdOf(tag: string): string {
    if IsAnchorTag(tag) then tag[..|tag| - |COMMIT_SUFFIX|] else tag
  }

  lemma AnchorTagIs(id: string)
    ensures IsAnchorTag(AnchorTag(id)) && IdOf(AnchorTag(id)) == id
  {
  }

  lemma TagOf(tag: string)
    ensures IsAnchorTag(tag) ==> tag == AnchorTag(IdOf(tag))
  {
  }

  function CallOf<V>(view: View<V>, plan: Plan): Journal.Call {
    Journal.Call(plan.command.id, view.body(plan))
  }

  function AnchorOf(plan: Plan): Journal.Call {
    Journal.Call(AnchorTag(plan.command.id), plan.command.id)
  }

  // ---------------------------------------------------------------------------------------------
  // What the process reads from a chain

  function Effects<V>(view: View<V>, done: map<string, Journal.Receipt>): map<string, Execution> {
    map tag | tag in done && !IsAnchorTag(tag) :: view.report(done[tag])
  }

  predicate Took(done: map<string, Journal.Receipt>, id: string) {
    id in done && !IsAnchorTag(id)
  }

  /** The commands without an effect that had a transaction revert, be it the anchoring one. */
  function Failed(rows: seq<Journal.Row>, done: map<string, Journal.Receipt>): set<string> {
    set i | 0 <= i < |rows| && rows[i].call.tag !in done && !Took(done, IdOf(rows[i].call.tag)) :: IdOf(rows[i].call.tag)
  }

  function Seen<V>(view: View<V>, disk: Disk, c: Journal.Chain<V>, rows: seq<Journal.Row>): World {
    World(disk, Chain(view.custody(c.vm), Effects(view, c.done), view.anchors(c.vm), Failed(rows, c.done)))
  }

  /** The world the disks determine: whether the process is up or not, the chain is the one a replay builds. */
  function Held<V>(m: Journal.Machine<V>, view: View<V>, genesis: Journal.Chain<V>, d: Durable<V>): World {
    Seen(view, d.disk, Journal.Fold(m, genesis, d.process.journal), d.process.journal)
  }

  // ---------------------------------------------------------------------------------------------
  // What is asked of the contracts

  /** A transaction of a plan moves what the vault permits, or reverts and moves nothing. */
  ghost predicate MovesFor<V>(m: Journal.Machine<V>, view: View<V>, vm: V, block: nat, time: int, plan: Plan) {
    m.encode(CallOf(view, plan)).Ok? ==>
      var intent := m.encode(CallOf(view, plan)).value;
      var ran := m.run(vm, block, time, intent);
      && view.anchors(ran.vm) == view.anchors(vm)
      && match ran.outcome
         case Err(_) => view.custody(ran.vm) == view.custody(vm)
         case Ok(hash) =>
           var e := view.report(Journal.Receipt(plan.command.id, intent, hash, block, time));
           Permitted(plan, e, view.custody(vm)) && view.custody(ran.vm) == EffectOn(view.custody(vm), plan, e)
  }

  ghost predicate AnchorsFor<V>(m: Journal.Machine<V>, view: View<V>, vm: V, block: nat, time: int, plan: Plan) {
    m.encode(AnchorOf(plan)).Ok? ==>
      var ran := m.run(vm, block, time, m.encode(AnchorOf(plan)).value);
      && view.custody(ran.vm) == view.custody(vm)
      && view.anchors(ran.vm) == view.anchors(vm) + if ran.outcome.Ok? then {plan.command.id} else {}
  }

  ghost predicate Faithful<V(!new)>(m: Journal.Machine<V>, view: View<V>) {
    && Journal.Speaks(m)
    && (forall vm, block, time, plan :: MovesFor(m, view, vm, block, time, plan))
    && (forall vm, block, time, plan :: AnchorsFor(m, view, vm, block, time, plan))
  }

  // ---------------------------------------------------------------------------------------------
  // Histories

  datatype Happening =
    | Asked(c: Command, marks: Marks, quoted: int)
    | Anchored(crash: bool)
    | Transacted(crash: bool)
    | Finished(now: Marks)
    | Stopped
    | Started
    | Ticked(time: int)

  /** Whether the process is up and gets as far as the transaction that anchors its order. */
  predicate Anchors<V>(d: Durable<V>) {
    d.process.live.Some? && d.disk.pending.Some? && d.disk.pending.value.command.kind == ORDER
  }

  /** Whether the process is up and gets as far as the transaction of its plan. */
  predicate Transacts<V>(view: View<V>, d: Durable<V>) {
    && d.process.live.Some? && d.disk.pending.Some?
    && BeforeSending(d.disk.ledger, d.disk.pending.value).Ok?
    && (d.disk.pending.value.command.kind == ORDER ==>
          d.disk.pending.value.command.id in view.anchors(d.process.live.value.vm))
  }

  function Tried<V>(
      m: Journal.Machine<V>, genesis: Journal.Chain<V>, p: Journal.Process<V>, call: Journal.Call, crash: bool)
    : Journal.Process<V>
  {
    Journal.Step(m, genesis, p, if crash then Journal.CalledAndCrashed(call) else Journal.Called(call))
  }

  function Do<V>(
      m: Journal.Machine<V>, view: View<V>, genesis: Journal.Chain<V>, d: Durable<V>, h: Happening): Durable<V>
  {
    var p := d.process;
    match h {
      case Asked(c, marks, quoted) =>
        if p.live.None? then d
        else
          var r := Submit(Seen(view, d.disk, p.live.value, p.journal), c, marks, quoted);
          if r.Ok? then d.(disk := r.value.disk) else d
      case Anchored(crash) =>
        if !Anchors(d) then d else d.(process := Tried(m, genesis, p, AnchorOf(d.disk.pending.value), crash))
      case Transacted(crash) =>
        if !Transacts(view, d) then d else d.(process := Tried(m, genesis, p, CallOf(view, d.disk.pending.value), crash))
      case Finished(now) =>
        if p.live.None? then d
        else
          var r := Commit(Seen(view, d.disk, p.live.value, p.journal), now);
          if r.Ok? then d.(disk := r.value.disk) else d
      case Stopped => d.(process := Journal.Step(m, genesis, p, Journal.Crashed))
      case Started => d.(process := Journal.Step(m, genesis, p, Journal.Restarted))
      case Ticked(time) => d.(process := Journal.Step(m, genesis, p, Journal.ClockMoved(time)))
    }
  }

  /** Commands are named by digests, never by the tag of an anchor. */
  predicate Named(h: Happening) {
    h.Asked? ==> h.c.id != "" && !IsAnchorTag(h.c.id)
  }

  ghost predicate Good<V>(m: Journal.Machine<V>, view: View<V>, genesis: Journal.Chain<V>, d: Durable<V>) {
    && Journal.Inv(m, genesis, d.process)
    && Inv(Held(m, view, genesis, d))
    && (d.disk.pending.Some? ==> !IsAnchorTag(d.disk.pending.value.command.id))
    && AnchorsAreDone(view, Journal.Fold(m, genesis, d.process.journal))
    && AnchorsAreOrders(d.process.journal, d.disk)
  }

  ghost predicate AnchorsAreDone<V>(view: View<V>, c: Journal.Chain<V>) {
    forall id :: id in view.anchors(c.vm) ==> AnchorTag(id) in c.done
  }

  /** Only orders were ever anchored. */
  ghost predicate AnchorsAreOrders(rows: seq<Journal.Row>, disk: Disk) {
    forall i :: 0 <= i < |rows| && IsAnchorTag(rows[i].call.tag) ==>
      IdOf(rows[i].call.tag) in disk.used
      || (disk.pending.Some? && disk.pending.value.command.kind == ORDER
          && disk.pending.value.command.id == IdOf(rows[i].call.tag))
  }

  // ---------------------------------------------------------------------------------------------
  // Each happening is a step of the abstract runtime

  /** The step of the abstract runtime a call amounts to. */
  function ActionOf<V>(m: Journal.Machine<V>, view: View<V>, d: Durable<V>, h: Happening): Action {
    match h {
      case Asked(c, marks, quoted) => if d.process.live.Some? then DoSubmit(c, marks, quoted) else CrashAndRestart
      case Anchored(_) =>
        if Anchors(d) && New(d.process.journal, AnchorOf(d.disk.pending.value)) then
          if Journal.Send(m, d.process.live.value, AnchorOf(d.disk.pending.value)).1.Ok? then DoAnchor else DoRevert
        else CrashAndRestart
      case Transacted(_) =>
        if Transacts(view, d) && New(d.process.journal, CallOf(view, d.disk.pending.value)) then
          match Journal.Send(m, d.process.live.value, CallOf(view, d.disk.pending.value)).1
          case Ok(receipt) => DoSend(view.report(receipt))
          case Err(_) => DoRevert
        else CrashAndRestart
      case Finished(now) => if d.process.live.Some? then DoCommit(now) else CrashAndRestart
      case _ => CrashAndRestart
    }
  }

  predicate New(rows: seq<Journal.Row>, call: Journal.Call) {
    Journal.Find(rows, call.tag) == |rows|
  }

  lemma LiveIsHeld<V>(m: Journal.Machine<V>, view: View<V>, genesis: Journal.Chain<V>, d: Durable<V>)
    requires Journal.Inv(m, genesis, d.process) && d.process.live.Some?
    ensures Seen(view, d.disk, d.process.live.value, d.process.journal) == Held(m, view, genesis, d)
    ensures var c := Journal.Fold(m, genesis, d.process.journal);
      d.process.live.value.vm == c.vm && d.process.live.value.done == c.done
  {
  }

  lemma TookIsEffect<V>(view: View<V>, done: map<string, Journal.Receipt>, id: string)
    ensures Took(done, id) <==> id in Effects(view, done)
  {
  }

  /** A known call leaves journal and chain as they are. */
  lemma KnownCall<V>(
      m: Journal.Machine<V>, genesis: Journal.Chain<V>, p: Journal.Process<V>, call: Journal.Call, crash: bool)
    requires Journal.Inv(m, genesis, p) && p.live.Some? && !New(p.journal, call)
    ensures Tried(m, genesis, p, call, crash).journal == p.journal
  {
    hide Journal.Inv, Journal.Send;
    var i := Journal.Find(p.journal, call.tag);
    if p.journal[i].call == call {
      Journal.RepeatedCallIsAnswered(m, genesis, p, i);
    }
  }

  /** A new call is one more row, and the ordered run over the rows has sent it, even if the process stopped first. */
  lemma NewCall<V(!new)>(
      m: Journal.Machine<V>, genesis: Journal.Chain<V>, p: Journal.Process<V>, call: Journal.Call, crash: bool)
    requires Journal.Inv(m, genesis, p) && p.live.Some? && New(p.journal, call)
    requires genesis.done == map[] && Journal.Speaks(m)
    ensures var rows := Tried(m, genesis, p, call, crash).journal;
      && |rows| == |p.journal| + 1 && rows[..|p.journal|] == p.journal && rows[|p.journal|].call == call
      && Journal.Fold(m, genesis, rows) == Journal.Send(m, p.live.value, call).0
      && call.tag !in p.live.value.done
  {
    hide Journal.Send, Journal.HonestRow, Journal.Outcome, Journal.Fold, Journal.Honest, Journal.Expected,
      Journal.Perform, Journal.Speaks;
    Journal.NewRowIsHonest(m, genesis, p, call);
    var row := Journal.Row(call, p.live.value.timestamp, Journal.PREPARED, "", "");
    var before := Journal.Fold(m, genesis, p.journal);
    Journal.PerformHonest(m, before, row);
    Journal.PerformLive(m, before, p.live.value, row);
    Journal.RowOutcome(m, before, row);
    Journal.FoldAppend(m, genesis, p.journal, row);
    Journal.FoldAppend(m, genesis, p.journal, Journal.Outcome(m, before, row));
    NotDone(m, before, row);
  }

  lemma NotDone<V>(m: Journal.Machine<V>, c: Journal.Chain<V>, row: Journal.Row)
    requires Journal.HonestRow(m, c, row)
    ensures row.call.tag !in c.done
  {
  }

  lemma EffectsPut<V>(view: View<V>, done: map<string, Journal.Receipt>, tag: string, receipt: Journal.Receipt)
    requires tag !in done
    ensures Effects(view, done[tag := receipt])
      == if IsAnchorTag(tag) then Effects(view, done) else Effects(view, done)[tag := view.report(receipt)]
  {
  }

  lemma FailedAppend(rows: seq<Journal.Row>, row: Journal.Row, done: map<string, Journal.Receipt>)
    ensures var id := IdOf(row.call.tag);
      Failed(rows + [row], done)
        == Failed(rows, done) + if row.call.tag in done || Took(done, id) then {} else {id}
  {
    hide IsAnchorTag, IdOf;
    var more := rows + [row];
    assert more[|rows|] == row;
    assert forall i :: 0 <= i < |rows| ==> more[i] == rows[i];
  }

  /** A command that takes effect has not failed any more; an anchor changes nothing. */
  lemma FailedDone(rows: seq<Journal.Row>, done: map<string, Journal.Receipt>, tag: string, receipt: Journal.Receipt)
    requires Journal.Find(rows, tag) == |rows|
    ensures Failed(rows, done[tag := receipt]) == Failed(rows, done) - if IsAnchorTag(tag) then {} else {tag}
  {
    hide IsAnchorTag, IdOf;
    Journal.FindFirst(rows, tag);
    var more := done[tag := receipt];
    assert forall i :: 0 <= i < |rows| ==> (rows[i].call.tag in more <==> rows[i].call.tag in done);
    assert forall id :: Took(more, id) <==> Took(done, id) || (id == tag && !IsAnchorTag(tag));
  }

  lemma FailedPut(rows: seq<Journal.Row>, more: seq<Journal.Row>, done: map<string, Journal.Receipt>, receipt: Journal.Receipt)
    requires |more| == |rows| + 1 && more[..|rows|] == rows
    requires Journal.Find(rows, more[|rows|].call.tag) == |rows| && more[|rows|].call.tag !in done
    ensures var tag := more[|rows|].call.tag;
      && Failed(more, done[tag := receipt]) == Failed(rows, done) - (if IsAnchorTag(tag) then {} else {tag})
      && Failed(more, done) == Failed(rows, done) + if Took(done, IdOf(tag)) then {} else {IdOf(tag)}
  {
    hide Failed, IsAnchorTag, IdOf, Took;
    var tag := more[|rows|].call.tag;
    assert more == rows + [more[|rows|]];
    FailedAppend(rows, more[|rows|], done);
    FailedAppend(rows, more[|rows|], done[tag := receipt]);
    FailedDone(rows, done, tag, receipt);
  }

  /** Sending, without the known tags. */
  lemma SendNew<V>(m: Journal.Machine<V>, c: Journal.Chain<V>, call: Journal.Call)
    requires call.tag !in c.done
    ensures var (next, sent) := Journal.Send(m, c, call);
      && next.done == (if sent.Ok? then c.done[call.tag := sent.value] else c.done)
      && (m.encode(call).Err? ==> sent.Err? && next == c)
      && (m.encode(call).Ok? ==>
            var ran := m.run(c.vm, c.number + 1, c.timestamp, m.encode(call).value);
            && next.vm == ran.vm && (sent.Ok? <==> ran.outcome.Ok?)
            && (sent.Ok? ==>
                  sent.value == Journal.Receipt(call.tag, m.encode(call).value, ran.outcome.value, c.number + 1, c.timestamp)))
  {
  }

  /** What the transaction of a plan does to the held world. */
  lemma PlanSent<V(!new)>(m: Journal.Machine<V>, view: View<V>, c: Journal.Chain<V>, plan: Plan)
    requires Faithful(m, view) && plan.command.id !in c.done && !IsAnchorTag(plan.command.id)
    ensures var (next, sent) := Journal.Send(m, c, CallOf(view, plan));
      && view.anchors(next.vm) == view.anchors(c.vm)
      && match sent
         case Ok(receipt) =>
           && Permitted(plan, view.report(receipt), view.custody(c.vm))
           && view.custody(next.vm) == EffectOn(view.custody(c.vm), plan, view.report(receipt))
           && next.done == c.done[plan.command.id := receipt]
           && Effects(view, next.done) == Effects(view, c.done)[plan.command.id := view.report(receipt)]
         case Err(_) =>
           view.custody(next.vm) == view.custody(c.vm) && next.done == c.done
  {
    hide Permitted, EffectOn, Journal.Send, Journal.Speaks, Effects, IsAnchorTag;
    SendNew(m, c, CallOf(view, plan));
    assert MovesFor(m, view, c.vm, c.number + 1, c.timestamp, plan);
    var (next, sent) := Journal.Send(m, c, CallOf(view, plan));
    if sent.Ok? {
      EffectsPut(view, c.done, plan.command.id, sent.value);
    }
  }

  lemma AnchorSent<V(!new)>(m: Journal.Machine<V>, view: View<V>, c: Journal.Chain<V>, plan: Plan)
    requires Faithful(m, view) && AnchorTag(plan.command.id) !in c.done
    ensures var (next, sent) := Journal.Send(m, c, AnchorOf(plan));
      && view.custody(next.vm) == view.custody(c.vm)
      && view.anchors(next.vm) == view.anchors(c.vm) + (if sent.Ok? then {plan.command.id} else {})
      && next.done == (if sent.Ok? then c.done[AnchorTag(plan.command.id) := sent.value] else c.done)
      && Effects(view, next.done) == Effects(view, c.done)
  {
    hide Journal.Send, Journal.Speaks, Effects, IsAnchorTag;
    SendNew(m, c, AnchorOf(plan));
    AnchorTagIs(plan.command.id);
    assert AnchorsFor(m, view, c.vm, c.number + 1, c.timestamp, plan);
    var (next, sent) := Journal.Send(m, c, AnchorOf(plan));
    if sent.Ok? {
      EffectsPut(view, c.done, AnchorTag(plan.command.id), sent.value);
    }
  }

  lemma TransactIsAction<V(!new)>(
      m: Journal.Machine<V>, view: View<V>, genesis: Journal.Chain<V>, d: Durable<V>, crash: bool)
    requires Faithful(m, view) && genesis.done == map[] && Good(m, view, genesis, d)
    ensures var a := ActionOf(m, view, d, Transacted(crash));
      && Possible(Held(m, view, genesis, d), a)
      && Held(m, view, genesis, Do(m, view, genesis, d, Transacted(crash))) == Next(Held(m, view, genesis, d), a)
  {
    hide Journal.Inv, Journal.Send, Journal.Fold, Journal.Step, Journal.Speaks, Journal.Honest, Inv, Permitted,
      EffectOn, BeforeSending, IsAnchorTag, Effects, Failed, MovesFor, AnchorsFor;
    if Transacts(view, d) {
      var plan := d.disk.pending.value;
      var call := CallOf(view, plan);
      LiveIsHeld(m, view, genesis, d);
      if New(d.process.journal, call) {
        NewCall(m, genesis, d.process, call, crash);
        PlanSent(m, view, d.process.live.value, plan);
        var (next, sent) := Journal.Send(m, d.process.live.value, call);
        var rows := Tried(m, genesis, d.process, call, crash).journal;
        FailedPut(d.process.journal, rows, d.process.live.value.done, if sent.Ok? then sent.value else NO_RECEIPT);
        RuntimeProgress.InvPlanned(Held(m, view, genesis, d));
        NewIsUntried(view, d.disk, d.process.journal, d.process.live.value);
      } else {
        KnownCall(m, genesis, d.process, call, crash);
      }
    }
  }

  const NO_RECEIPT := Journal.Receipt("", "", "", 0, 0)

  /** A plan without a row that gets as far as its transaction has neither taken effect nor failed. */
  lemma NewIsUntried<V>(view: View<V>, disk: Disk, rows: seq<Journal.Row>, c: Journal.Chain<V>)
    requires disk.pending.Some? && !IsAnchorTag(disk.pending.value.command.id)
    requires disk.pending.value.command.id !in disk.used
    requires Journal.Find(rows, disk.pending.value.command.id) == |rows| && disk.pending.value.command.id !in c.done
    requires AnchorsAreDone(view, c) && AnchorsAreOrders(rows, disk)
    requires disk.pending.value.command.kind == ORDER ==> disk.pending.value.command.id in view.anchors(c.vm)
    ensures disk.pending.value.command.id !in Effects(view, c.done)
    ensures disk.pending.value.command.id !in Failed(rows, c.done)
  {
    hide IsAnchorTag, IdOf;
    var id := disk.pending.value.command.id;
    Journal.FindFirst(rows, id);
    forall i | 0 <= i < |rows| && rows[i].call.tag !in c.done ensures IdOf(rows[i].call.tag) != id {
      TagOf(rows[i].call.tag);
      PlainTag(rows[i].call.tag);
    }
  }

  lemma PlainTag(tag: string)
    ensures !IsAnchorTag(tag) ==> IdOf(tag) == tag
  {
  }

  lemma AnchorIsAction<V(!new)>(
      m: Journal.Machine<V>, view: View<V>, genesis: Journal.Chain<V>, d: Durable<V>, crash: bool)
    requires Faithful(m, view) && genesis.done == map[] && Good(m, view, genesis, d)
    ensures var a := ActionOf(m, view, d, Anchored(crash));
      && Possible(Held(m, view, genesis, d), a)
      && Held(m, view, genesis, Do(m, view, genesis, d, Anchored(crash))) == Next(Held(m, view, genesis, d), a)
  {
    hide Journal.Inv, Journal.Send, Journal.Fold, Journal.Step, Journal.Speaks, Journal.Honest, Inv, IsAnchorTag,
      Effects, Failed, MovesFor, AnchorsFor;
    if Anchors(d) {
      var plan := d.disk.pending.value;
      var call := AnchorOf(plan);
      LiveIsHeld(m, view, genesis, d);
      if New(d.process.journal, call) {
        NewCall(m, genesis, d.process, call, crash);
        AnchorSent(m, view, d.process.live.value, plan);
        AnchorTagIs(plan.command.id);
        TookIsEffect(view, d.process.live.value.done, plan.command.id);
        var (next, sent) := Journal.Send(m, d.process.live.value, call);
        var rows := Tried(m, genesis, d.process, call, crash).journal;
        FailedPut(d.process.journal, rows, d.process.live.value.done, if sent.Ok? then sent.value else NO_RECEIPT);
      } else {
        KnownCall(m, genesis, d.process, call, crash);
      }
    }
  }

  lemma OtherIsAction<V(!new)>(
      m: Journal.Machine<V>, view: View<V>, genesis: Journal.Chain<V>, d: Durable<V>, h: Happening)
    requires Faithful(m, view) && genesis.done == map[] && Good(m, view, genesis, d) && Named(h)
    requires !h.Anchored? && !h.Transacted?
    ensures var a := ActionOf(m, view, d, h);
      && Possible(Held(m, view, genesis, d), a)
      && Held(m, view, genesis, Do(m, view, genesis, d, h)) == Next(Held(m, view, genesis, d), a)
  {
    hide Journal.Inv, Journal.Replay, Journal.Fold, Journal.Speaks, Journal.Honest, Inv, IsAnchorTag, Effects,
      Failed, MovesFor, AnchorsFor, Submit, Commit;
    if d.process.live.Some? {
      LiveIsHeld(m, view, genesis, d);
    }
    if h.Started? {
      RestartHolds(m, genesis, d.process);
    }
    if d.process.live.Some? && h.Asked? {
      SubmitLeavesChain(Held(m, view, genesis, d), h.c, h.marks, h.quoted);
    }
    if d.process.live.Some? && h.Finished? {
      CommitLeavesChain(Held(m, view, genesis, d), h.now);
    }
  }

  lemma SubmitLeavesChain(w: World, c: Command, marks: Marks, quoted: int)
    ensures Submit(w, c, marks, quoted).Ok? ==>
      var next := Submit(w, c, marks, quoted).value;
      && next.chain == w.chain
      && w.disk.pending.None? && w.disk.used <= next.disk.used
      && (next.disk.pending.Some? ==> next.disk.pending.value.command.id == c.id)
  {
    hide MakePlan, Reconcile, Create, ValidRegistration, Observe;
    if MakePlan(w.disk.ledger, c, marks, quoted).Ok? {
      PlanIsOf(w.disk.ledger, c, marks, quoted);
    }
  }

  lemma CommitLeavesChain(w: World, now: Marks)
    ensures Commit(w, now).Ok? ==>
      var next := Commit(w, now).value;
      && next.chain == w.chain && next.disk.pending.None?
      && w.disk.pending.Some? && next.disk.used == w.disk.used + [w.disk.pending.value.command.id]
  {
    hide Settled, Reconcile, Attributed, Observe;
  }

  /** A restart writes the missing outcome, and the ordered run is what it was. */
  lemma RestartHolds<V(!new)>(m: Journal.Machine<V>, genesis: Journal.Chain<V>, p: Journal.Process<V>)
    requires Journal.Inv(m, genesis, p) && Journal.Speaks(m)
    ensures var rows := Journal.Step(m, genesis, p, Journal.Restarted).journal;
      && Journal.Fold(m, genesis, rows) == Journal.Fold(m, genesis, p.journal)
      && (forall done :: Failed(rows, done) == Failed(p.journal, done))
      && |rows| == |p.journal| && forall i :: 0 <= i < |rows| ==> rows[i].call == p.journal[i].call
  {
    hide Journal.Send, Journal.Outcome, Journal.Replay, Journal.Fold, Journal.Honest, Journal.Speaks, Failed,
      IsAnchorTag;
    Journal.ReplayRefinesFold(m, genesis, p.journal);
    Journal.ResolvedIsFolded(m, genesis, p.journal);
    if !Journal.Finished(p.journal) {
      var front, last := p.journal[..|p.journal| - 1], p.journal[|p.journal| - 1];
      assert p.journal == front + [last];
      Journal.RowOutcome(m, Journal.Fold(m, genesis, front), last);
      forall done ensures Failed(Journal.Resolved(m, genesis, p.journal), done) == Failed(p.journal, done) {
        FailedAppend(front, last, done);
        FailedAppend(front, Journal.Outcome(m, Journal.Fold(m, genesis, front), last), done);
      }
    }
  }

  lemma HappeningIsAction<V(!new)>(
      m: Journal.Machine<V>, view: View<V>, genesis: Journal.Chain<V>, d: Durable<V>, h: Happening)
    requires Faithful(m, view) && genesis.done == map[] && Good(m, view, genesis, d) && Named(h)
    ensures var a := ActionOf(m, view, d, h);
      && Possible(Held(m, view, genesis, d), a)
      && Held(m, view, genesis, Do(m, view, genesis, d, h)) == Next(Held(m, view, genesis, d), a)
    ensures Good(m, view, genesis, Do(m, view, genesis, d, h))
  {
    hide Journal.Inv, Inv, IsAnchorTag, Faithful, Held, ActionOf, Possible, Next, Do;
    match h {
      case Transacted(crash) => TransactIsAction(m, view, genesis, d, crash);
      case Anchored(crash) => AnchorIsAction(m, view, genesis, d, crash);
      case _ => OtherIsAction(m, view, genesis, d, h);
    }
    NextKeeps(Held(m, view, genesis, d), ActionOf(m, view, d, h));
    JournalKeeps(m, view, genesis, d, h);
    PendingIsNamed(m, view, genesis, d, h);
    AnchorsKept(m, view, genesis, d, h);
  }

  lemma AnchorsKept<V(!new)>(
      m: Journal.Machine<V>, view: View<V>, genesis: Journal.Chain<V>, d: Durable<V>, h: Happening)
    requires Faithful(m, view) && genesis.done == map[] && Good(m, view, genesis, d)
    ensures var after := Do(m, view, genesis, d, h);
      AnchorsAreDone(view, Journal.Fold(m, genesis, after.process.journal)) && AnchorsAreOrders(after.process.journal, after.disk)
  {
    hide Journal.Inv, Journal.Fold, Journal.Replay, Inv, IsAnchorTag, IdOf, Faithful, Submit, Commit, Effects,
      Failed, BeforeSending, AnchorsAreDone, AnchorsAreOrders, Tried, Journal.Execute, Journal.Speaks;
    match h {
      case Transacted(crash) =>
        if Transacts(view, d) {
          CallKeepsAnchors(m, view, genesis, d, CallOf(view, d.disk.pending.value), crash);
        }
      case Anchored(crash) =>
        if Anchors(d) {
          AnchorTagIs(d.disk.pending.value.command.id);
          CallKeepsAnchors(m, view, genesis, d, AnchorOf(d.disk.pending.value), crash);
        }
      case Started => RestartKeepsAnchors(m, view, genesis, d);
      case Asked(c, marks, quoted) =>
        if d.process.live.Some? {
          SubmitLeavesChain(Seen(view, d.disk, d.process.live.value, d.process.journal), c, marks, quoted);
          DiskKeepsAnchors(d.process.journal, d.disk, Do(m, view, genesis, d, h).disk);
        }
      case Finished(now) =>
        if d.process.live.Some? {
          CommitLeavesChain(Seen(view, d.disk, d.process.live.value, d.process.journal), now);
          DiskKeepsAnchors(d.process.journal, d.disk, Do(m, view, genesis, d, h).disk);
        }
      case _ =>
    }
  }

  lemma DiskKeepsAnchors(rows: seq<Journal.Row>, disk: Disk, next: Disk)
    requires AnchorsAreOrders(rows, disk)
    requires disk == next || (disk.used <= next.used
      && (disk.pending.Some? ==> disk.pending.value.command.id in next.used))
    ensures AnchorsAreOrders(rows, next)
  {
    hide IsAnchorTag, IdOf;
  }

  lemma CallKeepsAnchors<V(!new)>(
      m: Journal.Machine<V>, view: View<V>, genesis: Journal.Chain<V>, d: Durable<V>, call: Journal.Call, crash: bool)
    requires Faithful(m, view) && genesis.done == map[] && Good(m, view, genesis, d)
    requires d.process.live.Some? && d.disk.pending.Some?
    requires call == CallOf(view, d.disk.pending.value)
      || (call == AnchorOf(d.disk.pending.value) && d.disk.pending.value.command.kind == ORDER)
    ensures var rows := Tried(m, genesis, d.process, call, crash).journal;
      AnchorsAreDone(view, Journal.Fold(m, genesis, rows)) && AnchorsAreOrders(rows, d.disk)
  {
    hide Journal.Inv, Journal.Fold, Journal.Send, Inv, IsAnchorTag, IdOf, Permitted, EffectOn, Effects, MovesFor,
      AnchorsFor, Tried, Journal.Speaks;
    var plan := d.disk.pending.value;
    LiveIsHeld(m, view, genesis, d);
    AnchorTagIs(plan.command.id);
    if New(d.process.journal, call) {
      NewCall(m, genesis, d.process, call, crash);
      var rows := Tried(m, genesis, d.process, call, crash).journal;
      assert forall i :: 0 <= i < |d.process.journal| ==> rows[i] == d.process.journal[i];
      if call == CallOf(view, plan) {
        PlanSent(m, view, d.process.live.value, plan);
      } else {
        AnchorSent(m, view, d.process.live.value, plan);
      }
    } else {
      KnownCall(m, genesis, d.process, call, crash);
    }
  }

  lemma RestartKeepsAnchors<V(!new)>(m: Journal.Machine<V>, view: View<V>, genesis: Journal.Chain<V>, d: Durable<V>)
    requires Faithful(m, view) && Good(m, view, genesis, d)
    ensures var rows := Journal.Step(m, genesis, d.process, Journal.Restarted).journal;
      AnchorsAreDone(view, Journal.Fold(m, genesis, rows)) && AnchorsAreOrders(rows, d.disk)
  {
    hide Journal.Inv, Journal.Fold, Journal.Step, Inv, IsAnchorTag, IdOf, MovesFor, AnchorsFor, Journal.Speaks,
      Failed;
    RestartHolds(m, genesis, d.process);
  }

  lemma JournalKeeps<V(!new)>(
      m: Journal.Machine<V>, view: View<V>, genesis: Journal.Chain<V>, d: Durable<V>, h: Happening)
    requires Faithful(m, view) && genesis.done == map[] && Journal.Inv(m, genesis, d.process)
    ensures Journal.Inv(m, genesis, Do(m, view, genesis, d, h).process)
  {
    hide Journal.Inv, Journal.Step, Journal.Speaks, Submit, Commit, BeforeSending;
    match h {
      case Anchored(crash) =>
        if Anchors(d) {
          var call := AnchorOf(d.disk.pending.value);
          Journal.StepKeeps(m, genesis, d.process, if crash then Journal.CalledAndCrashed(call) else Journal.Called(call));
        }
      case Transacted(crash) =>
        if Transacts(view, d) {
          var call := CallOf(view, d.disk.pending.value);
          Journal.StepKeeps(m, genesis, d.process, if crash then Journal.CalledAndCrashed(call) else Journal.Called(call));
        }
      case Stopped => Journal.StepKeeps(m, genesis, d.process, Journal.Crashed);
      case Started => Journal.StepKeeps(m, genesis, d.process, Journal.Restarted);
      case Ticked(time) => Journal.StepKeeps(m, genesis, d.process, Journal.ClockMoved(time));
      case _ =>
    }
  }

  lemma PendingIsNamed<V>(m: Journal.Machine<V>, view: View<V>, genesis: Journal.Chain<V>, d: Durable<V>, h: Happening)
    requires Named(h)
    requires d.disk.pending.Some? ==> !IsAnchorTag(d.disk.pending.value.command.id)
    ensures var after := Do(m, view, genesis, d, h).disk;
      after.pending.Some? ==> !IsAnchorTag(after.pending.value.command.id)
  {
    hide Submit, Commit, IsAnchorTag, Journal.Step, Seen, BeforeSending;
    if d.process.live.Some? {
      var w := Seen(view, d.disk, d.process.live.value, d.process.journal);
      if h.Asked? {
        SubmitLeavesChain(w, h.c, h.marks, h.quoted);
      }
      if h.Finished? {
        CommitLeavesChain(w, h.now);
      }
    }
  }

  // ---------------------------------------------------------------------------------------------
  // All histories

  function DoAll<V>(m: Journal.Machine<V>, view: View<V>, genesis: Journal.Chain<V>, d: Durable<V>, hs: seq<Happening>)
    : Durable<V>
    decreases hs
  {
    if hs == [] then d else DoAll(m, view, genesis, Do(m, view, genesis, d, hs[0]), hs[1..])
  }

  /** The run of the abstract runtime a history amounts to. */
  function ActionsOf<V>(
      m: Journal.Machine<V>, view: View<V>, genesis: Journal.Chain<V>, d: Durable<V>, hs: seq<Happening>)
    : seq<Action>
    decreases hs
  {
    if hs == [] then []
    else [ActionOf(m, view, d, hs[0])] + ActionsOf(m, view, genesis, Do(m, view, genesis, d, hs[0]), hs[1..])
  }

  /**
   Refinement: a history over the journal, with calls, reverts, crashes and restarts anywhere, is a possible run of the
   abstract runtime, in which a crash loses nothing and a restart changes nothing.
   */
  lemma {:induction false} HistoryIsRun<V(!new)>(
      m: Journal.Machine<V>, view: View<V>, genesis: Journal.Chain<V>, d: Durable<V>, hs: seq<Happening>)
    requires Faithful(m, view) && genesis.done == map[] && Good(m, view, genesis, d)
    requires forall i :: 0 <= i < |hs| ==> Named(hs[i])
    ensures AllPossible(Held(m, view, genesis, d), ActionsOf(m, view, genesis, d, hs))
    ensures Held(m, view, genesis, DoAll(m, view, genesis, d, hs))
      == RunActions(Held(m, view, genesis, d), ActionsOf(m, view, genesis, d, hs))
    ensures Good(m, view, genesis, DoAll(m, view, genesis, d, hs))
    decreases hs
  {
    hide Faithful, Held, ActionOf, Possible, Next, Do, Good, Named;
    if hs != [] {
      var next, a := Do(m, view, genesis, d, hs[0]), ActionOf(m, view, d, hs[0]);
      HappeningIsAction(m, view, genesis, d, hs[0]);
      HistoryIsRun(m, view, genesis, next, hs[1..]);
      assert ([a] + ActionsOf(m, view, genesis, next, hs[1..]))[1..] == ActionsOf(m, view, genesis, next, hs[1..]);
    }
  }

  /** The first start: the disk of a new runtime, an empty journal, and a vault that holds nothing. */
  function NewDurable<V>(genesis: Journal.Chain<V>): Durable<V> {
    Durable(FirstStart().disk, Journal.Process([], Some(genesis)))
  }

  ghost predicate NewChain<V>(view: View<V>, genesis: Journal.Chain<V>) {
    && genesis.done == map[] && genesis.transactions == []
    && view.custody(genesis.vm) == FirstStart().chain.custody && view.anchors(genesis.vm) == {}
  }

  lemma NewIsGood<V(!new)>(m: Journal.Machine<V>, view: View<V>, genesis: Journal.Chain<V>)
    requires NewChain(view, genesis)
    ensures Held(m, view, genesis, NewDurable(genesis)) == FirstStart()
    ensures Good(m, view, genesis, NewDurable(genesis))
  {
    hide Inv, Review.ThreeStrategies;
    FirstStartInv();
    assert genesis.(timestamp := genesis.timestamp) == genesis;
    assert Effects(view, genesis.done) == map[] && Failed([], genesis.done) == {};
  }

  /**
   Exactly once, end to end: over a machine that permits what the vault permits, whatever is asked, retried, reverted,
   stopped and restarted, and wherever it is stopped, the vault is accounted for by the disks; when the process is up it
   reads that same vault; and every command moves assets at most once and changes the ledger at most once, never the
   ledger without the assets unless it registers an empty strategy.
   */
  lemma ExactlyOnceEndToEnd<V(!new)>(
      m: Journal.Machine<V>, view: View<V>, genesis: Journal.Chain<V>, hs: seq<Happening>, id: string)
    requires Faithful(m, view) && NewChain(view, genesis)
    requires forall i :: 0 <= i < |hs| ==> Named(hs[i])
    ensures var d := DoAll(m, view, genesis, NewDurable(genesis), hs);
      && Accounted(Held(m, view, genesis, d))
      && (d.process.live.Some? ==>
            Seen(view, d.disk, d.process.live.value, d.process.journal) == Held(m, view, genesis, d))
      && Journal.EffectsOf(Journal.Fold(m, genesis, d.process.journal).transactions, id) <= 1
    ensures var actions := ActionsOf(m, view, genesis, NewDurable(genesis), hs);
      && CommitsOf(FirstStart(), actions, id) <= SendsOf(FirstStart(), actions, id) <= 1
      && CommitsOf(FirstStart(), actions, id) + RegistrationsOf(FirstStart(), actions, id) <= 1
  {
    hide Faithful, Held, Inv, Accounted, Seen, CommitsOf, SendsOf, RegistrationsOf, RunActions, AllPossible,
      ActionsOf, DoAll, Named, Journal.Inv, Journal.Fold, Review.ThreeStrategies;
    NewIsGood(m, view, genesis);
    HistoryIsRun(m, view, genesis, NewDurable(genesis), hs);
    var d := DoAll(m, view, genesis, NewDurable(genesis), hs);
    ExactlyOnce(ActionsOf(m, view, genesis, NewDurable(genesis), hs), id);
    if d.process.live.Some? {
      LiveIsHeld(m, view, genesis, d);
    }
    NewOncePerTag(genesis);
    Journal.FoldOncePerTag(m, genesis, d.process.journal);
  }

  lemma NewOncePerTag<V>(genesis: Journal.Chain<V>)
    requires genesis.done == map[] && genesis.transactions == []
    ensures Journal.OncePerTag(genesis)
  {
  }

  /** A stuck plan stays stuck over the journal too: stopping, restarting and retrying never move disk or vault again. */
  lemma StuckOverRestarts<V(!new)>(
      m: Journal.Machine<V>, view: View<V>, genesis: Journal.Chain<V>, d: Durable<V>, hs: seq<Happening>)
    requires Faithful(m, view) && genesis.done == map[] && Good(m, view, genesis, d)
    requires RuntimeProgress.Stuck(Held(m, view, genesis, d))
    requires forall i :: 0 <= i < |hs| ==> Named(hs[i])
    ensures var after := DoAll(m, view, genesis, d, hs);
      && after.disk == d.disk
      && Held(m, view, genesis, after).chain.custody == Held(m, view, genesis, d).chain.custody
  {
    hide Faithful, Inv, RuntimeProgress.Stuck, RunActions, AllPossible, ActionsOf, DoAll, Named, Good, Journal.Fold;
    HistoryIsRun(m, view, genesis, d, hs);
    RuntimeProgress.StuckForGood(Held(m, view, genesis, d), ActionsOf(m, view, genesis, d, hs));
  }
}
