/** What holds in every state of every run of the service: any number of workers, any
    scratch disk left by an earlier process, any interleaving, any number of lost sessions
    and any failure of a database, storage or tool call. */
module Guarantees {
  import opened Basics
  import D = Delivery
  import DI = DeliveryInvariant
  import A = Attempts
  import opened System

  /** `t` is reached from the start of the service by the run `ls`. */
  predicate Reached(width: nat, enabled: bool, disk: A.Disk, ls: seq<Label>, t: State) {
    Runs(Init(width, enabled, disk), ls, t)
  }

  lemma ReachedInv(width: nat, enabled: bool, disk: A.Disk, ls: seq<Label>, t: State)
    requires Reached(width, enabled, disk, ls, t)
    ensures Inv(t) && t.j.enabled == enabled && t.d.width == width
  {
    InitInv(width, enabled, disk);
    RunInv(Init(width, enabled, disk), ls, t);
  }

  // ---------------------------------------------------------------- messages

  function SlotsOf(b: D.Broker, m: nat): set<D.Slot> {
    set k | k in b.unacked.Keys && b.unacked[k] == m
  }

  /** In how many places at the broker a message is, every unacked slot counting as one. */
  function Places(b: D.Broker, m: nat): nat {
    (if m in b.ready then 1 else 0) + |SlotsOf(b, m)| + (if m in b.acked then 1 else 0) + (if m in b.dead then 1 else 0)
  }

  /** No message is ever lost or duplicated at the broker. */
  lemma MessageConservation(width: nat, enabled: bool, disk: A.Disk, ls: seq<Label>, t: State)
    requires Reached(width, enabled, disk, ls, t)
    ensures forall m: nat :: Places(t.d.broker, m) == if m < |t.payloads| then 1 else 0
  {
    ReachedInv(width, enabled, disk, ls, t);
    var b := t.d.broker;
    forall m: nat ensures Places(b, m) == if m < |t.payloads| then 1 else 0 {
      if m in b.unacked.Values {
        var k :| k in b.unacked && b.unacked[k] == m;
        assert SlotsOf(b, m) == {k};
      } else {
        assert forall k | k in b.unacked :: b.unacked[k] in b.unacked.Values;
        assert SlotsOf(b, m) == {};
      }
      assert m < b.published ==> DI.InOnePlace(b, m);
    }
  }

  predicate Live(s: D.State, p: DI.Place) {
    DI.At(s, p).Some? && DI.At(s, p).value.slot.session in s.broker.open
  }

  /** An unsettled copy whose session the broker still knows is the only such copy of a message
      that the broker holds unacked in that session under that tag. */
  lemma LiveCopyIsUnique(width: nat, enabled: bool, disk: A.Disk, ls: seq<Label>, t: State, p: DI.Place, q: DI.Place)
    requires Reached(width, enabled, disk, ls, t)
    requires Live(t.d, p)
    ensures var c := DI.At(t.d, p).value;
            && c.slot in t.d.broker.unacked && t.d.broker.unacked[c.slot] == c.msg
            && (q != p && Live(t.d, q) ==> DI.At(t.d, q).value.msg != c.msg)
  {
    ReachedInv(width, enabled, disk, ls, t);
    assert DI.Genuine(t.d.broker, DI.At(t.d, p).value);
    if q != p && Live(t.d, q) {
      assert DI.Genuine(t.d.broker, DI.At(t.d, q).value);
    }
  }

  /** Message `m` is where it was. */
  predicate Unmoved(b: D.Broker, n: D.Broker, m: nat) {
    && (m in n.ready <==> m in b.ready) && SlotsOf(n, m) == SlotsOf(b, m)
    && (m in n.acked <==> m in b.acked) && (m in n.dead <==> m in b.dead)
  }

  /** Settling reaches the broker only over the session the copy came from; if it does not, the
      broker is as before. If it does, exactly that message leaves the unacked ones, and it is
      acknowledged if the attempt has ended without an error and dead-lettered otherwise. */
  lemma SettleTouchesOneMessage(width: nat, enabled: bool, disk: A.Disk, ls: seq<Label>, t: State, w: nat, reached: bool)
    requires Reached(width, enabled, disk, ls, t) && Enabled(t, Settle(w, reached))
    ensures var c := t.d.workers[w].copy; var a := t.d.workers[w].attempt;
            var b := t.d.broker; var n := Next(t, Settle(w, reached)).d.broker;
            && (c.slot.session !in b.open || t.d.link != Some(c.slot.session) ==> !reached)
            && (!reached ==> n == b)
            && (reached ==> SlotsOf(b, c.msg) == {c.slot} && SlotsOf(n, c.msg) == {} && c.msg !in n.ready)
            && (reached ==> if t.j.attempts[a].phase == A.Ended("")
                            then c.msg in n.acked && n.acked[c.msg] == a && c.msg !in n.dead
                            else c.msg in n.dead && n.dead[c.msg] == a && c.msg !in n.acked)
            && (forall m: nat | m != c.msg :: Unmoved(b, n, m))
  {
    ReachedInv(width, enabled, disk, ls, t);
    var c, a := t.d.workers[w].copy, t.d.workers[w].attempt;
    assert DI.At(t.d, DI.InWorker(w)) == Some(c);
    assert DI.Genuine(t.d.broker, c);
    if reached {
      SettledMoves(t.d.broker, c, a, t.j.attempts[a].phase == A.Ended(""));
    }
  }

  lemma SettledMoves(b: D.Broker, c: D.Copy, a: nat, ok: bool)
    requires DI.BrokerOk(b) && c.slot in b.unacked && b.unacked[c.slot] == c.msg
    ensures var n := D.Settled(b, c.slot, a, ok);
            && SlotsOf(b, c.msg) == {c.slot} && SlotsOf(n, c.msg) == {} && c.msg !in n.ready
            && (if ok then c.msg in n.acked && n.acked[c.msg] == a && c.msg !in n.dead
                else c.msg in n.dead && n.dead[c.msg] == a && c.msg !in n.acked)
            && forall m: nat | m != c.msg :: Unmoved(b, n, m)
  {
    var n := D.Settled(b, c.slot, a, ok);
    assert c.msg in b.unacked.Values;
    assert DI.InOnePlace(b, c.msg);
    assert forall k | k in n.unacked :: k in b.unacked && n.unacked[k] == b.unacked[k] && k != c.slot;
    forall m: nat | m != c.msg ensures SlotsOf(n, m) == SlotsOf(b, m) {
    }
  }

  /** Whatever is acknowledged or dead-lettered stays so, on behalf of the same attempt. */
  lemma {:induction false} SettledIsFinal(s: State, ls: seq<Label>, t: State, m: nat)
    requires Inv(s) && Runs(s, ls, t)
    ensures m in s.d.broker.acked ==> m in t.d.broker.acked && t.d.broker.acked[m] == s.d.broker.acked[m]
    ensures m in s.d.broker.dead ==> m in t.d.broker.dead && t.d.broker.dead[m] == s.d.broker.dead[m]
    decreases |ls|
  {
    if ls != [] {
      StepKeepsSettled(s, ls[0], m);
      StepInv(s, ls[0]);
      SettledIsFinal(Next(s, ls[0]), ls[1..], t, m);
    }
  }

  lemma StepKeepsSettled(s: State, l: Label, m: nat)
    requires Inv(s) && Enabled(s, l)
    ensures var b := s.d.broker; var n := Next(s, l).d.broker;
            && (m in b.acked ==> m in n.acked && n.acked[m] == b.acked[m])
            && (m in b.dead ==> m in n.dead && n.dead[m] == b.dead[m])
  {
    match l
    case Settle(w, reached) =>
      var x := s.d.workers[w];
      SettleBroker(s, w, reached);
      BrokerKeepsSettled(s.d.broker, x.copy.slot, x.attempt, s.j.attempts[x.attempt].phase == A.Ended(""), m);
    case Call(_, _) =>
    case Publish(_) =>
    case Take(_) =>
    case _ => QuietStepSameLog(s, l);
  }

  lemma BrokerKeepsSettled(b: D.Broker, slot: D.Slot, a: nat, ok: bool, m: nat)
    requires DI.BrokerOk(b)
    ensures var n := D.Settled(b, slot, a, ok);
            && (m in b.acked ==> m in n.acked && n.acked[m] == b.acked[m])
            && (m in b.dead ==> m in n.dead && n.dead[m] == b.dead[m])
  {
    if slot in b.unacked {
      assert b.unacked[slot] in b.unacked.Values;
      assert DI.InOnePlace(b, b.unacked[slot]);
    }
  }

  /** Handing a message back at shutdown, too, reaches the broker only over the session it came from,
      and then makes exactly that message ready again; otherwise the broker is as before. */
  lemma HandBackTouchesOneMessage(width: nat, enabled: bool, disk: A.Disk, ls: seq<Label>, t: State, reached: bool)
    requires Reached(width, enabled, disk, ls, t) && Enabled(t, Fetch(D.HandBack(reached)))
    ensures var c := t.d.consumer.copy; var b := t.d.broker; var n := Next(t, Fetch(D.HandBack(reached))).d.broker;
            && (c.slot.session !in b.open || t.d.link != Some(c.slot.session) ==> !reached)
            && (!reached ==> n == b)
            && (reached ==> SlotsOf(b, c.msg) == {c.slot} && SlotsOf(n, c.msg) == {} && c.msg in n.ready)
            && (forall m: nat | m != c.msg :: Unmoved(b, n, m))
  {
    ReachedInv(width, enabled, disk, ls, t);
    var c := t.d.consumer.copy;
    assert DI.At(t.d, DI.InHand) == Some(c);
    assert DI.Genuine(t.d.broker, c);
    if reached { RequeuedMoves(t.d.broker, c); }
  }

  lemma RequeuedMoves(b: D.Broker, c: D.Copy)
    requires DI.BrokerOk(b) && c.slot in b.unacked && b.unacked[c.slot] == c.msg
    ensures var n := D.Requeued(b, c.slot);
            && SlotsOf(b, c.msg) == {c.slot} && SlotsOf(n, c.msg) == {} && c.msg in n.ready
            && forall m: nat | m != c.msg :: Unmoved(b, n, m)
  {
    var n := D.Requeued(b, c.slot);
    assert forall k | k in n.unacked :: k in b.unacked && n.unacked[k] == b.unacked[k] && k != c.slot;
    forall m: nat | m != c.msg ensures SlotsOf(n, m) == SlotsOf(b, m) {
    }
  }

  // ---------------------------------------------------------------- settlement

  /** The end of an attempt that deserves an acknowledgement: the row has the message's video and
      prefix, is Completed without error, and everything the attempt's own Encode left in the
      directory has been uploaded by it. With the processor disabled the row is Pending. */
  predicate Deserved(t: State, m: nat, a: nat) {
    && m < |t.payloads| && t.payloads[m].Job?
    && a < |t.j.attempts| && a < |t.d.log| && t.d.log[a].copy.msg == m
    && var e := t.j.attempts[a];
    && e.phase == A.Ended("") && e.job.Some? && e.job.value in t.j.rows
    && t.j.rows[e.job.value] ==
         A.Row(t.payloads[m].video, t.payloads[m].prefix, if t.j.enabled then A.Completed else A.Pending, "")
    && (t.j.enabled ==> e.outputs != {} && forall f | f in e.outputs :: A.Write(a, e.video, f, a, true) in t.j.writes)
  }

  /** The end of an attempt that deserves dead-lettering. */
  predicate Rejected(t: State, m: nat, a: nat) {
    && a < |t.j.attempts| && a < |t.d.log| && t.d.log[a].copy.msg == m
    && var e := t.j.attempts[a];
    && e.phase.Ended? && e.phase.error != ""
    && (e.job.Some? ==> e.job.value in t.j.rows && t.j.rows[e.job.value].status != A.Completed)
  }

  lemma SettlementSound(width: nat, enabled: bool, disk: A.Disk, ls: seq<Label>, t: State)
    requires Reached(width, enabled, disk, ls, t)
    ensures forall m | m in t.d.broker.acked :: Deserved(t, m, t.d.broker.acked[m])
    ensures forall m | m in t.d.broker.dead :: Rejected(t, m, t.d.broker.dead[m])
    ensures forall a | 0 <= a < |t.d.log| && t.d.log[a].settles > 0 :: a < |t.j.attempts| && t.j.attempts[a].phase.Ended?
  {
    ReachedInv(width, enabled, disk, ls, t);
    forall m | m in t.d.broker.acked ensures Deserved(t, m, t.d.broker.acked[m]) {
      SuccessMeans(t, m, t.d.broker.acked[m]);
    }
    forall m | m in t.d.broker.dead ensures Rejected(t, m, t.d.broker.dead[m]) {
      FailureMeans(t, m, t.d.broker.dead[m]);
    }
  }

  lemma LastStatus(h: seq<A.Row>)
    requires h != []
    ensures A.Statuses(h)[|h| - 1] == h[|h| - 1].status && |A.Statuses(h)| == |h|
  {
  }

  lemma SuccessMeans(t: State, m: nat, a: nat)
    requires Inv(t) && SettledFor(t, m, a, true)
    ensures Deserved(t, m, a)
  {
    assert Faithful(t, a);
    assert A.PhaseOk(t.j, a) && A.UploadsOk(t.j, a);
    assert forall p | p in t.payloads :: p.Malformed? ==> p.error != "";
    assert t.payloads[m] in t.payloads;
    var id := t.j.attempts[a].job.value;
    assert A.RowOk(t.j, id);
    LastStatus(t.j.history[id]);
  }

  lemma FailureMeans(t: State, m: nat, a: nat)
    requires Inv(t) && SettledFor(t, m, a, false)
    ensures Rejected(t, m, a)
  {
    assert A.PhaseOk(t.j, a);
    if t.j.attempts[a].job.Some? {
      var id := t.j.attempts[a].job.value;
      assert A.RowOk(t.j, id);
      LastStatus(t.j.history[id]);
    }
  }

  // ---------------------------------------------------------------- rows

  /** Every row goes through the documented statuses and only through those. */
  lemma StatusHistory(width: nat, enabled: bool, disk: A.Disk, ls: seq<Label>, t: State, id: nat)
    requires Reached(width, enabled, disk, ls, t) && id in t.j.rows
    ensures id in t.j.history
    ensures var h := t.j.history[id]; var q := A.Statuses(h);
            && h != [] && h[|h| - 1] == t.j.rows[id]
            && (if enabled
                then q <= [A.Pending, A.Processing, A.Completed] || q <= [A.Pending, A.Processing, A.Failed]
                     || q == [A.Pending, A.Failed]
                else q == [A.Pending])
            && (forall i | 0 <= i < |h| :: h[i].error != "" <==> h[i].status == A.Failed)
  {
    ReachedInv(width, enabled, disk, ls, t);
    assert A.RowOk(t.j, id);
  }

  /** Histories only grow. */
  lemma {:induction false} HistoryGrows(s: State, ls: seq<Label>, t: State, id: nat)
    requires Inv(s) && Runs(s, ls, t) && id in s.j.rows
    ensures id in s.j.history && id in t.j.history && id in t.j.rows && s.j.history[id] <= t.j.history[id]
    decreases |ls|
  {
    if ls != [] {
      StepInv(s, ls[0]);
      StepGrowsHistory(s, ls[0], id);
      HistoryGrows(Next(s, ls[0]), ls[1..], t, id);
    }
  }

  /** A history that has reached Completed or Failed has no legal extension. */
  lemma TerminalIsLast(j: A.State, id: nat, i: nat)
    requires id in j.rows && id in j.history && A.RowOk(j, id) && i < |j.history[id]|
    requires j.history[id][i].status == A.Completed || j.history[id][i].status == A.Failed
    ensures i == |j.history[id]| - 1
  {
    assert A.Statuses(j.history[id])[i] == j.history[id][i].status;
  }

  /** Once a row is Completed or Failed it never changes again. */
  lemma TerminalStatusIsFinal(
    width: nat, enabled: bool, disk: A.Disk, before: seq<Label>, s: State, ls: seq<Label>, t: State, id: nat)
    requires Reached(width, enabled, disk, before, s) && Runs(s, ls, t) && id in s.j.rows
    requires s.j.rows[id].status == A.Completed || s.j.rows[id].status == A.Failed
    ensures id in s.j.history && id in t.j.history && t.j.history[id] == s.j.history[id]
    ensures id in t.j.rows && t.j.rows[id] == s.j.rows[id]
  {
    ReachedInv(width, enabled, disk, before, s);
    HistoryGrows(s, ls, t, id);
    RunInv(s, ls, t);
    assert A.RowOk(s.j, id) && A.RowOk(t.j, id);
    TerminalIsLast(t.j, id, |s.j.history[id]| - 1);
  }

  lemma StepGrowsHistory(s: State, l: Label, id: nat)
    requires Inv(s) && Enabled(s, l) && id in s.j.rows
    ensures id in s.j.history && id in Next(s, l).j.history && id in Next(s, l).j.rows
    ensures s.j.history[id] <= Next(s, l).j.history[id]
  {
    match l
    case Call(w, Db(c)) => A.DbTouchesOwnRow(s.j, s.d.workers[w].attempt, c, id);
    case Call(_, Media(_)) =>
    case Take(_) =>
    case _ =>
  }

  /** updateStatus's separate Find and Update act as one step: what it writes is the row as it is
      at that moment with the new status and error, whatever ran in between. */
  lemma NoLostUpdate(width: nat, enabled: bool, disk: A.Disk, ls: seq<Label>, t: State, w: nat)
    requires Reached(width, enabled, disk, ls, t)
    requires Enabled(t, Call(w, A.Db(A.WriteRow(Done))))
    ensures var e := t.j.attempts[t.d.workers[w].attempt];
            && e.job.Some? && e.job.value in t.j.rows
            && Next(t, Call(w, A.Db(A.WriteRow(Done)))).j.rows
               == t.j.rows[e.job.value := t.j.rows[e.job.value].(status := e.phase.to, error := e.phase.error)]
  {
    ReachedInv(width, enabled, disk, ls, t);
    assert A.PhaseOk(t.j, t.d.workers[w].attempt);
  }

  /** The call that ends a failing attempt leaves its row Failed exactly if it is an Update that
      succeeds, and then with the attempt's error. Otherwise the row is Pending or Processing: no mark
      went through, or it was the mark Completed that failed, or the insert failed having stored the
      row. */
  lemma FailureIsRecordedExactly(
    width: nat, enabled: bool, disk: A.Disk, ls: seq<Label>, t: State, w: nat, c: A.DbCall, e: string)
    requires Reached(width, enabled, disk, ls, t) && Enabled(t, Call(w, A.Db(c)))
    requires var x := Next(t, Call(w, A.Db(c))).j.attempts[t.d.workers[w].attempt];
             x.phase == A.Ended(e) && e != "" && x.job.Some?
    ensures var n := Next(t, Call(w, A.Db(c))).j; var id := n.attempts[t.d.workers[w].attempt].job.value;
            && id in n.rows
            && (n.rows[id].status == A.Failed <==> c == A.WriteRow(Done))
            && (n.rows[id].status == A.Failed ==> n.rows[id].error == e)
            && (n.rows[id].status != A.Failed ==> n.rows[id].status in {A.Pending, A.Processing})
  {
    ReachedInv(width, enabled, disk, ls, t);
    var a := t.d.workers[w].attempt;
    LastCallDecides(t.j, a, c, e);
  }

  lemma LastCallDecides(j: A.State, a: nat, c: A.DbCall, e: string)
    requires A.RowsOk(j) && A.DbEnabled(j, a, c) && A.DbGoes(j, a, c) == A.Ended(e) && e != ""
    requires A.DbNext(j, a, c).attempts[a].job.Some?
    ensures var n := A.DbNext(j, a, c); var id := n.attempts[a].job.value;
            && id in n.rows
            && (n.rows[id].status == A.Failed <==> c == A.WriteRow(Done))
            && (n.rows[id].status == A.Failed ==> n.rows[id].error == e)
            && (n.rows[id].status != A.Failed ==> n.rows[id].status in {A.Pending, A.Processing})
  {
    assert A.PhaseOk(j, a);
    var x := j.attempts[a];
    if x.job.Some? && c != A.WriteRow(Done) {
      BeforeAnyTerminal(j, a);
    }
  }

  /** While the attempt still has a mark to make, its row is Pending or Processing. */
  lemma BeforeAnyTerminal(j: A.State, a: nat)
    requires A.RowsOk(j) && a < |j.attempts| && A.Marking(j.attempts[a].phase) && j.attempts[a].job.Some?
    ensures var id := j.attempts[a].job.value; id in j.rows && j.rows[id].status in {A.Pending, A.Processing}
  {
    assert A.PhaseOk(j, a);
    var id := j.attempts[a].job.value;
    assert A.RowOk(j, id);
    LastStatus(j.history[id]);
  }

  /** The row of an attempt that has ended never changes again. */
  lemma EndedRowIsFinal(
    width: nat, enabled: bool, disk: A.Disk, before: seq<Label>, s: State, ls: seq<Label>, t: State, a: nat)
    requires Reached(width, enabled, disk, before, s) && Runs(s, ls, t)
    requires a < |s.j.attempts| && s.j.attempts[a].phase.Ended? && s.j.attempts[a].job.Some?
    ensures a < |t.j.attempts| && t.j.attempts[a] == s.j.attempts[a]
    ensures var id := s.j.attempts[a].job.value;
            id in s.j.rows && id in t.j.rows && t.j.rows[id] == s.j.rows[id]
  {
    ReachedInv(width, enabled, disk, before, s);
    EndedRowLasts(s, ls, t, a);
  }

  lemma {:induction false} EndedRowLasts(s: State, ls: seq<Label>, t: State, a: nat)
    requires Inv(s) && Runs(s, ls, t)
    requires a < |s.j.attempts| && s.j.attempts[a].phase.Ended? && s.j.attempts[a].job.Some?
    ensures a < |t.j.attempts| && t.j.attempts[a] == s.j.attempts[a]
    ensures var id := s.j.attempts[a].job.value;
            id in s.j.rows && id in t.j.rows && t.j.rows[id] == s.j.rows[id]
    decreases |ls|
  {
    assert A.PhaseOk(s.j, a);
    if ls != [] {
      StepInv(s, ls[0]);
      StepExtends(s, ls[0]);
      StepKeepsEndedRow(s, ls[0], a);
      EndedRowLasts(Next(s, ls[0]), ls[1..], t, a);
    }
  }

  lemma StepKeepsEndedRow(s: State, l: Label, a: nat)
    requires Inv(s) && Enabled(s, l)
    requires a < |s.j.attempts| && s.j.attempts[a].phase.Ended? && s.j.attempts[a].job.Some?
    ensures var id := s.j.attempts[a].job.value;
            id in s.j.rows && id in Next(s, l).j.rows && Next(s, l).j.rows[id] == s.j.rows[id]
  {
    assert A.PhaseOk(s.j, a);
    var id := s.j.attempts[a].job.value;
    if l.Call? && Next(s, l).j.rows != s.j.rows {
      var b := s.d.workers[l.w].attempt;
      CallKeepsOthers(s.j, b, l.c);
      A.DbTouchesOwnRow(s.j, b, l.c.d, id);
      OneJobEach(s.j, a, b);
    }
  }

  lemma OneJobEach(j: A.State, a: nat, b: nat)
    requires A.JobsDistinct(j) && a < |j.attempts| && b < |j.attempts| && a != b && j.attempts[a].job.Some?
    ensures j.attempts[b].job != j.attempts[a].job
  {
  }

  /** A row changes only by a call of the attempt that inserted it, and no two attempts ever
      have the same row. */
  lemma OnlyTheInserterWrites(width: nat, enabled: bool, disk: A.Disk, ls: seq<Label>, t: State, l: Label, id: nat)
    requires Reached(width, enabled, disk, ls, t) && Enabled(t, l)
    requires id in t.j.rows && (id in Next(t, l).j.rows ==> Next(t, l).j.rows[id] != t.j.rows[id])
    ensures l.Call? && var a := t.d.workers[l.w].attempt;
            && a < |t.j.attempts| && t.j.attempts[a].job == Some(id)
            && forall b | 0 <= b < |t.j.attempts| && b != a :: t.j.attempts[b].job != Some(id)
  {
    ReachedInv(width, enabled, disk, ls, t);
    if l.Call? && l.c.Db? {
      var a := t.d.workers[l.w].attempt;
      A.DbTouchesOwnRow(t.j, a, l.c.d, id);
      forall b | 0 <= b < |t.j.attempts| && b != a ensures t.j.attempts[b].job != Some(id) {
        OneJobEach(t.j, a, b);
      }
    }
  }

  // ---------------------------------------------------------------- bounded work

  /** The prefetch window bounds the unacknowledged deliveries of every session. */
  lemma PrefetchBound(width: nat, enabled: bool, disk: A.Disk, ls: seq<Label>, t: State, n: nat)
    requires Reached(width, enabled, disk, ls, t)
    ensures |D.InSession(t.d.broker, n)| <= width
  {
    ReachedInv(width, enabled, disk, ls, t);
  }

  /** A session is lost when either side drops it or the client dials again. */
  predicate LosesSession(l: Label) {
    match l
    case Net(Drop(_)) => true
    case Net(Sever) => true
    case Fetch(Redial(_)) => true
    case _ => false
  }

  predicate OneSession(s: State) {
    s.d.broker.open == {0} && |s.d.broker.tags| == 1
  }

  lemma {:induction false} OneSessionLasts(s: State, ls: seq<Label>, t: State)
    requires Runs(s, ls, t) && OneSession(s) && forall l | l in ls :: !LosesSession(l)
    ensures OneSession(t)
    decreases |ls|
  {
    if ls != [] {
      assert ls[0] in ls;
      StepKeepsSession(s, ls[0]);
      OneSessionLasts(Next(s, ls[0]), ls[1..], t);
    }
  }

  lemma StepKeepsSession(s: State, l: Label)
    requires Enabled(s, l) && OneSession(s) && !LosesSession(l)
    ensures OneSession(Next(s, l))
  {
    if l.Net? {
      assert Next(s, l).d == D.NetNext(s.d, l.n);
    }
    if l.Fetch? {
      assert Next(s, l).d == D.FetchNext(s.d, l.f);
    }
  }

  function Held(s: D.State): seq<D.Slot> {
    (if s.consumer.Handing? then [s.consumer.copy.slot] else [])
    + seq(|s.channel|, i requires 0 <= i < |s.channel| => s.channel[i].slot)
  }

  lemma {:induction false} DistinctFits<T>(q: seq<T>, s: set<T>)
    requires forall i, j | 0 <= i < j < |q| :: q[i] != q[j]
    requires forall i | 0 <= i < |q| :: q[i] in s
    ensures |q| <= |s|
  {
    if q != [] {
      DistinctFits(q[1..], s - {q[0]});
    }
  }

  /** As long as no session is lost, a consumer that holds a delivery finds a free slot in
      MessageChannel, no matter what the workers are doing. */
  lemma HandoffNeverBlocks(width: nat, enabled: bool, disk: A.Disk, ls: seq<Label>, t: State)
    requires Reached(width, enabled, disk, ls, t) && t.d.consumer.Handing?
    requires forall l | l in ls :: !LosesSession(l)
    ensures |t.d.channel| < width && Enabled(t, Fetch(D.Handoff))
  {
    ReachedInv(width, enabled, disk, ls, t);
    OneSessionLasts(Init(width, enabled, disk), ls, t);
    PrefetchBound(width, enabled, disk, ls, t, 0);
    HeldFit(t.d);
  }

  /** What the consumer and the channel hold is unacked in the one session there is. */
  lemma HeldFit(s: D.State)
    requires DI.CopiesOk(s) && s.broker.open == {0} && |s.broker.tags| == 1
    ensures |Held(s)| <= |D.InSession(s.broker, 0)|
  {
    var h := Held(s);
    forall i | 0 <= i < |h| ensures h[i] in D.InSession(s.broker, 0) {
      HeldAt(s, i);
      assert DI.Genuine(s.broker, DI.At(s, HeldPlace(s, i)).value);
    }
    forall i, j | 0 <= i < j < |h| ensures h[i] != h[j] {
      HeldAt(s, i);
      HeldAt(s, j);
      assert HeldPlace(s, i) != HeldPlace(s, j);
    }
    DistinctFits(h, D.InSession(s.broker, 0));
  }

  function HeldPlace(s: D.State, i: nat): DI.Place {
    if !s.consumer.Handing? then DI.InChannel(i) else if i == 0 then DI.InHand else DI.InChannel(i - 1)
  }

  lemma HeldAt(s: D.State, i: nat)
    requires i < |Held(s)|
    ensures DI.At(s, HeldPlace(s, i)).Some? && DI.At(s, HeldPlace(s, i)).value.slot == Held(s)[i]
  {
  }

  // ---------------------------------------------------------------- duplicates

  function AttemptsOn(t: State, m: nat): set<nat> {
    set a | 0 <= a < |t.d.log| && t.d.log[a].copy.msg == m
  }

  /** The ids of the rows that attempts on message `m` have inserted. */
  function RowsFor(t: State, m: nat): set<nat> {
    set a | a in AttemptsOn(t, m) && a < |t.j.attempts| && t.j.attempts[a].job.Some? :: t.j.attempts[a].job.value
  }

  lemma {:induction false} OccurrencesAre(q: seq<nat>, m: nat)
    ensures |set i | 0 <= i < |q| && q[i] == m| == multiset(q)[m]
  {
    if q == [] {
    } else {
      var n := |q| - 1;
      OccurrencesAre(q[..n], m);
      assert q == q[..n] + [q[n]];
      var before := set i | 0 <= i < n && q[..n][i] == m;
      assert (set i | 0 <= i < |q| && q[i] == m) == if q[n] == m then before + {n} else before;
    }
  }

  lemma {:induction false} ImageFits(xs: set<nat>, jobs: seq<A.Attempt>)
    requires forall a | a in xs :: a < |jobs| && jobs[a].job.Some?
    ensures |set a | a in xs :: jobs[a].job.value| <= |xs|
  {
    if xs != {} {
      var x :| x in xs;
      ImageFits(xs - {x}, jobs);
      assert (set a | a in xs :: jobs[a].job.value) == (set a | a in xs - {x} :: jobs[a].job.value) + {jobs[x].job.value};
    }
  }

  /** One message leads to at most one row, and one more for each session lost while the message
      was unacked in it. Handing a message back at shutdown adds none. */
  lemma DuplicateBound(width: nat, enabled: bool, disk: A.Disk, ls: seq<Label>, t: State, m: nat)
    requires Reached(width, enabled, disk, ls, t)
    ensures |RowsFor(t, m)| <= |AttemptsOn(t, m)| <= 1 + t.d.broker.lost[m]
  {
    ReachedInv(width, enabled, disk, ls, t);
    var q := DI.Msgs(t.d.handed);
    OccurrencesAre(q, m);
    var all := set i | 0 <= i < |q| && q[i] == m;
    assert AttemptsOn(t, m) <= all;
    DI.SubsetCard(AttemptsOn(t, m), all);
    assert DI.Spent(t.d, m) <= DI.Credit(t.d.broker, m);
    var with := set a | a in AttemptsOn(t, m) && a < |t.j.attempts| && t.j.attempts[a].job.Some?;
    ImageFits(with, t.j.attempts);
    assert RowsFor(t, m) == set a | a in with :: t.j.attempts[a].job.value;
    DI.SubsetCard(with, AttemptsOn(t, m));
  }

  /** Without a lost session nothing is ever lost, so a message leads to at most one row. */
  lemma {:induction false} NothingLost(s: State, ls: seq<Label>, t: State, m: nat)
    requires Runs(s, ls, t) && forall l | l in ls :: !LosesSession(l)
    ensures t.d.broker.lost[m] == s.d.broker.lost[m]
    decreases |ls|
  {
    if ls != [] {
      var l := ls[0];
      assert l in ls;
      assert Next(s, l).d.broker.lost[m] == s.d.broker.lost[m] by {
        if l.Net? { assert Next(s, l).d == D.NetNext(s.d, l.n); }
        if l.Fetch? { assert Next(s, l).d == D.FetchNext(s.d, l.f); }
      }
      NothingLost(Next(s, l), ls[1..], t, m);
    }
  }

  lemma AtMostOnceWithoutLoss(width: nat, enabled: bool, disk: A.Disk, ls: seq<Label>, t: State, m: nat)
    requires Reached(width, enabled, disk, ls, t) && forall l | l in ls :: !LosesSession(l)
    ensures |AttemptsOn(t, m)| <= 1 && |RowsFor(t, m)| <= 1
  {
    DuplicateBound(width, enabled, disk, ls, t, m);
    NothingLost(Init(width, enabled, disk), ls, t, m);
  }
}
