/** One settle call an attempt: what comes of it is for good, and it can get lost. */
module Settlement {
  import opened Basics
  import D = Delivery
  import DI = DeliveryInvariant
  import A = Attempts
  import opened System
  import opened Guarantees

  /** Some message is dead-lettered, or acknowledged, on behalf of the attempt. */
  predicate DeadFor(s: State, a: nat) { exists m :: m in s.d.broker.dead && s.d.broker.dead[m] == a }

  predicate AckedFor(s: State, a: nat) { exists m :: m in s.d.broker.acked && s.d.broker.acked[m] == a }

  /** An attempt has one settle call, and that decides for good: a message is dead-lettered on its
      behalf exactly if the call arrives and the attempt has failed, acknowledged exactly if the call
      arrives and the attempt has succeeded. The call can arrive only while both sides hold the
      session the message came from. */
  lemma SettledExactlyIfReached(
    width: nat, enabled: bool, disk: A.Disk, before: seq<Label>, s: State, w: nat, reached: bool, ls: seq<Label>, t: State)
    requires Reached(width, enabled, disk, before, s) && Enabled(s, Settle(w, reached))
    requires Runs(Next(s, Settle(w, reached)), ls, t)
    ensures var a := s.d.workers[w].attempt;
            && a < |s.j.attempts| && s.j.attempts[a].phase.Ended?
            && (DeadFor(t, a) <==> reached && s.j.attempts[a].phase.error != "")
            && (AckedFor(t, a) <==> reached && s.j.attempts[a].phase.error == "")
    ensures var session := s.d.workers[w].copy.slot.session;
            reached ==> s.d.link == Some(session) && session in s.d.broker.open
  {
    ReachedInv(width, enabled, disk, before, s);
    var a, m := s.d.workers[w].attempt, s.d.workers[w].copy.msg;
    var n := Next(s, Settle(w, reached));
    SettleTouchesOneMessage(width, enabled, disk, before, s, w, reached);
    NothingForUnsettled(s, w);
    StepInv(s, Settle(w, reached));
    SettleCounts(s, w, reached);
    assert DeadFor(n, a) <==> reached && s.j.attempts[a].phase.error != "" by {
      if DeadFor(n, a) { SettleAddsOwn(s, w, reached); }
    }
    assert AckedFor(n, a) <==> reached && s.j.attempts[a].phase.error == "" by {
      if AckedFor(n, a) { SettleAddsOwn(s, w, reached); }
    }
    VerdictLasts(n, ls, t, a);
  }

  /** While both sides hold the session the call can always be made, and can always arrive. */
  lemma SettleCanArrive(width: nat, enabled: bool, disk: A.Disk, ls: seq<Label>, t: State, w: nat)
    requires Reached(width, enabled, disk, ls, t) && w < |t.d.workers| && t.d.workers[w].Busy?
    requires var a := t.d.workers[w].attempt; a < |t.j.attempts| ==> t.j.attempts[a].phase.Ended?
    requires var session := t.d.workers[w].copy.slot.session;
             t.d.link == Some(session) && session in t.d.broker.open
    ensures Enabled(t, Settle(w, true)) && Enabled(t, Settle(w, false))
  {
    ReachedInv(width, enabled, disk, ls, t);
    BusyIsUnsettled(t.d, w);
  }

  /** The same for a delivery that the consumer still holds when the shutdown begins. */
  lemma HandBackCanArrive(width: nat, enabled: bool, disk: A.Disk, ls: seq<Label>, t: State)
    requires Reached(width, enabled, disk, ls, t) && t.d.consumer.Handing? && !t.d.main.Serving?
    requires var session := t.d.consumer.copy.slot.session;
             t.d.link == Some(session) && session in t.d.broker.open
    ensures Enabled(t, Fetch(D.HandBack(true))) && Enabled(t, Fetch(D.HandBack(false)))
  {
    ReachedInv(width, enabled, disk, ls, t);
  }

  /** The broker can push any ready message over any session with a consumer and room in its window. */
  lemma ReadyCanBePushed(width: nat, enabled: bool, disk: A.Disk, ls: seq<Label>, t: State, n: nat, m: nat)
    requires Reached(width, enabled, disk, ls, t) && m in t.d.broker.ready
    requires n in t.d.broker.open && n in t.d.broker.consuming && |D.InSession(t.d.broker, n)| < width
    ensures Enabled(t, Net(D.Deliver(n, m)))
  {
    ReachedInv(width, enabled, disk, ls, t);
  }

  /** What has been received goes on: to the consumer's hand, to a free slot of the channel, to an idle
      worker; and a worker can always report its result. */
  lemma NothingGetsStuck(width: nat, enabled: bool, disk: A.Disk, ls: seq<Label>, t: State)
    requires Reached(width, enabled, disk, ls, t)
    ensures t.d.consumer.Receiving? && t.d.stream != [] ==> Enabled(t, Fetch(D.Receive))
    ensures t.d.consumer.Handing? && |t.d.channel| < width ==> Enabled(t, Fetch(D.Handoff))
    ensures t.d.channel != [] ==>
              forall w | 0 <= w < |t.d.workers| && t.d.workers[w].Idle? :: Enabled(t, Take(w))
    ensures forall w | 0 <= w < |t.d.workers| && t.d.workers[w].Sending? :: Enabled(t, SendResult(w))
  {
    ReachedInv(width, enabled, disk, ls, t);
    forall w | 0 <= w < |t.d.workers| && t.d.workers[w].Idle? && t.d.channel != [] ensures Enabled(t, Take(w)) {
      assert DI.At(t.d, DI.InChannel(0)).Some?;
      assert DI.Genuine(t.d.broker, t.d.channel[0]);
    }
  }

  /** While a worker is busy nothing has been settled for its attempt. */
  lemma NothingForUnsettled(s: State, w: nat)
    requires Inv(s) && w < |s.d.workers| && s.d.workers[w].Busy?
    ensures !DeadFor(s, s.d.workers[w].attempt) && !AckedFor(s, s.d.workers[w].attempt)
  {
    assert DI.WorkerMatchesLog(s.d, w);
    forall m | m in s.d.broker.dead ensures s.d.broker.dead[m] != s.d.workers[w].attempt {
      assert SettledFor(s, m, s.d.broker.dead[m], false);
    }
    forall m | m in s.d.broker.acked ensures s.d.broker.acked[m] != s.d.workers[w].attempt {
      assert SettledFor(s, m, s.d.broker.acked[m], true);
    }
  }

  lemma SettleCounts(s: State, w: nat, reached: bool)
    requires Inv(s) && Enabled(s, Settle(w, reached))
    ensures var a := s.d.workers[w].attempt; var n := Next(s, Settle(w, reached)).d;
            a < |n.log| && n.log[a].settles > 0
  {
    assert DI.WorkerMatchesLog(s.d, w);
  }

  lemma SettleAddsOwn(s: State, w: nat, reached: bool)
    requires Inv(s) && Enabled(s, Settle(w, reached))
    ensures var b := s.d.broker; var n := Next(s, Settle(w, reached)).d.broker;
            var ok := s.j.attempts[s.d.workers[w].attempt].phase == A.Ended("");
            && ((reached && ok) || n.acked == b.acked) && ((reached && !ok) || n.dead == b.dead)
  {
  }

  /** Once an attempt's settle call has been made, no later step settles anything for it. */
  lemma {:induction false} VerdictLasts(s: State, ls: seq<Label>, t: State, a: nat)
    requires Inv(s) && Runs(s, ls, t) && a < |s.d.log| && s.d.log[a].settles > 0
    ensures (DeadFor(t, a) <==> DeadFor(s, a)) && (AckedFor(t, a) <==> AckedFor(s, a))
    decreases |ls|
  {
    if ls != [] {
      StepInv(s, ls[0]);
      StepExtends(s, ls[0]);
      StepKeepsVerdict(s, ls[0], a);
      VerdictLasts(Next(s, ls[0]), ls[1..], t, a);
    }
  }

  lemma StepKeepsVerdict(s: State, l: Label, a: nat)
    requires Inv(s) && Enabled(s, l) && a < |s.d.log| && s.d.log[a].settles > 0
    ensures (DeadFor(Next(s, l), a) <==> DeadFor(s, a)) && (AckedFor(Next(s, l), a) <==> AckedFor(s, a))
  {
    var b, n := s.d.broker, Next(s, l).d.broker;
    forall m | m in n.dead && n.dead[m] == a ensures m in b.dead && b.dead[m] == a {
      StepSettlesOther(s, l, m, a);
    }
    forall m | m in n.acked && n.acked[m] == a ensures m in b.acked && b.acked[m] == a {
      StepSettlesOther(s, l, m, a);
    }
    forall m | m in b.dead && b.dead[m] == a ensures m in n.dead && n.dead[m] == a {
      StepKeepsSettled(s, l, m);
    }
    forall m | m in b.acked && b.acked[m] == a ensures m in n.acked && n.acked[m] == a {
      StepKeepsSettled(s, l, m);
    }
  }

  lemma StepSettlesOther(s: State, l: Label, m: nat, a: nat)
    requires Inv(s) && Enabled(s, l) && a < |s.d.log| && s.d.log[a].settles > 0
    ensures var b := s.d.broker; var n := Next(s, l).d.broker;
            && (m in n.dead && n.dead[m] == a ==> m in b.dead && b.dead[m] == a)
            && (m in n.acked && n.acked[m] == a ==> m in b.acked && b.acked[m] == a)
  {
    match l
    case Settle(w, reached) =>
      SettleBroker(s, w, reached);
      BusyIsUnsettled(s.d, w);
      SettledForOne(s.d.broker, s.d.workers[w].copy.slot, s.d.workers[w].attempt,
                    s.j.attempts[s.d.workers[w].attempt].phase == A.Ended(""), m, a);
    case Call(_, _) =>
    case Publish(_) =>
    case Take(_) =>
    case _ => QuietStepSameLog(s, l);
  }

  lemma BusyIsUnsettled(s: D.State, w: nat)
    requires DI.LedgerOk(s) && w < |s.workers| && s.workers[w].Busy?
    ensures s.workers[w].attempt < |s.log| && s.log[s.workers[w].attempt].settles == 0
  {
    assert DI.WorkerMatchesLog(s, w);
  }

  lemma SettledForOne(b: D.Broker, slot: D.Slot, x: nat, ok: bool, m: nat, a: nat)
    requires x != a
    ensures var n := D.Settled(b, slot, x, ok);
            && (m in n.dead && n.dead[m] == a ==> m in b.dead && b.dead[m] == a)
            && (m in n.acked && n.acked[m] == a ==> m in b.acked && b.acked[m] == a)
  {
  }
}
