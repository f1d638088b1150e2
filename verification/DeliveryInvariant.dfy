/** The inductive invariant of the delivery protocol: one predicate a concern, and
    for each party the lemma that its steps keep it. */
module DeliveryInvariant {
  import opened Basics
  import opened Delivery

  // ---------------------------------------------------------------- broker

  /** Message `m` is in exactly one of the four places a message can be at the broker. */
  predicate InOnePlace(b: Broker, m: nat) {
    var held := m in b.unacked.Values;
    && (m in b.ready || held || m in b.acked || m in b.dead)
    && !(m in b.ready && held) && !(m in b.ready && m in b.acked) && !(m in b.ready && m in b.dead)
    && !(held && m in b.acked) && !(held && m in b.dead) && !(m in b.acked && m in b.dead)
  }

  predicate OnlyPublished(b: Broker) {
    && (forall m | m in b.ready :: m < b.published)
    && (forall k | k in b.unacked :: b.unacked[k] < b.published)
    && (forall m | m in b.acked :: m < b.published)
    && (forall m | m in b.dead :: m < b.published)
  }

  predicate TagsOk(b: Broker) {
    && (forall n | n in b.open :: n < |b.tags|)
    && (forall k | k in b.unacked ::
          k.session in b.open && k.session < |b.tags| && k.tag < b.tags[k.session])
  }

  predicate OneSlotEach(b: Broker) {
    forall j, k | j in b.unacked && k in b.unacked && j != k :: b.unacked[j] != b.unacked[k]
  }

  ghost predicate BrokerOk(b: Broker) {
    && (forall m: nat | m < b.published :: InOnePlace(b, m))
    && OnlyPublished(b) && TagsOk(b) && OneSlotEach(b)
  }

  ghost predicate WindowOk(b: Broker, width: nat) {
    forall n: nat :: |InSession(b, n)| <= width
  }

  lemma PublishKeepsBroker(b: Broker)
    requires BrokerOk(b)
    ensures BrokerOk(b.(ready := b.ready + {b.published}, published := b.published + 1))
  {
    var c := b.(ready := b.ready + {b.published}, published := b.published + 1);
    forall x: nat | x < c.published ensures InOnePlace(c, x) {
      assert x < b.published ==> InOnePlace(b, x);
      assert b.published !in b.unacked.Values;
    }
  }

  lemma DeliverKeepsBroker(b: Broker, n: nat, m: nat)
    requires BrokerOk(b) && n in b.open && m in b.ready
    ensures n < |b.tags| && BrokerOk(Delivered(b, n, m))
  {
    var c := Delivered(b, n, m);
    var k := Slot(n, b.tags[n]);
    assert k !in b.unacked;
    assert c.unacked[k] == m;
    assert InOnePlace(b, m);
    forall j | j in b.unacked ensures b.unacked[j] != m {
      assert b.unacked[j] in b.unacked.Values;
    }
    forall x: nat | x < c.published ensures InOnePlace(c, x) {
      assert InOnePlace(b, x);
      if x in b.unacked.Values {
        var j :| j in b.unacked && b.unacked[j] == x;
        assert c.unacked[j] == x;
      }
    }
  }

  lemma RemovalValues(u: map<Slot, nat>, slot: Slot)
    requires slot in u
    requires forall j, k | j in u && k in u && j != k :: u[j] != u[k]
    ensures forall x: nat :: x in (u - {slot}).Values <==> x in u.Values && x != u[slot]
  {
    forall x: nat ensures x in (u - {slot}).Values <==> x in u.Values && x != u[slot] {
      if x in u.Values && x != u[slot] {
        var j :| j in u && u[j] == x;
        assert (u - {slot})[j] == x;
      }
    }
  }

  lemma SettleKeepsBroker(b: Broker, slot: Slot, a: nat, ok: bool)
    requires BrokerOk(b)
    ensures BrokerOk(Settled(b, slot, a, ok)) && BrokerOk(Requeued(b, slot))
  {
    if slot in b.unacked {
      RemovalValues(b.unacked, slot);
      assert b.unacked[slot] in b.unacked.Values;
      forall x: nat | x < b.published
        ensures InOnePlace(Settled(b, slot, a, ok), x) && InOnePlace(Requeued(b, slot), x)
      {
        assert InOnePlace(b, x);
      }
    }
  }

  lemma DropKeepsBroker(b: Broker, n: nat)
    requires BrokerOk(b)
    ensures BrokerOk(Dropped(b, n))
  {
    var c := Dropped(b, n);
    DropValues(b, n);
    forall x: nat | x < c.published ensures InOnePlace(c, x) {
      assert InOnePlace(b, x);
    }
  }

  lemma DropValues(b: Broker, n: nat)
    requires OneSlotEach(b)
    ensures var back := set k | k in InSession(b, n) :: b.unacked[k];
            && back <= b.unacked.Values && Dropped(b, n).ready == b.ready + back
            && forall x: nat :: x in Dropped(b, n).unacked.Values <==> x in b.unacked.Values && x !in back
  {
    var c := Dropped(b, n);
    var back := set k | k in InSession(b, n) :: b.unacked[k];
    forall x: nat ensures x in c.unacked.Values <==> x in b.unacked.Values && x !in back {
      if x in b.unacked.Values && x !in back {
        var j :| j in b.unacked && b.unacked[j] == x;
        assert j !in InSession(b, n);
        assert c.unacked[j] == x;
      }
      if x in c.unacked.Values {
        var j :| j in c.unacked && c.unacked[j] == x;
        assert b.unacked[j] == x;
      }
    }
  }

  lemma SubsetCard<T>(a: set<T>, b: set<T>)
    requires a <= b
    ensures |a| <= |b|
  {
    assert b == a + (b - a);
  }

  /** Whatever does not hand out tags cannot widen a window. */
  lemma ShrinkKeepsWindow(b: Broker, c: Broker, width: nat)
    requires WindowOk(b, width) && c.unacked.Keys <= b.unacked.Keys
    ensures WindowOk(c, width)
  {
    forall n: nat ensures |InSession(c, n)| <= width {
      assert |InSession(b, n)| <= width;
      SubsetCard(InSession(c, n), InSession(b, n));
    }
  }

  lemma DeliverKeepsWindow(b: Broker, n: nat, m: nat, width: nat)
    requires WindowOk(b, width) && n < |b.tags| && |InSession(b, n)| < width
    ensures WindowOk(Delivered(b, n, m), width)
  {
    var c := Delivered(b, n, m);
    forall x: nat ensures |InSession(c, x)| <= width {
      assert |InSession(b, x)| <= width;
      if x == n {
        assert InSession(c, n) == InSession(b, n) + {Slot(n, b.tags[n])};
      } else {
        assert InSession(c, x) == InSession(b, x);
      }
    }
  }

  // ---------------------------------------------------------------- local copies

  /** Where the program can hold a delivery that has not been settled yet. */
  datatype Place = InStream(i: nat) | InHand | InChannel(i: nat) | InWorker(w: nat)

  function At(s: State, p: Place): Option<Copy> {
    match p
    case InStream(i) => if i < |s.stream| then Some(s.stream[i]) else None
    case InHand => if s.consumer.Handing? then Some(s.consumer.copy) else None
    case InChannel(i) => if i < |s.channel| then Some(s.channel[i]) else None
    case InWorker(w) => if w < |s.workers| && s.workers[w].Busy? then Some(s.workers[w].copy) else None
  }

  /** The copy stands for a message the broker holds unacked under that very tag, unless its
      session has ended at the broker. */
  predicate Genuine(b: Broker, c: Copy) {
    && c.msg < b.published
    && c.slot.session < |b.tags| && c.slot.tag < b.tags[c.slot.session]
    && (c.slot.session in b.open ==> c.slot in b.unacked && b.unacked[c.slot] == c.msg)
  }

  ghost predicate CopiesOk(s: State) {
    && (forall p :: At(s, p).Some? ==> Genuine(s.broker, At(s, p).value))
    && (forall p, q | p != q :: At(s, p).Some? && At(s, q).Some? ==> At(s, p).value.slot != At(s, q).value.slot)
  }

  /** It is enough that a step moves copies around without ever duplicating one, and keeps
      those it leaves in place genuine. */
  lemma MovesKeepCopies(s: State, t: State, back: Place -> Place)
    requires CopiesOk(s)
    requires forall p | At(t, p).Some? :: At(s, back(p)) == At(t, p) && Genuine(t.broker, At(t, p).value)
    requires forall p, q | p != q && At(t, p).Some? && At(t, q).Some? :: back(p) != back(q)
    ensures CopiesOk(t)
  {
    forall p, q | p != q && At(t, p).Some? && At(t, q).Some?
      ensures At(t, p).value.slot != At(t, q).value.slot
    {
      assert At(s, back(p)) == At(t, p) && At(s, back(q)) == At(t, q);
    }
  }

  lemma NetKeepsCopies(s: State, l: NetLabel)
    requires BrokerOk(s.broker) && CopiesOk(s) && NetEnabled(s, l)
    ensures CopiesOk(NetNext(s, l))
  {
    var t := NetNext(s, l);
    if l.Deliver? {
      var last := InStream(|s.stream|);
      forall p | At(t, p).Some? && (p != last || t.stream == s.stream) ensures At(s, p) == At(t, p) {
      }
      forall p | At(t, p).Some? ensures Genuine(t.broker, At(t, p).value) {
        assert At(s, p).Some? ==> Genuine(s.broker, At(s, p).value);
      }
      forall p | At(s, p).Some? ensures At(s, p).value.slot != Slot(l.session, s.broker.tags[l.session]) {
        assert Genuine(s.broker, At(s, p).value);
      }
    } else {
      forall p | At(t, p).Some? ensures At(s, p) == At(t, p) && Genuine(t.broker, At(t, p).value) {
        assert Genuine(s.broker, At(s, p).value);
      }
      MovesKeepCopies(s, t, p => p);
    }
  }

  function FetchBack(s: State, l: FetchLabel, p: Place): Place {
    match (l, p)
    case (Receive, InHand) => InStream(0)
    case (Receive, InStream(i)) => InStream(i + 1)
    case (Handoff, InChannel(i)) => if i == |s.channel| then InHand else p
    case _ => p
  }

  lemma FetchKeepsCopies(s: State, l: FetchLabel)
    requires BrokerOk(s.broker) && CopiesOk(s) && FetchEnabled(s, l)
    ensures CopiesOk(FetchNext(s, l))
  {
    var t := FetchNext(s, l);
    forall p | At(t, p).Some?
      ensures At(s, FetchBack(s, l, p)) == At(t, p) && Genuine(t.broker, At(t, p).value)
    {
      FetchMovesCopies(s, l, p);
      FetchKeepsGenuine(s, l, FetchBack(s, l, p));
    }
    MovesKeepCopies(s, t, p => FetchBack(s, l, p));
  }

  lemma FetchMovesCopies(s: State, l: FetchLabel, p: Place)
    requires FetchEnabled(s, l) && At(FetchNext(s, l), p).Some?
    ensures At(s, FetchBack(s, l, p)) == At(FetchNext(s, l), p)
    ensures l.HandBack? ==> FetchBack(s, l, p) != InHand
  {
  }

  lemma FetchKeepsGenuine(s: State, l: FetchLabel, p: Place)
    requires BrokerOk(s.broker) && CopiesOk(s) && FetchEnabled(s, l)
    requires At(s, p).Some? && (l.HandBack? ==> p != InHand)
    ensures Genuine(FetchNext(s, l).broker, At(s, p).value)
  {
    assert Genuine(s.broker, At(s, p).value);
    if l.HandBack? {
      assert At(s, InHand) == Some(s.consumer.copy);
    }
  }

  function WorkBack(l: WorkLabel, w: nat, p: Place): Place {
    match (l, p)
    case (Take, InChannel(i)) => InChannel(i + 1)
    case (Take, InWorker(v)) => if v == w then InChannel(0) else p
    case _ => p
  }

  lemma WorkKeepsCopies(s: State, w: nat, l: WorkLabel)
    requires BrokerOk(s.broker) && CopiesOk(s) && WorkEnabled(s, w, l)
    ensures CopiesOk(WorkNext(s, w, l))
  {
    var t := WorkNext(s, w, l);
    forall p | At(t, p).Some?
      ensures At(s, WorkBack(l, w, p)) == At(t, p) && Genuine(t.broker, At(t, p).value)
    {
      WorkMovesCopies(s, w, l, p);
      WorkKeepsGenuine(s, w, l, WorkBack(l, w, p));
    }
    MovesKeepCopies(s, t, p => WorkBack(l, w, p));
  }

  lemma WorkMovesCopies(s: State, w: nat, l: WorkLabel, p: Place)
    requires WorkEnabled(s, w, l) && At(WorkNext(s, w, l), p).Some?
    ensures At(s, WorkBack(l, w, p)) == At(WorkNext(s, w, l), p)
    ensures l.Settle? ==> WorkBack(l, w, p) != InWorker(w)
  {
  }

  lemma WorkKeepsGenuine(s: State, w: nat, l: WorkLabel, p: Place)
    requires BrokerOk(s.broker) && CopiesOk(s) && WorkEnabled(s, w, l)
    requires At(s, p).Some? && (l.Settle? ==> p != InWorker(w))
    ensures Genuine(WorkNext(s, w, l).broker, At(s, p).value)
  {
    assert Genuine(s.broker, At(s, p).value);
    if l.Settle? {
      assert At(s, InWorker(w)) == Some(s.workers[w].copy);
      SettledKeepsGenuine(s.broker, s.workers[w].copy.slot, s.workers[w].attempt, l.ok, At(s, p).value);
    } else {
      assert WorkNext(s, w, l).broker == s.broker;
    }
  }

  lemma SettledKeepsGenuine(b: Broker, slot: Slot, a: nat, ok: bool, c: Copy)
    requires Genuine(b, c) && c.slot != slot
    ensures Genuine(Settled(b, slot, a, ok), c)
  {
  }

  // ---------------------------------------------------------------- phases of the parties

  /** How far main is says which channels are closed and which goroutines are still there. */
  predicate PhasesOk(s: State) {
    && !s.panicked
    && |s.workers| == s.width
    && |s.channel| <= s.width
    && (s.consumer.Exited? ==> Cancelled(s))
    && (!(s.main.Serving? || s.main.AwaitConsumer?) ==> s.consumer.Exited?)
    && (s.inputClosed <==>
          s.main.AwaitWorkers? || s.main.CloseResults? || s.main.AwaitLogger? || s.main.Stopped? || s.main.Closed?)
    && (s.main.CloseResults? || s.main.AwaitLogger? || s.main.Stopped? || s.main.Closed? ==> AllGone(s))
    && (s.resultsClosed <==> s.main.AwaitLogger? || s.main.Stopped? || s.main.Closed?)
    && (s.loggerDone ==> s.resultsClosed)
    && (s.main.Stopped? || s.main.Closed? ==> s.loggerDone)
    && (forall w | 0 <= w < |s.workers| :: s.workers[w].Gone? ==> s.inputClosed && s.channel == [])
  }

  // ---------------------------------------------------------------- attempts and their results

  predicate WorkerMatchesLog(s: State, w: nat)
    requires w < |s.workers|
  {
    match s.workers[w]
    case Busy(c, a) => a < |s.log| && s.log[a] == Entry(c, w, 0, 0)
    case Sending(a) => a < |s.log| && s.log[a].worker == w && s.log[a].settles == 1 && s.log[a].results == 0
    case _ => true
  }

  /** An entry with an outstanding settlement or result belongs to the worker that took it. */
  predicate EntryMatchesWorker(s: State, a: nat)
    requires a < |s.log|
  {
    var e := s.log[a];
    && e.worker < |s.workers|
    && (match (e.settles, e.results)
        case (0, 0) => s.workers[e.worker] == Busy(e.copy, a)
        case (1, 0) => s.workers[e.worker] == Sending(a)
        case (1, 1) => true
        case _ => false)
  }

  predicate LedgerOk(s: State) {
    && (forall w | 0 <= w < |s.workers| :: WorkerMatchesLog(s, w))
    && (forall a | 0 <= a < |s.log| :: EntryMatchesWorker(s, a))
    && |s.handed| == |s.log| + |s.channel|
    && (forall a | 0 <= a < |s.log| :: s.handed[a] == s.log[a].copy)
    && (forall i | 0 <= i < |s.channel| :: s.handed[|s.log| + i] == s.channel[i])
  }

  /** A party that touches neither workers, nor log, nor what was handed over. */
  lemma SameLedger(s: State, t: State)
    requires LedgerOk(s)
    requires t.workers == s.workers && t.log == s.log && t.handed == s.handed && t.channel == s.channel
    ensures LedgerOk(t)
  {
    forall w | 0 <= w < |s.workers| ensures WorkerMatchesLog(t, w) { assert WorkerMatchesLog(s, w); }
    forall a | 0 <= a < |s.log| ensures EntryMatchesWorker(t, a) { assert EntryMatchesWorker(s, a); }
  }

  lemma HandoffKeepsLedger(s: State)
    requires LedgerOk(s) && FetchEnabled(s, Handoff)
    ensures LedgerOk(FetchNext(s, Handoff))
  {
    var t := FetchNext(s, Handoff);
    forall w | 0 <= w < |s.workers| ensures WorkerMatchesLog(t, w) { assert WorkerMatchesLog(s, w); }
    forall a | 0 <= a < |s.log| ensures EntryMatchesWorker(t, a) { assert EntryMatchesWorker(s, a); }
  }

  lemma WorkKeepsLedger(s: State, w: nat, l: WorkLabel)
    requires LedgerOk(s) && PhasesOk(s) && WorkEnabled(s, w, l)
    ensures LedgerOk(WorkNext(s, w, l))
  {
    var t := WorkNext(s, w, l);
    forall v | 0 <= v < |t.workers| ensures WorkerMatchesLog(t, v) {
      WorkKeepsMatch(s, w, l, v);
    }
    forall a | 0 <= a < |t.log| ensures EntryMatchesWorker(t, a) {
      WorkKeepsEntry(s, w, l, a);
    }
  }

  lemma WorkKeepsMatch(s: State, w: nat, l: WorkLabel, v: nat)
    requires LedgerOk(s) && PhasesOk(s) && WorkEnabled(s, w, l) && v < |s.workers|
    ensures |WorkNext(s, w, l).workers| == |s.workers| && WorkerMatchesLog(WorkNext(s, w, l), v)
  {
    assert WorkerMatchesLog(s, v) && WorkerMatchesLog(s, w);
  }

  lemma WorkKeepsEntry(s: State, w: nat, l: WorkLabel, a: nat)
    requires LedgerOk(s) && PhasesOk(s) && WorkEnabled(s, w, l) && a < |WorkNext(s, w, l).log|
    ensures EntryMatchesWorker(WorkNext(s, w, l), a)
  {
    assert WorkerMatchesLog(s, w);
    assert a < |s.log| ==> EntryMatchesWorker(s, a);
  }

  // ---------------------------------------------------------------- duplicates

  function Msgs(cs: seq<Copy>): seq<nat> {
    seq(|cs|, i requires 0 <= i < |cs| => cs[i].msg)
  }

  /** How often each message occurs among some copies. */
  function Tally(cs: seq<Copy>): multiset<nat> { multiset(Msgs(cs)) }

  lemma TallyCount(cs: seq<Copy>, c: Copy, m: nat)
    ensures Tally(cs + [c])[m] == Tally(cs)[m] + (if c.msg == m then 1 else 0)
    ensures Tally([c] + cs)[m] == Tally(cs)[m] + (if c.msg == m then 1 else 0)
  {
    assert Msgs(cs + [c]) == Msgs(cs) + [c.msg];
    assert Msgs([c] + cs) == [c.msg] + Msgs(cs);
  }

  function InHandTally(s: State): multiset<nat> {
    if s.consumer.Handing? then multiset{s.consumer.copy.msg} else multiset{}
  }

  /** Handing a message to a worker uses up one credit; a message starts with one credit
      and earns another each time a session ends while it is unacked. */
  function Spent(s: State, m: nat): nat {
    Tally(s.handed)[m] + Tally(s.stream)[m] + InHandTally(s)[m] + (if m in s.broker.ready then 1 else 0)
  }

  function Credit(b: Broker, m: nat): nat {
    (if m < b.published then 1 else 0) + b.lost[m]
  }

  ghost predicate BoundOk(s: State) {
    forall m: nat :: Spent(s, m) <= Credit(s.broker, m)
  }

  lemma NetKeepsBound(s: State, l: NetLabel)
    requires BrokerOk(s.broker) && BoundOk(s) && NetEnabled(s, l)
    ensures BoundOk(NetNext(s, l))
  {
    forall m: nat ensures Spent(NetNext(s, l), m) <= Credit(NetNext(s, l).broker, m) {
      assert Spent(s, m) <= Credit(s.broker, m);
      match l
      case Deliver(n, x) => DeliverSpends(s, n, x, m);
      case Drop(n) => DropCredits(s.broker, n, m);
      case Publish =>
      case Sever =>
    }
  }

  lemma DeliverSpends(s: State, n: nat, x: nat, m: nat)
    requires NetEnabled(s, Deliver(n, x))
    ensures Spent(NetNext(s, Deliver(n, x)), m) <= Spent(s, m)
  {
    var t := NetNext(s, Deliver(n, x));
    var c := Copy(x, Slot(n, s.broker.tags[n]));
    assert t.handed == s.handed && t.consumer == s.consumer && t.broker.ready == s.broker.ready - {x};
    TallyCount(s.stream, c, m);
    assert t.stream == s.stream || t.stream == s.stream + [c];
  }

  /** A message that becomes ready again because its session ended earns the credit it needs. */
  lemma DropCredits(b: Broker, n: nat, m: nat)
    requires BrokerOk(b)
    ensures m in Dropped(b, n).ready && m !in b.ready ==> Dropped(b, n).lost[m] == b.lost[m] + 1
    ensures Dropped(b, n).lost[m] >= b.lost[m]
  {
    var back := set k | k in InSession(b, n) :: b.unacked[k];
    var again: multiset<nat> := multiset(back);
    assert again[m] == if m in back then 1 else 0;
  }

  lemma FetchKeepsBound(s: State, l: FetchLabel)
    requires BrokerOk(s.broker) && CopiesOk(s) && BoundOk(s) && FetchEnabled(s, l)
    ensures BoundOk(FetchNext(s, l))
  {
    FetchKeepsCredit(s, l);
    forall m: nat ensures Spent(FetchNext(s, l), m) <= Credit(FetchNext(s, l).broker, m) {
      assert Spent(s, m) <= Credit(s.broker, m);
      match l
      case Receive => ReceiveSpends(s, m);
      case Handoff => HandoffSpends(s, m);
      case HandBack(_) => HandBackSpends(s, l, m);
      case _ => DropStreamSpends(s, l, m);
    }
  }

  lemma FetchKeepsCredit(s: State, l: FetchLabel)
    requires FetchEnabled(s, l)
    ensures var b := FetchNext(s, l).broker; b.published == s.broker.published && b.lost == s.broker.lost
  {
  }

  lemma ReceiveSpends(s: State, m: nat)
    requires FetchEnabled(s, Receive)
    ensures Spent(FetchNext(s, Receive), m) == Spent(s, m)
  {
    assert s.stream == [s.stream[0]] + s.stream[1..];
    TallyCount(s.stream[1..], s.stream[0], m);
  }

  lemma HandoffSpends(s: State, m: nat)
    requires FetchEnabled(s, Handoff)
    ensures Spent(FetchNext(s, Handoff), m) <= Spent(s, m)
  {
    TallyCount(s.handed, s.consumer.copy, m);
  }

  lemma HandBackSpends(s: State, l: FetchLabel, m: nat)
    requires BrokerOk(s.broker) && CopiesOk(s) && FetchEnabled(s, l) && l.HandBack?
    ensures Spent(FetchNext(s, l), m) <= Spent(s, m)
  {
    var c := s.consumer.copy;
    assert At(s, InHand) == Some(c);
    if l.reached {
      assert s.broker.unacked[c.slot] in s.broker.unacked.Values;
      assert InOnePlace(s.broker, c.msg);
    }
  }

  lemma DropStreamSpends(s: State, l: FetchLabel, m: nat)
    requires FetchEnabled(s, l) && !l.Receive? && !l.Handoff? && !l.HandBack?
    ensures Spent(FetchNext(s, l), m) <= Spent(s, m)
  {
    OthersOnlyDrop(s, l);
    assert Tally([])[m] == 0;
  }

  /** The other steps of the consumer take nothing in hand and hand nothing over. */
  lemma OthersOnlyDrop(s: State, l: FetchLabel)
    requires FetchEnabled(s, l) && !l.Receive? && !l.Handoff? && !l.HandBack?
    ensures var t := FetchNext(s, l);
            && t.handed == s.handed && t.broker.ready == s.broker.ready && !t.consumer.Handing?
            && (t.stream == s.stream || t.stream == [])
  {
  }

  lemma SameSpending(s: State, t: State)
    requires BoundOk(s)
    requires t.handed == s.handed && t.stream == s.stream && t.consumer == s.consumer
    requires t.broker.ready == s.broker.ready && t.broker.published == s.broker.published && t.broker.lost == s.broker.lost
    ensures BoundOk(t)
  {
    forall m: nat ensures Spent(t, m) <= Credit(t.broker, m) {
      assert Spent(s, m) <= Credit(s.broker, m);
    }
  }

  // ---------------------------------------------------------------- all of it

  ghost predicate Inv(s: State) {
    && BrokerOk(s.broker) && WindowOk(s.broker, s.width)
    && CopiesOk(s) && PhasesOk(s) && LedgerOk(s) && BoundOk(s)
  }

  lemma InitInv(width: nat)
    ensures Inv(Init(width))
  {
    var s := Init(width);
    assert forall n: nat :: InSession(s.broker, n) == {};
    assert Msgs([]) == [];
    assert forall m: nat :: Spent(s, m) == 0;
  }

  lemma NetInv(s: State, l: NetLabel)
    requires Inv(s) && NetEnabled(s, l)
    ensures Inv(NetNext(s, l))
  {
    var b, t := s.broker, NetNext(s, l);
    match l {
      case Publish => PublishKeepsBroker(b); ShrinkKeepsWindow(b, t.broker, s.width);
      case Deliver(n, m) => DeliverKeepsBroker(b, n, m); DeliverKeepsWindow(b, n, m, s.width);
      case Drop(n) => DropKeepsBroker(b, n); ShrinkKeepsWindow(b, t.broker, s.width);
      case Sever =>
    }
    NetKeepsCopies(s, l);
    SameLedger(s, t);
    NetKeepsBound(s, l);
  }

  lemma FetchInv(s: State, l: FetchLabel)
    requires Inv(s) && FetchEnabled(s, l)
    ensures Inv(FetchNext(s, l))
  {
    FetchKeepsBroker(s, l);
    FetchKeepsCopies(s, l);
    FetchKeepsPhases(s, l);
    if l.Handoff? { HandoffKeepsLedger(s); } else { SameLedger(s, FetchNext(s, l)); }
    FetchKeepsBound(s, l);
  }

  lemma FetchKeepsBroker(s: State, l: FetchLabel)
    requires BrokerOk(s.broker) && WindowOk(s.broker, s.width) && FetchEnabled(s, l)
    ensures BrokerOk(FetchNext(s, l).broker) && WindowOk(FetchNext(s, l).broker, s.width)
  {
    var b, t := s.broker, FetchNext(s, l);
    match l
    case HandBack(_) =>
      SettleKeepsBroker(b, s.consumer.copy.slot, 0, true);
      ShrinkKeepsWindow(b, t.broker, s.width);
    case Subscribe(_, _) => SessionsKeepBroker(b, t.broker, s.width);
    case Redial(_) => SessionsKeepBroker(b, t.broker, s.width);
    case _ =>
  }

  /** Opening a session and registering a consumer move no message. */
  lemma SessionsKeepBroker(b: Broker, c: Broker, width: nat)
    requires BrokerOk(b) && WindowOk(b, width)
    requires c.ready == b.ready && c.unacked == b.unacked && c.acked == b.acked && c.dead == b.dead
    requires c.published == b.published && b.tags <= c.tags && b.open <= c.open
    requires forall n | n in c.open :: n < |c.tags|
    ensures BrokerOk(c) && WindowOk(c, width)
  {
    forall x: nat | x < c.published ensures InOnePlace(c, x) {
      assert InOnePlace(b, x);
    }
    ShrinkKeepsWindow(b, c, width);
  }

  lemma FetchKeepsPhases(s: State, l: FetchLabel)
    requires PhasesOk(s) && FetchEnabled(s, l)
    ensures PhasesOk(FetchNext(s, l))
  {
  }

  lemma WorkInv(s: State, w: nat, l: WorkLabel)
    requires Inv(s) && WorkEnabled(s, w, l)
    ensures Inv(WorkNext(s, w, l))
  {
    var t := WorkNext(s, w, l);
    if l.Settle? {
      SettleKeepsBroker(s.broker, s.workers[w].copy.slot, s.workers[w].attempt, l.ok);
    }
    ShrinkKeepsWindow(s.broker, t.broker, s.width);
    WorkKeepsCopies(s, w, l);
    WorkKeepsPhases(s, w, l);
    WorkKeepsLedger(s, w, l);
    SameSpending(s, t);
  }

  lemma WorkKeepsPhases(s: State, w: nat, l: WorkLabel)
    requires PhasesOk(s) && WorkEnabled(s, w, l)
    ensures PhasesOk(WorkNext(s, w, l))
  {
  }

  lemma ControlInv(s: State, l: ControlLabel)
    requires Inv(s) && ControlEnabled(s, l)
    ensures Inv(ControlNext(s, l))
  {
    var t := ControlNext(s, l);
    forall p ensures At(t, p) == At(s, p) {}
    MovesKeepCopies(s, t, p => p);
    ControlKeepsPhases(s, l);
    SameLedger(s, t);
    SameSpending(s, t);
  }

  lemma ControlKeepsPhases(s: State, l: ControlLabel)
    requires PhasesOk(s) && ControlEnabled(s, l)
    ensures PhasesOk(ControlNext(s, l))
  {
  }

  lemma StepInv(s: State, l: Label)
    requires Inv(s) && Enabled(s, l)
    ensures Inv(Next(s, l))
  {
    match l
    case Net(n) => NetInv(s, n);
    case Fetch(f) => FetchInv(s, f);
    case Work(w, k) => WorkInv(s, w, k);
    case Control(c) => ControlInv(s, c);
  }
}
