/** What every run of the MPMCQueue step system keeps, and what follows from it. */
module MPMCQueueProof {
  import opened Common
  import opened QueueLayout
  import opened TurnWord
  import opened MPMCQueue

  // ---------------------------------------------------------- the invariant

  /** What a thread that owns a ticket may rely on. */
  ghost predicate BusyOk<T>(l: Layout, s: State<T>, pc: PC<T>)
    requires pc.Busy?
  {
    && pc.ticket < Counter(s, pc.role)
    && (pc.role.Push? <==> pc.val.Some?)
    && (pc.role.Push? ==> pc.val.value == s.pushLog[pc.ticket].val)
    && l.slotOf(pc.ticket) < |s.slots|
    && PhaseOk(pc.ready, pc.phase, s.slots[l.slotOf(pc.ticket)], Turn(l, pc.role, pc.ticket))
  }

  ghost predicate PhaseOk<T>(ready: bool, phase: Phase, slot: Slot<T>, turn: nat) {
    && slot.turn <= turn
    && (ready ==> slot.turn == turn)
    && (slot.turn == turn && slot.touched ==> phase.Leave? || phase.LeaveCas?)
    && match phase
       case Top => true
       case Seen(word, at) => !ready && SawOk(word, at, slot.turn, turn)
       case Sleep(word, at) =>
         !ready && SawOk(word, at, slot.turn, turn) && DecodeDelta(word) >= if turn - at < MASK then turn - at else MASK
       case Asleep => !ready
       case Inside => slot.turn == turn && !slot.touched
       case Leave => slot.turn == turn && slot.touched
       case LeaveCas(word) => slot.turn == turn && slot.touched && Shows(word, turn)
  }

  /** A remembered word shows a turn passed since, and close enough to be unambiguous. */
  ghost predicate SawOk(word: nat, at: nat, now: nat, turn: nat) {
    at <= now && at < turn < at + TURNS && Shows(word, at)
  }

  /** What a thread without a ticket may rely on. */
  ghost predicate TryOk<T>(l: Layout, s: State<T>, pc: PC<T>) {
    match pc
    case TryReady(role, val, ticket) =>
      (role.Push? <==> val.Some?) && ticket <= Counter(s, role)
    case RecheckReady(role, val, ticket, seen, wasTurn) =>
      (role.Push? <==> val.Some?) && ticket <= seen <= Counter(s, role) && (seen == ticket ==> !wasTurn)
    case CasReady(role, val, ticket) =>
      && (role.Push? <==> val.Some?) && ticket <= Counter(s, role) && l.slotOf(ticket) < |s.slots|
      && (ticket == Counter(s, role) ==> s.slots[l.slotOf(ticket)].turn == Turn(l, role, ticket))
    case TryPromised(role, val, mine) =>
      (role.Push? <==> val.Some?) && mine <= Counter(s, role)
    case CasPromised(role, val, mine, other) =>
      && (role.Push? <==> val.Some?) && mine <= Counter(s, role)
      && (role.Push? ==> other <= |s.popLog| && mine - other < l.capacity)
      && (role.Pop? ==> mine < other <= |s.pushLog|)
    case SizeB(pushes) => pushes <= |s.pushLog|
    case SizeC(pushes, pops, seen) => pushes <= seen <= |s.pushLog| && pops <= |s.popLog|
    case SizeD(pushes, pops, seen) => pops <= seen <= |s.popLog| && pushes <= |s.pushLog|
    case Wake(slot, _) => slot < |s.slots|
    case _ => true
  }

  ghost predicate ThreadsOk<T>(l: Layout, s: State<T>) {
    forall i | 0 <= i < |s.threads| ::
      TryOk(l, s, s.threads[i]) && (s.threads[i].Busy? ==> BusyOk(l, s, s.threads[i]))
  }

  /** A ticket belongs to the thread it was issued to. */
  ghost predicate OwnsTicket<T>(s: State<T>, i: nat, role: Role, ticket: nat) {
    i < |s.threads| && s.threads[i].Busy? && s.threads[i].role == role && s.threads[i].ticket == ticket
  }

  ghost predicate OwnershipOk<T>(s: State<T>) {
    forall i | 0 <= i < |s.threads| && s.threads[i].Busy? ::
      && s.threads[i].ticket < Counter(s, s.threads[i].role)
      && Owner(s, s.threads[i].role, s.threads[i].ticket) == i
  }

  /** A ticket whose turn is not over is still in its owner's hands. */
  ghost predicate TicketOk<T>(l: Layout, s: State<T>, role: Role, ticket: nat)
    requires |s.slots| == l.capacity && l.Good()
  {
    ticket < Counter(s, role) && Turn(l, role, ticket) >= s.slots[l.slotOf(ticket)].turn
    ==> OwnsTicket(s, Owner(s, role, ticket), role, ticket)
  }

  ghost predicate TicketsOk<T>(l: Layout, s: State<T>)
    requires |s.slots| == l.capacity && l.Good()
  {
    forall role: Role, t: nat {:trigger Turn(l, role, t)} :: TicketOk(l, s, role, t)
  }

  /** The storage access of this ticket's turn is in the past. */
  ghost predicate Passed<T>(l: Layout, s: State<T>, role: Role, t: nat)
    requires |s.slots| == l.capacity && l.Good()
  {
    var slot := s.slots[l.slotOf(t)];
    Turn(l, role, t) < slot.turn || (Turn(l, role, t) == slot.turn && slot.touched)
  }

  /** Only issued tickets have had their access. */
  ghost predicate IssuedOk<T>(l: Layout, s: State<T>)
    requires |s.slots| == l.capacity && l.Good()
  {
    forall role: Role, t: nat {:trigger Turn(l, role, t)} :: Passed(l, s, role, t) ==> t < Counter(s, role)
  }

  /** Odd turns hold the element of the push turn before; touching flips that. */
  ghost predicate SlotOk<T>(l: Layout, s: State<T>, j: nat)
    requires j < |s.slots|
  {
    var slot := s.slots[j];
    && Shows(slot.word, slot.turn)
    && (slot.item.Some? <==> (slot.turn % 2 == 1) != slot.touched)
    && (slot.item.Some? ==>
          forall t: nat {:trigger l.slotOf(t)} :: t < |s.pushLog| && l.slotOf(t) == j && l.lapOf(t) == slot.turn / 2 ==>
            slot.item.value == s.pushLog[t].val)
  }

  ghost predicate SlotsOk<T>(l: Layout, s: State<T>) {
    forall j | 0 <= j < |s.slots| :: SlotOk(l, s, j)
  }

  ghost predicate DeliveredOk<T>(l: Layout, s: State<T>)
    requires |s.slots| == l.capacity && l.Good()
  {
    && (forall t: nat {:trigger Turn(l, Pop, t)} :: t in s.delivered <==> Passed(l, s, Pop, t))
    && (forall t: nat | t in s.delivered :: t < |s.pushLog| && s.delivered[t] == s.pushLog[t].val)
  }

  predicate IsWake<T>(pc: PC<T>, slot: nat, channel: nat) {
    pc.Wake? && pc.slot == slot && Channel(pc.turn) == channel
  }

  ghost predicate WakeInFlight<T>(s: State<T>, slot: nat, channel: nat) {
    exists k :: 0 <= k < |s.threads| && IsWake(s.threads[k], slot, channel)
  }

  /** How many turns until the next one on the same wake channel. */
  function Distance(now: nat, turn: nat): nat
    requires now < turn
  {
    (turn - now - 1) % 32 + 1
  }

  /** A sleeper is recorded far enough ahead, or its wake is on the way. */
  ghost predicate SleeperOk<T>(l: Layout, s: State<T>, pc: PC<T>)
    requires pc.Busy? && l.slotOf(pc.ticket) < |s.slots|
  {
    var slot := s.slots[l.slotOf(pc.ticket)];
    var turn := Turn(l, pc.role, pc.ticket);
    || WakeInFlight(s, l.slotOf(pc.ticket), Channel(turn))
    || (slot.turn < turn && DecodeDelta(slot.word) >= Distance(slot.turn, turn))
  }

  ghost predicate SleepersOk<T>(l: Layout, s: State<T>)
    requires |s.slots| == l.capacity && l.Good()
  {
    forall i | 0 <= i < |s.threads| && s.threads[i].Busy? && s.threads[i].phase.Asleep? ::
      SleeperOk(l, s, s.threads[i])
  }

  ghost predicate Inv<T>(l: Layout, s: State<T>) {
    && l.Good() && l.Periodic()
    && |s.threads| < MAX_THREADS
    && |s.slots| == l.capacity
    && ThreadsOk(l, s) && OwnershipOk(s) && TicketsOk(l, s) && IssuedOk(l, s)
    && SlotsOk(l, s) && DeliveredOk(l, s) && SleepersOk(l, s)
  }

  lemma InitInv<T>(l: Layout, s: State<T>)
    requires l.Good() && l.Periodic() && Init(l, s)
    ensures Inv(l, s)
  {
    SturnForm(0);
    assert |s.pushLog| == 0 && |s.popLog| == 0;
    forall role: Role, t: nat ensures TicketOk(l, s, role, t) {
      assert !(t < Counter(s, role));
    }
    forall role: Role, t: nat ensures !Passed(l, s, role, t) {
      assert s.slots[l.slotOf(t)] == Slot(0, None, 0, false);
    }
  }

  // -------------------------------------- how far apart turns can ever be

  /** The owners of the last n issued tickets of ticket t's slot, t included. */
  ghost function Owners<T>(l: Layout, s: State<T>, role: Role, t: nat, n: nat): set<nat>
    requires l.Good() && l.Periodic() && t < Counter(s, role) && 1 <= n <= l.lapOf(t) + 1
    decreases n
  {
    {Owner(s, role, t)} + if n == 1 then {} else Owners(l, s, role, l.Prev(t), n - 1)
  }

  /** While the slot has not passed the oldest of them, all those owners are distinct. */
  lemma OwnersDistinct<T>(l: Layout, s: State<T>, role: Role, t: nat, n: nat)
    requires l.Good() && l.Periodic() && |s.slots| == l.capacity && TicketsOk(l, s)
    requires t < Counter(s, role) && 1 <= n <= l.lapOf(t) + 1
    requires s.slots[l.slotOf(t)].turn + 2 * (n - 1) <= Turn(l, role, t)
    ensures |Owners(l, s, role, t, n)| == n
    ensures forall i | i in Owners(l, s, role, t, n) ::
              i < |s.threads| && s.threads[i].Busy? && s.threads[i].role == role && s.threads[i].ticket <= t
    decreases n
  {
    assert TicketOk(l, s, role, t);
    if n > 1 {
      var t' := l.Prev(t);
      assert Turn(l, role, t') == Turn(l, role, t) - 2;
      OwnersDistinct(l, s, role, t', n - 1);
      assert OwnsTicket(s, Owner(s, role, t), role, t) && t' < t;
      OneMore(Owner(s, role, t), Owners(l, s, role, t', n - 1));
    }
  }

  lemma OneMore(x: nat, rest: set<nat>)
    requires x !in rest
    ensures |{x} + rest| == |rest| + 1
  {
  }

  lemma BoundedSet(xs: set<nat>, n: nat)
    requires forall x | x in xs :: x < n
    ensures |xs| <= n
  {
    if n == 0 {
      assert xs == {};
    } else {
      BoundedSet(xs - {n - 1}, n - 1);
      if n - 1 in xs {
        assert |xs| == |xs - {n - 1}| + 1;
      } else {
        assert xs - {n - 1} == xs;
      }
    }
  }

  /** Every issued, unfinished turn lies within twice the number of threads of its
      slot's current turn. */
  lemma TurnsStayClose<T>(l: Layout, s: State<T>, role: Role, t: nat)
    requires Inv(l, s) && t < Counter(s, role)
    requires s.slots[l.slotOf(t)].turn <= Turn(l, role, t)
    ensures Turn(l, role, t) - s.slots[l.slotOf(t)].turn < 2 * |s.threads|
  {
    var gap := Turn(l, role, t) - s.slots[l.slotOf(t)].turn;
    var n := gap / 2 + 1;
    OwnersDistinct(l, s, role, t, n);
    BoundedSet(Owners(l, s, role, t, n), |s.threads|);
  }

  /** The same for the next ticket nobody holds yet. */
  lemma NextTicketStaysClose<T>(l: Layout, s: State<T>, role: Role)
    requires Inv(l, s)
    ensures var t := Counter(s, role);
            s.slots[l.slotOf(t)].turn <= Turn(l, role, t) < s.slots[l.slotOf(t)].turn + TURNS / 2
  {
    var t := Counter(s, role);
    var now := s.slots[l.slotOf(t)].turn;
    assert !(Turn(l, role, t) < now);
    if t >= l.capacity {
      var t' := l.Prev(t);
      assert l.slotOf(t') == l.slotOf(t) && l.lapOf(t') + 1 == l.lapOf(t);
      if now <= Turn(l, role, t') {
        TurnsStayClose(l, s, role, t');
      }
    } else {
      assert l.lapOf(t) == 0;
    }
  }

  // --------------------------------------------------- each step keeps it

  ghost predicate SameTicket<T>(a: PC<T>, b: PC<T>) {
    && (a.Busy? <==> b.Busy?)
    && (a.Busy? ==> a.role == b.role && a.ticket == b.ticket)
  }

  /** A step that only moves one thread's program counter. */
  lemma LocalStep<T>(l: Layout, s: State<T>, i: nat, pc: PC<T>)
    requires Inv(l, s) && i < |s.threads| && !s.threads[i].Wake?
    requires SameTicket(s.threads[i], pc) && TryOk(l, s, pc) && (pc.Busy? ==> BusyOk(l, s, pc))
    requires pc.Busy? && pc.phase.Asleep? ==> SleeperOk(l, s, pc)
    ensures Inv(l, Goto(s, i, pc))
  {
    var s' := Goto(s, i, pc);
    forall role: Role, t: nat ensures TicketOk(l, s', role, t) {
      assert TicketOk(l, s, role, t);
    }
    SharedUnchanged(l, s, s');
    SleepersSurvive(l, s, s', i);
  }

  /** What is said about slots, logs and deliveries does not mention the threads. */
  lemma SharedUnchanged<T>(l: Layout, s: State<T>, s': State<T>)
    requires Inv(l, s) && s' == s.(threads := s'.threads)
    ensures IssuedOk(l, s') && SlotsOk(l, s') && DeliveredOk(l, s')
  {
    forall role: Role, t: nat ensures Passed(l, s', role, t) == Passed(l, s, role, t)
    {}
    forall j | 0 <= j < |s'.slots| ensures SlotOk(l, s', j) {
      assert SlotOk(l, s, j);
    }
  }

  /** Sleepers only need the wakers and the words to stay. */
  lemma SleepersSurvive<T>(l: Layout, s: State<T>, s': State<T>, i: nat)
    requires Inv(l, s) && i < |s.threads| == |s'.threads| && !s.threads[i].Wake?
    requires |s'.slots| == |s.slots|
    requires forall j | 0 <= j < |s.slots| ::
               s'.slots[j].turn == s.slots[j].turn && DecodeDelta(s'.slots[j].word) >= DecodeDelta(s.slots[j].word)
    requires forall k | 0 <= k < |s.threads| && k != i :: s'.threads[k] == s.threads[k]
    requires var pc := s'.threads[i]; pc.Busy? && pc.phase.Asleep? ==>
               l.slotOf(pc.ticket) < |s.slots| && SleeperOk(l, s, pc)
    ensures SleepersOk(l, s')
  {
    forall k | 0 <= k < |s'.threads| && s'.threads[k].Busy? && s'.threads[k].phase.Asleep?
      ensures SleeperOk(l, s', s'.threads[k])
    {
      var pc := s'.threads[k];
      assert SleeperOk(l, s, pc);
      var j, channel := l.slotOf(pc.ticket), Channel(Turn(l, pc.role, pc.ticket));
      if WakeInFlight(s, j, channel) {
        var w :| 0 <= w < |s.threads| && IsWake(s.threads[w], j, channel);
        assert IsWake(s'.threads[w], j, channel);
      }
    }
  }

  ghost predicate PcOk<T>(l: Layout, s: State<T>, pc: PC<T>) {
    TryOk(l, s, pc) && (pc.Busy? ==> BusyOk(l, s, pc))
  }

  /** Logs grow, turns stay; words, items and touches may change. */
  ghost predicate Undisturbed<T>(s: State<T>, s': State<T>) {
    && |s'.slots| == |s.slots|
    && (forall j | 0 <= j < |s.slots| :: s'.slots[j].turn == s.slots[j].turn)
    && s.pushLog <= s'.pushLog && |s.popLog| <= |s'.popLog|
  }

  lemma BusyUndisturbed<T>(l: Layout, s: State<T>, s': State<T>, pc: PC<T>)
    requires pc.Busy? && BusyOk(l, s, pc) && Undisturbed(s, s')
    requires var j := l.slotOf(pc.ticket);
             s'.slots[j].touched == s.slots[j].touched || s.slots[j].turn != Turn(l, pc.role, pc.ticket)
    ensures BusyOk(l, s', pc)
  {
    if pc.role.Push? {
      assert s'.pushLog[pc.ticket] == s.pushLog[pc.ticket];
    }
    var j := l.slotOf(pc.ticket);
    PhaseUndisturbed(pc.ready, pc.phase, s.slots[j], s'.slots[j], Turn(l, pc.role, pc.ticket));
  }

  lemma PhaseUndisturbed<T>(ready: bool, phase: Phase, slot: Slot<T>, slot': Slot<T>, turn: nat)
    requires PhaseOk(ready, phase, slot, turn) && slot'.turn == slot.turn
    requires slot'.touched == slot.touched || slot.turn != turn
    ensures PhaseOk(ready, phase, slot', turn)
  {
  }

  lemma TryUndisturbed<T>(l: Layout, s: State<T>, s': State<T>, pc: PC<T>)
    requires TryOk(l, s, pc) && Undisturbed(s, s')
    ensures TryOk(l, s', pc)
  {
  }

  /** Such a step does not disturb the other threads. */
  lemma OthersUndisturbed<T>(l: Layout, s: State<T>, s': State<T>, i: nat)
    requires ThreadsOk(l, s) && i < |s.threads| == |s'.threads|
    requires forall k | 0 <= k < |s.threads| && k != i :: s'.threads[k] == s.threads[k]
    requires Undisturbed(s, s') && PcOk(l, s', s'.threads[i])
    requires forall j | 0 <= j < |s.slots| :: s'.slots[j].touched == s.slots[j].touched
    ensures ThreadsOk(l, s')
  {
    forall k | 0 <= k < |s'.threads| ensures PcOk(l, s', s'.threads[k]) {
      if k != i {
        TryUndisturbed(l, s, s', s.threads[k]);
        if s.threads[k].Busy? {
          BusyUndisturbed(l, s, s', s.threads[k]);
        }
      }
    }
  }

  /** Handing out the next ticket. */
  lemma IssueStep<T>(l: Layout, s: State<T>, i: nat, role: Role, val: Option<T>, ready: bool)
    requires Inv(l, s) && i < |s.threads| && !s.threads[i].Wake? && !s.threads[i].Busy?
    requires role.Push? <==> val.Some?
    requires ready ==> s.slots[l.slotOf(Counter(s, role))].turn == Turn(l, role, Counter(s, role))
    ensures Inv(l, Goto(Issue(s, i, role, val), i, Busy(role, val, Counter(s, role), ready, Top)))
  {
    var n := Counter(s, role);
    var pc := Busy(role, val, n, ready, Top);
    var s' := Goto(Issue(s, i, role, val), i, pc);
    NextTicketStaysClose(l, s, role);
    assert !Passed(l, s, role, n);
    OthersUndisturbed(l, s, s', i);
    IssueKeepsTickets(l, s, i, role, val, ready);
    forall j | 0 <= j < |s'.slots| ensures SlotOk(l, s', j) {
      IssueKeepsSlot(l, s, s', j);
    }
    IssueKeepsDelivered(l, s, s');
    SleepersSurvive(l, s, s', i);
  }

  lemma IssueKeepsTickets<T>(l: Layout, s: State<T>, i: nat, role: Role, val: Option<T>, ready: bool)
    requires Inv(l, s) && i < |s.threads| && !s.threads[i].Busy?
    requires role.Push? <==> val.Some?
    ensures var s' := Goto(Issue(s, i, role, val), i, Busy(role, val, Counter(s, role), ready, Top));
            OwnershipOk(s') && TicketsOk(l, s')
  {
    var s' := Goto(Issue(s, i, role, val), i, Busy(role, val, Counter(s, role), ready, Top));
    forall r: Role, t: nat ensures TicketOk(l, s', r, t) {
      assert TicketOk(l, s, r, t);
      if t < Counter(s, r) {
        assert Owner(s', r, t) == Owner(s, r, t);
      }
    }
  }

  lemma IssueKeepsSlot<T>(l: Layout, s: State<T>, s': State<T>, j: nat)
    requires Inv(l, s) && s'.slots == s.slots && j < |s.slots|
    requires |s'.pushLog| <= |s.pushLog| + 1 && s.pushLog <= s'.pushLog
    ensures SlotOk(l, s', j)
  {
    assert SlotOk(l, s, j);
    assert !Passed(l, s, Push, |s.pushLog|);
  }

  lemma IssueKeepsDelivered<T>(l: Layout, s: State<T>, s': State<T>)
    requires Inv(l, s) && s'.slots == s.slots && s'.delivered == s.delivered
    requires s.pushLog <= s'.pushLog && |s.popLog| <= |s'.popLog|
    ensures IssuedOk(l, s') && DeliveredOk(l, s')
  {
    forall r: Role, t: nat ensures Passed(l, s', r, t) == Passed(l, s, r, t) {}
  }

  /** Recording a waiter only raises the delta. */
  lemma RecordStep<T>(l: Layout, s: State<T>, s': State<T>, i: nat)
    requires Inv(l, s) && i < |s.threads| && Record(l, s, s', i)
    ensures Inv(l, s')
  {
    var pc := s.threads[i];
    var j := l.slotOf(pc.ticket);
    assert PcOk(l, s, pc);
    if s.slots[j].word == pc.phase.word {
      RecordedWord(l, s, s', i);
      OthersUndisturbed(l, s, s', i);
      RaiseKeepsShared(l, s, s', i, j);
      SleepersSurvive(l, s, s', i);
    } else {
      LocalStep(l, s, i, pc.(phase := Top));
    }
  }

  /** What the successful compare-and-swap leaves behind. */
  lemma RecordedWord<T>(l: Layout, s: State<T>, s': State<T>, i: nat)
    requires Inv(l, s) && i < |s.threads| && Record(l, s, s', i)
    requires s.slots[l.slotOf(s.threads[i].ticket)].word == s.threads[i].phase.word
    ensures PcOk(l, s', s'.threads[i])
    ensures var j := l.slotOf(s.threads[i].ticket);
            && Shows(s'.slots[j].word, s.slots[j].turn)
            && DecodeDelta(s'.slots[j].word) >= DecodeDelta(s.slots[j].word)
  {
    var pc := s.threads[i];
    var j := l.slotOf(pc.ticket);
    var turn := Turn(l, pc.role, pc.ticket);
    var at, seen := pc.phase.at, pc.phase.word;
    assert PcOk(l, s, pc) && SlotOk(l, s, j);
    NearTurnsAreExact(turn, at, seen);
    EncodeShows(at, turn - at);
    NearWordsShowSameTurn(at, s.slots[j].turn, seen);
  }

  lemma RaiseKeepsShared<T>(l: Layout, s: State<T>, s': State<T>, i: nat, j: nat)
    requires Inv(l, s) && i < |s.threads| && j < |s.slots|
    requires |s'.slots| == |s.slots| && |s'.threads| == |s.threads|
    requires s' == s.(slots := s.slots[j := s'.slots[j]], threads := s.threads[i := s'.threads[i]])
    requires s'.slots[j] == s.slots[j].(word := s'.slots[j].word) && Shows(s'.slots[j].word, s.slots[j].turn)
    requires SameTicket(s.threads[i], s'.threads[i])
    ensures OwnershipOk(s') && TicketsOk(l, s') && IssuedOk(l, s') && SlotsOk(l, s') && DeliveredOk(l, s')
  {
    forall r: Role, t: nat ensures TicketOk(l, s', r, t) && Passed(l, s', r, t) == Passed(l, s, r, t) {
      assert TicketOk(l, s, r, t);
    }
    forall k | 0 <= k < |s'.slots| ensures SlotOk(l, s', k) {
      assert SlotOk(l, s, k);
    }
  }

  /** The owner of the current turn touches the storage. */
  lemma TouchStep<T>(l: Layout, s: State<T>, s': State<T>, i: nat)
    requires Inv(l, s) && i < |s.threads| && Touch(l, s, s', i)
    ensures Inv(l, s')
  {
    TouchKeepsThreads(l, s, s', i);
    TouchPasses(l, s, s', i);
    TouchKeepsSlots(l, s, s', i);
    TouchDelivers(l, s, s', i);
    SleepersSurvive(l, s, s', i);
  }

  lemma TouchKeepsThreads<T>(l: Layout, s: State<T>, s': State<T>, i: nat)
    requires Inv(l, s) && i < |s.threads| && Touch(l, s, s', i)
    ensures ThreadsOk(l, s')
  {
    var j := l.slotOf(s.threads[i].ticket);
    assert PcOk(l, s, s.threads[i]);
    assert PcOk(l, s', s'.threads[i]);
    forall k | 0 <= k < |s'.threads| ensures PcOk(l, s', s'.threads[k]) {
      if k != i {
        TryUndisturbed(l, s, s', s.threads[k]);
        if s.threads[k].Busy? {
          if l.slotOf(s.threads[k].ticket) == j {
            AloneInTurn(l, s, i, k);
          }
          BusyUndisturbed(l, s, s', s.threads[k]);
        }
      }
    }
  }

  /** Touching passes exactly the toucher's ticket. */
  lemma TouchPasses<T>(l: Layout, s: State<T>, s': State<T>, i: nat)
    requires Inv(l, s) && i < |s.threads| && Touch(l, s, s', i)
    ensures |s'.slots| == l.capacity
    ensures OwnershipOk(s') && TicketsOk(l, s') && IssuedOk(l, s')
    ensures forall r: Role, t: nat {:trigger Passed(l, s', r, t)} ::
              Passed(l, s', r, t) <==> Passed(l, s, r, t) || (r == s.threads[i].role && t == s.threads[i].ticket)
  {
    var pc := s.threads[i];
    assert PcOk(l, s, pc);
    forall r: Role, t: nat
      ensures TicketOk(l, s', r, t)
      ensures Passed(l, s', r, t) <==> Passed(l, s, r, t) || (r == pc.role && t == pc.ticket)
    {
      assert TicketOk(l, s, r, t);
      assert l.Pair(t, pc.ticket);
    }
    forall r: Role, t: nat ensures Passed(l, s', r, t) ==> t < Counter(s', r) {
      assert Passed(l, s, r, t) ==> t < Counter(s, r);
    }
  }

  lemma TouchKeepsSlots<T>(l: Layout, s: State<T>, s': State<T>, i: nat)
    requires Inv(l, s) && i < |s.threads| && Touch(l, s, s', i)
    ensures SlotsOk(l, s')
  {
    var pc := s.threads[i];
    var j := l.slotOf(pc.ticket);
    assert PcOk(l, s, pc);
    forall k | 0 <= k < |s'.slots| ensures SlotOk(l, s', k) {
      assert SlotOk(l, s, k);
      if k == j && pc.role.Push? {
        forall t: nat | l.slotOf(t) == j && l.lapOf(t) == s.slots[j].turn / 2 ensures t == pc.ticket {
          assert l.Pair(t, pc.ticket);
        }
      }
    }
  }

  lemma TouchDelivers<T>(l: Layout, s: State<T>, s': State<T>, i: nat)
    requires Inv(l, s) && i < |s.threads| && Touch(l, s, s', i)
    ensures |s'.slots| == l.capacity && DeliveredOk(l, s')
  {
    var pc := s.threads[i];
    var j := l.slotOf(pc.ticket);
    assert PcOk(l, s, pc) && SlotOk(l, s, j);
    TouchPasses(l, s, s', i);
    if pc.role.Pop? {
      assert Passed(l, s, Push, pc.ticket);
      assert s.slots[j].item.value == s.pushLog[pc.ticket].val;
    }
    forall t: nat ensures t in s'.delivered <==> Passed(l, s', Pop, t) {
      assert t in s.delivered <==> Passed(l, s, Pop, t);
    }
  }

  /** No two threads are past waiting on one slot. */
  lemma AloneInTurn<T>(l: Layout, s: State<T>, i: nat, k: nat)
    requires Inv(l, s) && i < |s.threads| && k < |s.threads| && i != k
    requires s.threads[i].Busy? && s.threads[k].Busy?
    requires l.slotOf(s.threads[i].ticket) == l.slotOf(s.threads[k].ticket)
    ensures Turn(l, s.threads[i].role, s.threads[i].ticket) != Turn(l, s.threads[k].role, s.threads[k].ticket)
  {
    assert l.Pair(s.threads[i].ticket, s.threads[k].ticket);
  }

  /** completeTurn. */
  lemma CompleteStep<T>(l: Layout, s: State<T>, s': State<T>, i: nat)
    requires Inv(l, s) && i < |s.threads| && Complete(l, s, s', i)
    ensures Inv(l, s')
  {
    var pc := s.threads[i];
    var j := l.slotOf(pc.ticket);
    assert PcOk(l, s, pc) && SlotOk(l, s, j);
    if s.slots[j].word == pc.phase.word {
      CompleteKeepsThreads(l, s, s', i);
      CompleteKeepsShared(l, s, s', i);
      CompleteKeepsSleepers(l, s, s', i);
    } else {
      LocalStep(l, s, i, pc.(phase := LeaveCas(s.slots[j].word)));
    }
  }

  /** The compare-and-swap of completeTurn succeeded. */
  ghost predicate Completed<T>(l: Layout, s: State<T>, s': State<T>, i: nat)
    requires i < |s.threads|
  {
    && Complete(l, s, s', i)
    && s.slots[l.slotOf(s.threads[i].ticket)].word == s.threads[i].phase.word
  }

  /** Whoever else waits on the slot waits for a later turn. */
  lemma PhaseAfterPass<T>(ready: bool, phase: Phase, slot: Slot<T>, slot': Slot<T>, turn: nat)
    requires PhaseOk(ready, phase, slot, turn) && slot.turn != turn && slot'.turn == slot.turn + 1 && !slot'.touched
    ensures PhaseOk(ready, phase, slot', turn)
  {
  }

  lemma CompleteKeepsThreads<T>(l: Layout, s: State<T>, s': State<T>, i: nat)
    requires Inv(l, s) && i < |s.threads| && Completed(l, s, s', i)
    ensures ThreadsOk(l, s')
  {
    assert PcOk(l, s, s.threads[i]);
    forall k | 0 <= k < |s'.threads| ensures PcOk(l, s', s'.threads[k]) {
      if k != i {
        CompleteKeepsThread(l, s, s', i, k);
      }
    }
  }

  lemma CompleteKeepsThread<T>(l: Layout, s: State<T>, s': State<T>, i: nat, k: nat)
    requires Inv(l, s) && i < |s.threads| && Completed(l, s, s', i) && k != i && k < |s.threads|
    ensures PcOk(l, s', s.threads[k])
  {
    assert PcOk(l, s, s.threads[i]) && PcOk(l, s, s.threads[k]);
    var pc := s.threads[k];
    if pc.Busy? {
      CompleteKeepsBusy(l, s, s', i, k);
    } else if pc.CasReady? {
      assert Passed(l, s, pc.role, pc.ticket) ==> pc.ticket < Counter(s, pc.role);
    }
  }

  lemma CompleteKeepsBusy<T>(l: Layout, s: State<T>, s': State<T>, i: nat, k: nat)
    requires Inv(l, s) && i < |s.threads| && Completed(l, s, s', i)
    requires k != i && k < |s.threads| && s.threads[k].Busy?
    ensures BusyOk(l, s', s.threads[k])
  {
    var pc := s.threads[k];
    var j := l.slotOf(pc.ticket);
    assert PcOk(l, s, pc) && PcOk(l, s, s.threads[i]);
    if j == l.slotOf(s.threads[i].ticket) {
      AloneInTurn(l, s, i, k);
      PhaseAfterPass(pc.ready, pc.phase, s.slots[j], s'.slots[j], Turn(l, pc.role, pc.ticket));
    }
  }

  lemma CompleteKeepsShared<T>(l: Layout, s: State<T>, s': State<T>, i: nat)
    requires Inv(l, s) && i < |s.threads| && Completed(l, s, s', i)
    ensures |s'.slots| == l.capacity
    ensures OwnershipOk(s') && TicketsOk(l, s') && IssuedOk(l, s') && SlotsOk(l, s') && DeliveredOk(l, s')
  {
    assert PcOk(l, s, s.threads[i]);
    forall r: Role, t: nat ensures TicketOk(l, s', r, t) && Passed(l, s', r, t) == Passed(l, s, r, t) {
      CompletePasses(l, s, s', i, r, t);
    }
    forall k | 0 <= k < |s'.slots| ensures SlotOk(l, s', k) {
      CompleteKeepsSlot(l, s, s', i, k);
    }
  }

  lemma CompletePasses<T>(l: Layout, s: State<T>, s': State<T>, i: nat, r: Role, t: nat)
    requires Inv(l, s) && i < |s.threads| && Completed(l, s, s', i)
    ensures |s'.slots| == l.capacity && TicketOk(l, s', r, t) && Passed(l, s', r, t) == Passed(l, s, r, t)
  {
    assert PcOk(l, s, s.threads[i]);
    assert TicketOk(l, s, r, t);
    assert l.Pair(t, s.threads[i].ticket);
  }

  lemma CompleteKeepsSlot<T>(l: Layout, s: State<T>, s': State<T>, i: nat, k: nat)
    requires Inv(l, s) && i < |s.threads| && Completed(l, s, s', i) && k < |s.slots|
    ensures k < |s'.slots| && SlotOk(l, s', k)
  {
    var pc := s.threads[i];
    var j := l.slotOf(pc.ticket);
    assert PcOk(l, s, pc) && SlotOk(l, s, k);
    if k == j {
      NextWordShows(s.slots[j].turn, pc.phase.word);
      HalfStep(s.slots[j].turn);
    }
  }

  lemma NextWordShows(turn: nat, word: nat)
    ensures Shows(NextWord(turn, word), turn + 1)
    ensures DecodeDelta(NextWord(turn, word)) == if DecodeDelta(word) == 0 then 0 else DecodeDelta(word) - 1
  {
    var d := DecodeDelta(word);
    EncodeShows(turn + 1, if d == 0 then 0 else d - 1);
  }

  lemma HalfStep(turn: nat)
    ensures turn % 2 == 0 ==> (turn + 1) % 2 == 1 && (turn + 1) / 2 == turn / 2
    ensures turn % 2 == 1 ==> (turn + 1) % 2 == 0
  {
  }

  /** Passing the turn on wakes the next channel or brings every sleeper one turn closer. */
  lemma CompleteKeepsSleepers<T>(l: Layout, s: State<T>, s': State<T>, i: nat)
    requires Inv(l, s) && i < |s.threads| && Completed(l, s, s', i)
    ensures |s'.slots| == l.capacity && SleepersOk(l, s')
  {
    assert PcOk(l, s, s.threads[i]);
    forall k | 0 <= k < |s'.threads| && s'.threads[k].Busy? && s'.threads[k].phase.Asleep?
      ensures SleeperOk(l, s', s'.threads[k])
    {
      CompleteKeepsSleeper(l, s, s', i, k);
    }
  }

  lemma CompleteKeepsSleeper<T>(l: Layout, s: State<T>, s': State<T>, i: nat, k: nat)
    requires Inv(l, s) && i < |s.threads| && Completed(l, s, s', i)
    requires k != i && k < |s.threads| && s.threads[k].Busy? && s.threads[k].phase.Asleep?
    ensures l.slotOf(s.threads[k].ticket) < |s'.slots| && SleeperOk(l, s', s.threads[k])
  {
    var pc, me := s.threads[k], s.threads[i];
    var j := l.slotOf(pc.ticket);
    var turn := Turn(l, pc.role, pc.ticket);
    assert SleeperOk(l, s, pc) && PcOk(l, s, me) && PcOk(l, s, pc);
    if WakeInFlight(s, j, Channel(turn)) {
      var w :| 0 <= w < |s.threads| && IsWake(s.threads[w], j, Channel(turn));
      assert IsWake(s'.threads[w], j, Channel(turn));
    } else if j == l.slotOf(me.ticket) {
      var now := s.slots[j].turn;
      NextWordShows(now, me.phase.word);
      if Distance(now, turn) == 1 {
        SameChannel(now, turn);
        assert IsWake(s'.threads[i], j, Channel(turn));
      } else {
        CloserByOne(now, turn);
      }
    }
  }

  lemma SameChannel(now: nat, turn: nat)
    requires now < turn && Distance(now, turn) == 1
    ensures Channel(turn) == Channel(now + 1)
  {
  }

  lemma CloserByOne(now: nat, turn: nat)
    requires now < turn && Distance(now, turn) > 1
    ensures now + 1 < turn && Distance(now + 1, turn) == Distance(now, turn) - 1
  {
  }

  /** futexWake empties its channel. */
  lemma WakeStep<T>(l: Layout, s: State<T>, s': State<T>, i: nat)
    requires Inv(l, s) && i < |s.threads| && FutexWake(l, s, s', i)
    ensures Inv(l, s')
  {
    WakeKeepsThreads(l, s, s', i);
    forall r: Role, t: nat ensures TicketOk(l, s', r, t) {
      assert TicketOk(l, s, r, t);
    }
    SharedUnchanged(l, s, s');
    forall k | 0 <= k < |s'.threads| && s'.threads[k].Busy? && s'.threads[k].phase.Asleep?
      ensures SleeperOk(l, s', s'.threads[k])
    {
      WakeKeepsSleeper(l, s, s', i, k);
    }
  }

  lemma WakeKeepsThreads<T>(l: Layout, s: State<T>, s': State<T>, i: nat)
    requires Inv(l, s) && i < |s.threads| && FutexWake(l, s, s', i)
    ensures ThreadsOk(l, s') && OwnershipOk(s')
  {
    forall k | 0 <= k < |s'.threads| ensures PcOk(l, s', s'.threads[k]) {
      var pc := s.threads[k];
      assert PcOk(l, s, pc);
      TryUndisturbed(l, s, s', pc);
      if pc.Busy? {
        BusyUndisturbed(l, s, s', pc);
      }
    }
    forall k | 0 <= k < |s'.threads| && s'.threads[k].Busy? ensures s.threads[k].Busy? {}
  }

  lemma WakeKeepsSleeper<T>(l: Layout, s: State<T>, s': State<T>, i: nat, k: nat)
    requires Inv(l, s) && i < |s.threads| && FutexWake(l, s, s', i)
    requires k < |s'.threads| && s'.threads[k].Busy? && s'.threads[k].phase.Asleep?
    ensures l.slotOf(s'.threads[k].ticket) < |s'.slots| && SleeperOk(l, s', s'.threads[k])
  {
    var pc := s.threads[k];
    assert SleeperOk(l, s, pc);
    var j, channel := l.slotOf(pc.ticket), Channel(Turn(l, pc.role, pc.ticket));
    if WakeInFlight(s, j, channel) {
      var w :| 0 <= w < |s.threads| && IsWake(s.threads[w], j, channel);
      assert w != i;
      assert IsWake(s'.threads[w], j, channel);
    }
  }

  /** Steps of the ticket-obtaining loops and of size(). */
  lemma TryStep<T>(l: Layout, s: State<T>, s': State<T>, i: nat)
    requires Inv(l, s) && i < |s.threads|
    requires CheckReady(l, s, s', i) || ReloadReady(s, s', i) || CasForReady(s, s', i)
             || CheckPromised(l, s, s', i) || CasForPromised(s, s', i) || StepSize(s, s', i)
    ensures Inv(l, s')
  {
    var pc := s.threads[i];
    assert PcOk(l, s, pc);
    if CheckReady(l, s, s', i) {
      CheckIsExact(l, s, pc.role, pc.ticket);
      LocalStep(l, s, i, s'.threads[i]);
    } else if CasForReady(s, s', i) && Counter(s, pc.role) == pc.ticket {
      IssueStep(l, s, i, pc.role, pc.val, true);
    } else if CasForPromised(s, s', i) && Counter(s, pc.role) == pc.mine {
      IssueStep(l, s, i, pc.role, pc.val, false);
    } else {
      LocalStep(l, s, i, s'.threads[i]);
    }
  }

  /** For the next ticket, the truncated comparison says whether it is its turn. */
  lemma CheckIsExact<T>(l: Layout, s: State<T>, role: Role, ticket: nat)
    requires Inv(l, s)
    ensures ticket == Counter(s, role) ==>
              var slot := s.slots[l.slotOf(ticket)];
              (DecodeSturn(slot.word) == Sturn(Turn(l, role, ticket)) <==> slot.turn == Turn(l, role, ticket))
  {
    if ticket == Counter(s, role) {
      NextTicketStaysClose(l, s, role);
      var j := l.slotOf(ticket);
      assert SlotOk(l, s, j);
      NearTurnsAreExact(Turn(l, role, ticket), s.slots[j].turn, s.slots[j].word);
    }
  }

  /** Loading the word recognises exactly one's own turn. */
  lemma LoadStep<T>(l: Layout, s: State<T>, s': State<T>, i: nat)
    requires Inv(l, s) && i < |s.threads| && LoadWord(l, s, s', i)
    ensures Inv(l, s')
    ensures s'.threads[i].phase.Inside? <==>
            s.slots[l.slotOf(s.threads[i].ticket)].turn == Turn(l, s.threads[i].role, s.threads[i].ticket)
  {
    var pc := s.threads[i];
    var j := l.slotOf(pc.ticket);
    var turn := Turn(l, pc.role, pc.ticket);
    assert PcOk(l, s, pc) && SlotOk(l, s, j);
    TurnsStayClose(l, s, pc.role, pc.ticket);
    NearTurnsAreExact(turn, s.slots[j].turn, s.slots[j].word);
    LocalStep(l, s, i, s'.threads[i]);
  }

  /** Spinning, sleeping, waking spuriously and loading for completeTurn. */
  lemma WaitStep<T>(l: Layout, s: State<T>, s': State<T>, i: nat)
    requires Inv(l, s) && i < |s.threads|
    requires Spin(s, s', i) || SkipRecord(l, s, s', i) || SpuriousWake(s, s', i) || LoadForLeave(l, s, s', i)
    ensures Inv(l, s')
  {
    var pc := s.threads[i];
    assert PcOk(l, s, pc) && SlotOk(l, s, l.slotOf(pc.ticket));
    if SkipRecord(l, s, s', i) {
      var turn, word, at := Turn(l, pc.role, pc.ticket), pc.phase.word, pc.phase.at;
      NearTurnsAreExact(turn, at, word);
      EncodeShows(at, turn - at);
    }
    LocalStep(l, s, i, s'.threads[i]);
  }

  /** Falling asleep: the word says the sleeper is recorded. */
  lemma SleepStep<T>(l: Layout, s: State<T>, s': State<T>, i: nat)
    requires Inv(l, s) && i < |s.threads| && FutexWait(l, s, s', i)
    ensures Inv(l, s')
  {
    var pc := s.threads[i];
    var slot := s.slots[l.slotOf(pc.ticket)];
    assert PcOk(l, s, pc) && SlotOk(l, s, l.slotOf(pc.ticket));
    if slot.word == pc.phase.word {
      NearWordsShowSameTurn(pc.phase.at, slot.turn, slot.word);
    }
    LocalStep(l, s, i, s'.threads[i]);
  }

  lemma StepInv<T(!new)>(l: Layout, s: State<T>, s': State<T>, i: nat)
    requires Inv(l, s) && i < |s.threads| && Step(l, s, s', i)
    ensures Inv(l, s')
  {
    if role, val :| StartBlocking(l, s, s', i, role, val) {
      IssueStep(l, s, i, role, val, false);
    } else if role, val :| StartTry(s, s', i, role, val) {
      LocalStep(l, s, i, s'.threads[i]);
    } else if LoadWord(l, s, s', i) {
      LoadStep(l, s, s', i);
    } else if Record(l, s, s', i) {
      RecordStep(l, s, s', i);
    } else if FutexWait(l, s, s', i) {
      SleepStep(l, s, s', i);
    } else if Touch(l, s, s', i) {
      TouchStep(l, s, s', i);
    } else if Complete(l, s, s', i) {
      CompleteStep(l, s, s', i);
    } else if FutexWake(l, s, s', i) {
      WakeStep(l, s, s', i);
    } else if Spin(s, s', i) || SkipRecord(l, s, s', i) || SpuriousWake(s, s', i) || LoadForLeave(l, s, s', i) {
      WaitStep(l, s, s', i);
    } else {
      TryStep(l, s, s', i);
    }
  }

  lemma NextInv<T(!new)>(l: Layout, s: State<T>, s': State<T>)
    requires Inv(l, s) && Next(l, s, s')
    ensures Inv(l, s')
  {
    var i :| 0 <= i < |s.threads| && Step(l, s, s', i);
    StepInv(l, s, s', i);
  }

  /** Every state of every run. */
  lemma {:induction false} RunInv<T(!new)>(l: Layout, run: seq<State<T>>, k: nat)
    requires l.Good() && l.Periodic() && IsRun(l, run) && k < |run|
    ensures Inv(l, run[k])
  {
    if k == 0 {
      InitInv(l, run[0]);
    } else {
      RunInv(l, run, k - 1);
      assert NextAt(l, run, k - 1);
      NextInv(l, run[k - 1], run[k]);
    }
  }

  // --------------------------------------------------------- main theorems

  /** A run of a queue whose stride computeStride could have chosen. */
  ghost predicate QueueRun<T(!new)>(capacity: nat, stride: nat, run: seq<State<T>>) {
    && capacity > 0 && stride > 0 && Coprime(stride, capacity)
    && IsRun(StridedLayout(stride, capacity), run)
  }

  lemma QueueRunInv<T(!new)>(capacity: nat, stride: nat, run: seq<State<T>>, k: nat)
    requires QueueRun(capacity, stride, run) && k < |run|
    ensures Inv(StridedLayout(stride, capacity), run[k])
  {
    StridedLayoutIsGood(stride, capacity);
    RunInv(StridedLayout(stride, capacity), run, k);
  }

  /** The element delivered to pop ticket t is the one push ticket t brought. */
  lemma FifoDelivery<T(!new)>(capacity: nat, stride: nat, run: seq<State<T>>, k: nat, t: nat)
    requires QueueRun(capacity, stride, run) && k < |run| && t in run[k].delivered
    ensures t < |run[k].pushLog| && t < |run[k].popLog| && run[k].delivered[t] == run[k].pushLog[t].val
  {
    QueueRunInv(capacity, stride, run, k);
    var l := StridedLayout(stride, capacity);
    assert Turn(l, Pop, t) >= 0;
    assert Passed(l, run[k], Pop, t);
  }

  /** Logs only grow and no delivery is ever repeated or changed: what a ticket
      brought or got in one state it has in every later state of the run. */
  ghost predicate HistoryGrows<T>(s: State<T>, s': State<T>) {
    && s.pushLog <= s'.pushLog && s.popLog <= s'.popLog
    && s.delivered.Keys <= s'.delivered.Keys
    && (forall t | t in s.delivered :: s'.delivered[t] == s.delivered[t])
  }

  lemma StepGrowsHistory<T(!new)>(l: Layout, s: State<T>, s': State<T>)
    requires Inv(l, s) && Next(l, s, s')
    ensures HistoryGrows(s, s')
  {
    var i :| 0 <= i < |s.threads| && Step(l, s, s', i);
    if Touch(l, s, s', i) {
      TouchGrowsHistory(l, s, s', i);
    } else {
      OtherStepsGrowHistory(l, s, s', i);
    }
  }

  lemma OtherStepsGrowHistory<T(!new)>(l: Layout, s: State<T>, s': State<T>, i: nat)
    requires i < |s.threads| && Step(l, s, s', i) && !Touch(l, s, s', i)
    ensures HistoryGrows(s, s')
  {
  }

  lemma TouchGrowsHistory<T>(l: Layout, s: State<T>, s': State<T>, i: nat)
    requires Inv(l, s) && i < |s.threads| && Touch(l, s, s', i)
    ensures HistoryGrows(s, s')
  {
    var pc := s.threads[i];
    assert PcOk(l, s, pc);
    assert pc.ticket in s.delivered <==> Passed(l, s, Pop, pc.ticket) by {
      assert Turn(l, Pop, pc.ticket) >= 0;
    }
  }

  lemma {:induction false} DeliveredOnce<T(!new)>(capacity: nat, stride: nat, run: seq<State<T>>, j: nat, k: nat)
    requires QueueRun(capacity, stride, run) && j <= k < |run|
    ensures HistoryGrows(run[j], run[k])
    decreases k
  {
    if j < k {
      DeliveredOnce(capacity, stride, run, j, k - 1);
      QueueRunInv(capacity, stride, run, k - 1);
      assert NextAt(StridedLayout(stride, capacity), run, k - 1);
      StepGrowsHistory(StridedLayout(stride, capacity), run[k - 1], run[k]);
    }
  }

  predicate PastWaiting<T>(pc: PC<T>) {
    pc.Busy? && (pc.phase.Inside? || pc.phase.Leave? || pc.phase.LeaveCas?)
  }

  /** No two threads are ever inside one slot's turn. */
  lemma MutualExclusion<T(!new)>(capacity: nat, stride: nat, run: seq<State<T>>, k: nat, a: nat, b: nat)
    requires QueueRun(capacity, stride, run) && k < |run|
    requires a < |run[k].threads| && b < |run[k].threads| && a != b
    requires PastWaiting(run[k].threads[a]) && PastWaiting(run[k].threads[b])
    ensures Idx(run[k].threads[a].ticket, stride, capacity) != Idx(run[k].threads[b].ticket, stride, capacity)
  {
    var l, s := StridedLayout(stride, capacity), run[k];
    QueueRunInv(capacity, stride, run, k);
    assert PcOk(l, s, s.threads[a]) && PcOk(l, s, s.threads[b]);
    if l.slotOf(s.threads[a].ticket) == l.slotOf(s.threads[b].ticket) {
      AloneInTurn(l, s, a, b);
    }
  }

  /** The three places an element can be. */
  ghost predicate InPushersHands<T>(s: State<T>, t: nat)
    requires t < |s.pushLog|
  {
    var i := s.pushLog[t].owner;
    && OwnsTicket(s, i, Push, t)
    && s.threads[i].val == Some(s.pushLog[t].val)
    && !s.threads[i].phase.Leave? && !s.threads[i].phase.LeaveCas?
  }

  ghost predicate InSlot<T>(l: Layout, s: State<T>, t: nat)
    requires t < |s.pushLog| && l.slotOf(t) < |s.slots|
  {
    var slot := s.slots[l.slotOf(t)];
    slot.item == Some(s.pushLog[t].val) && slot.turn / 2 == l.lapOf(t)
  }

  /** Nothing is lost or duplicated: every element is in exactly one place. */
  lemma ElementInOnePlace<T(!new)>(capacity: nat, stride: nat, run: seq<State<T>>, k: nat, t: nat)
    requires QueueRun(capacity, stride, run) && k < |run| && t < |run[k].pushLog|
    ensures StridedLayout(stride, capacity).slotOf(t) < |run[k].slots|
    ensures InPushersHands(run[k], t) <==>
              !InSlot(StridedLayout(stride, capacity), run[k], t) && t !in run[k].delivered
    ensures !(InSlot(StridedLayout(stride, capacity), run[k], t) && t in run[k].delivered)
  {
    QueueRunInv(capacity, stride, run, k);
    OnePlace(StridedLayout(stride, capacity), run[k], t);
  }

  lemma OnePlace<T>(l: Layout, s: State<T>, t: nat)
    requires Inv(l, s) && t < |s.pushLog|
    ensures InPushersHands(s, t) <==> !InSlot(l, s, t) && t !in s.delivered
    ensures !(InSlot(l, s, t) && t in s.delivered)
  {
    var slot := s.slots[l.slotOf(t)];
    assert TicketOk(l, s, Push, t) && SlotOk(l, s, l.slotOf(t));
    assert t in s.delivered <==> Passed(l, s, Pop, t) by { assert Turn(l, Pop, t) >= 0; }
    var i := s.pushLog[t].owner;
    if OwnsTicket(s, i, Push, t) {
      assert PcOk(l, s, s.threads[i]);
    }
  }

  // ------------------------------------------------------------- blocking

  /** No lost wake-up: a sleeper either has a wake on its way over its channel or is
      recorded at least as far ahead as the next turn that uses its channel; once its
      turn has come, the wake is on its way. */
  lemma NoLostWakeup<T(!new)>(capacity: nat, stride: nat, run: seq<State<T>>, k: nat, i: nat)
    requires QueueRun(capacity, stride, run) && k < |run| && i < |run[k].threads|
    requires run[k].threads[i].Busy? && run[k].threads[i].phase.Asleep?
    ensures var l := StridedLayout(stride, capacity);
            var pc := run[k].threads[i];
            var j, turn := l.slotOf(pc.ticket), Turn(l, pc.role, pc.ticket);
            && j < |run[k].slots| && run[k].slots[j].turn <= turn
            && (|| WakeInFlight(run[k], j, Channel(turn))
                || (&& run[k].slots[j].turn < turn
                    && DecodeDelta(run[k].slots[j].word) >= Distance(run[k].slots[j].turn, turn)))
  {
    QueueRunInv(capacity, stride, run, k);
    assert PcOk(StridedLayout(stride, capacity), run[k], run[k].threads[i]);
    assert SleeperOk(StridedLayout(stride, capacity), run[k], run[k].threads[i]);
  }

  /** Nobody can take a step on its own: every thread is outside the queue or asleep. */
  ghost predicate Quiescent<T>(s: State<T>) {
    forall i | 0 <= i < |s.threads| ::
      s.threads[i].Idle? || (s.threads[i].Busy? && s.threads[i].phase.Asleep?)
  }

  /** The queue comes to rest only when it has to: a resting pop waits for an element
      whose push has not begun, a resting push for a slot whose pop has not begun. */
  lemma RestsOnlyWhenEmptyOrFull<T(!new)>(capacity: nat, stride: nat, run: seq<State<T>>, k: nat, i: nat)
    requires QueueRun(capacity, stride, run) && k < |run| && Quiescent(run[k])
    requires i < |run[k].threads| && run[k].threads[i].Busy?
    ensures run[k].threads[i].role.Pop? ==> run[k].threads[i].ticket >= |run[k].pushLog|
    ensures run[k].threads[i].role.Push? ==> run[k].threads[i].ticket >= |run[k].popLog| + capacity
  {
    QueueRunInv(capacity, stride, run, k);
    RestingThread(StridedLayout(stride, capacity), run[k], i);
  }

  lemma RestingThread<T>(l: Layout, s: State<T>, i: nat)
    requires Inv(l, s) && Quiescent(s) && i < |s.threads| && s.threads[i].Busy?
    ensures s.threads[i].role.Pop? ==> s.threads[i].ticket >= |s.pushLog|
    ensures s.threads[i].role.Push? ==> s.threads[i].ticket >= |s.popLog| + l.capacity
  {
    var pc := s.threads[i];
    assert PcOk(l, s, pc);
    var now, turn := s.slots[l.slotOf(pc.ticket)].turn, Turn(l, pc.role, pc.ticket);
    NobodyRestsInTurn(l, s, pc.role, pc.ticket);
    if pc.ticket < if pc.role.Pop? then |s.pushLog| else |s.popLog| + l.capacity {
      var t := TicketOfLap(l, pc.ticket, now / 2);
      NobodyRestsInTurn(l, s, if now % 2 == 0 then Push else Pop, t);
    }
  }

  /** A thread that is neither outside the queue nor asleep always has a step to take,
      so the resting states above are the only ones in which the queue stands still. */
  lemma RunningThreadCanStep<T(!new)>(l: Layout, s: State<T>, i: nat) returns (s': State<T>)
    requires Inv(l, s) && i < |s.threads|
    requires !s.threads[i].Idle? && !(s.threads[i].Busy? && s.threads[i].phase.Asleep?)
    ensures Step(l, s, s', i)
  {
    if s.threads[i].Busy? {
      s' := BusyThreadCanStep(l, s, i);
    } else {
      s' := TryingThreadCanStep(l, s, i);
    }
  }

  lemma BusyThreadCanStep<T(!new)>(l: Layout, s: State<T>, i: nat) returns (s': State<T>)
    requires Inv(l, s) && i < |s.threads|
    requires s.threads[i].Busy? && !s.threads[i].phase.Asleep?
    ensures Step(l, s, s', i)
  {
    var pc := s.threads[i];
    var j := l.slotOf(pc.ticket);
    var slot := s.slots[j];
    var turn := Turn(l, pc.role, pc.ticket);
    assert PcOk(l, s, pc) && SlotOk(l, s, j);
    match pc.phase {
      case Top =>
        s' := Goto(s, i, pc.(phase := if DecodeSturn(slot.word) == Sturn(turn) then Inside else Seen(slot.word, slot.turn)));
        assert LoadWord(l, s, s', i);
      case Seen(word, at) =>
        s' := Goto(s, i, pc.(phase := Top));
        assert Spin(s, s', i);
      case Sleep(word, at) =>
        s' := Goto(s, i, pc.(phase := if slot.word == word then Asleep else Top));
        assert FutexWait(l, s, s', i);
      case Inside =>
        var touched := slot.(item := if pc.role.Push? then pc.val else None, touched := true);
        s' := s.(slots := s.slots[j := touched]);
        s' := if pc.role.Push? then s' else s'.(delivered := s.delivered[pc.ticket := slot.item.value]);
        s' := Goto(s', i, pc.(phase := Leave));
        assert Touch(l, s, s', i);
      case Leave =>
        s' := Goto(s, i, pc.(phase := LeaveCas(slot.word)));
        assert LoadForLeave(l, s, s', i);
      case LeaveCas(word) =>
        var passed := slot.(word := NextWord(turn, word), turn := slot.turn + 1, touched := false);
        s' := if slot.word == word
              then Goto(s.(slots := s.slots[j := passed]), i, if DecodeDelta(word) != 0 then Wake(j, turn + 1) else Idle)
              else Goto(s, i, pc.(phase := LeaveCas(slot.word)));
        assert Complete(l, s, s', i);
    }
  }

  lemma TryingThreadCanStep<T(!new)>(l: Layout, s: State<T>, i: nat) returns (s': State<T>)
    requires Inv(l, s) && i < |s.threads|
    requires !s.threads[i].Idle? && !s.threads[i].Busy?
    ensures Step(l, s, s', i)
  {
    var pc := s.threads[i];
    assert PcOk(l, s, pc);
    match pc {
      case TryReady(role, val, ticket) =>
        var slot := s.slots[l.slotOf(ticket)];
        s' := Goto(s, i, if DecodeSturn(slot.word) == Sturn(Turn(l, role, ticket)) then CasReady(role, val, ticket)
                         else RecheckReady(role, val, ticket, Counter(s, role), slot.turn == Turn(l, role, ticket)));
        assert CheckReady(l, s, s', i);
      case RecheckReady(role, val, ticket, _, _) =>
        s' := Goto(s, i, if Counter(s, role) == ticket then Idle else TryReady(role, val, Counter(s, role)));
        assert ReloadReady(s, s', i);
      case CasReady(role, val, ticket) =>
        s' := if Counter(s, role) == ticket then Goto(Issue(s, i, role, val), i, Busy(role, val, ticket, true, Top))
              else Goto(s, i, TryReady(role, val, Counter(s, role)));
        assert CasForReady(s, s', i);
      case TryPromised(role, val, mine) =>
        var other := Counter(s, if role.Push? then Pop else Push);
        var fails := if role.Push? then mine - other >= l.capacity else mine >= other;
        s' := Goto(s, i, if fails then Idle else CasPromised(role, val, mine, other));
        assert CheckPromised(l, s, s', i);
      case CasPromised(role, val, mine, other) =>
        s' := if Counter(s, role) == mine then Goto(Issue(s, i, role, val), i, Busy(role, val, mine, false, Top))
              else Goto(s, i, TryPromised(role, val, Counter(s, role)));
        assert CasForPromised(s, s', i);
      case SizeB(pushes) =>
        s' := Goto(s, i, SizeC(pushes, |s.popLog|, |s.pushLog|));
        assert StepSize(s, s', i);
      case SizeC(pushes, pops, _) =>
        s' := Goto(s, i, if pushes == |s.pushLog| then Idle else SizeD(|s.pushLog|, pops, |s.popLog|));
        assert StepSize(s, s', i);
      case SizeD(pushes, pops, _) =>
        s' := Goto(s, i, if pops == |s.popLog| then Idle else SizeC(pushes, |s.popLog|, |s.pushLog|));
        assert StepSize(s, s', i);
      case Wake(slot, turn) =>
        s' := s.(threads := seq(|s.threads|, k requires 0 <= k < |s.threads| =>
                   if k == i then Idle
                   else if SleepsOn(l, s.threads[k], slot, Channel(turn)) then s.threads[k].(phase := Top)
                   else s.threads[k]));
        assert FutexWake(l, s, s', i);
    }
  }

  /** At rest, no issued ticket is waiting in its own turn. */
  lemma NobodyRestsInTurn<T>(l: Layout, s: State<T>, role: Role, t: nat)
    requires Inv(l, s) && Quiescent(s) && t < Counter(s, role)
    ensures s.slots[l.slotOf(t)].turn != Turn(l, role, t)
  {
    assert TicketOk(l, s, role, t);
    var i := Owner(s, role, t);
    if OwnsTicket(s, i, role, t) {
      assert SleeperOk(l, s, s.threads[i]);
    }
  }

  /** The ticket of an earlier lap on the same slot. */
  lemma TicketOfLap(l: Layout, t: nat, lap: nat) returns (u: nat)
    requires l.Good() && l.Periodic() && lap <= l.lapOf(t)
    ensures u <= t && l.slotOf(u) == l.slotOf(t) && l.lapOf(u) == lap
    ensures lap < l.lapOf(t) ==> u + l.capacity <= t
    decreases l.lapOf(t)
  {
    if lap == l.lapOf(t) {
      u := t;
    } else {
      u := TicketOfLap(l, l.Prev(t), lap);
    }
  }

  /** A ticket from tryObtainReady* never blocks when used: its slot is already in its
      turn, so waitForTurn's first load sees it. */
  lemma ReadyNeverBlocks<T(!new)>(capacity: nat, stride: nat, run: seq<State<T>>, k: nat, i: nat)
    requires QueueRun(capacity, stride, run) && k < |run| && i < |run[k].threads|
    requires run[k].threads[i].Busy? && run[k].threads[i].ready
    ensures run[k].threads[i].phase.Top? || PastWaiting(run[k].threads[i])
    ensures var l := StridedLayout(stride, capacity);
            var pc := run[k].threads[i];
            && l.slotOf(pc.ticket) < |run[k].slots|
            && run[k].slots[l.slotOf(pc.ticket)].turn == Turn(l, pc.role, pc.ticket)
            && DecodeSturn(run[k].slots[l.slotOf(pc.ticket)].word) == Sturn(Turn(l, pc.role, pc.ticket))
  {
    var l := StridedLayout(stride, capacity);
    QueueRunInv(capacity, stride, run, k);
    assert PcOk(l, run[k], run[k].threads[i]);
    assert SlotOk(l, run[k], l.slotOf(run[k].threads[i].ticket));
  }

  /** Another thread's step leaves a thread that holds no ticket alone. */
  lemma OthersLeaveAlone<T(!new)>(l: Layout, s: State<T>, s': State<T>, a: nat, i: nat)
    requires a < |s.threads| && i < |s.threads| && a != i && Step(l, s, s', a) && !s.threads[i].Busy?
    ensures |s'.threads| == |s.threads| && s'.threads[i] == s.threads[i]
  {
    if CheckReady(l, s, s', a) || ReloadReady(s, s', a) || CasForReady(s, s', a) {
    } else if CheckPromised(l, s, s', a) || CasForPromised(s, s', a) || StepSize(s, s', a) {
    } else if LoadWord(l, s, s', a) || Spin(s, s', a) || SkipRecord(l, s, s', a) || Record(l, s, s', a) {
    } else if FutexWait(l, s, s', a) || SpuriousWake(s, s', a) || Touch(l, s, s', a) {
    } else if LoadForLeave(l, s, s', a) || Complete(l, s, s', a) || FutexWake(l, s, s', a) {
    }
  }

  /** Nor does any step change the number of threads. */
  lemma ThreadsStay<T(!new)>(l: Layout, s: State<T>, s': State<T>, a: nat)
    requires a < |s.threads| && Step(l, s, s', a)
    ensures |s'.threads| == |s.threads|
  {
  }

  /** Thread i has not moved since the step after state j. */
  ghost predicate StoodSince<T>(run: seq<State<T>>, i: nat, j: nat, k: nat) {
    j < k < |run| && i < |run[k].threads|
    && forall x | j < x <= k :: i < |run[x].threads| && run[x].threads[i] == run[k].threads[i]
  }

  /** When tryObtainReady* is about to return false, there was a state inside the call
      in which its ticket was the next one and using it would have blocked. */
  lemma FalseReadyHadWitness<T(!new)>(capacity: nat, stride: nat, run: seq<State<T>>, k: nat, i: nat) returns (j: nat)
    requires QueueRun(capacity, stride, run) && k < |run| && i < |run[k].threads|
    requires run[k].threads[i].RecheckReady?
    requires Counter(run[k], run[k].threads[i].role) == run[k].threads[i].ticket
    ensures StoodSince(run, i, j, k) && i < |run[j].threads| && run[j].threads[i].TryReady?
    ensures var l, pc := StridedLayout(stride, capacity), run[k].threads[i];
            && l.slotOf(pc.ticket) < |run[j].slots|
            && Counter(run[j], pc.role) == pc.ticket
            && run[j].slots[l.slotOf(pc.ticket)].turn != Turn(l, pc.role, pc.ticket)
  {
    QueueRunInv(capacity, stride, run, k);
    assert PcOk(StridedLayout(stride, capacity), run[k], run[k].threads[i]);
    j := WhenChecked(StridedLayout(stride, capacity), run, k, i);
  }

  /** The state a RecheckReady thread made its check in. */
  lemma {:induction false} WhenChecked<T(!new)>(l: Layout, run: seq<State<T>>, k: nat, i: nat) returns (j: nat)
    requires IsRun(l, run) && k < |run| && i < |run[k].threads| && run[k].threads[i].RecheckReady?
    ensures StoodSince(run, i, j, k) && i < |run[j].threads| && run[j].threads[i].TryReady?
    ensures var pc := run[k].threads[i];
            && l.slotOf(pc.ticket) < |run[j].slots|
            && Counter(run[j], pc.role) == pc.seen
            && (run[j].slots[l.slotOf(pc.ticket)].turn == Turn(l, pc.role, pc.ticket)) == pc.wasTurn
    decreases k
  {
    j := k - 1;
    assert NextAt(l, run, j);
    var a :| 0 <= a < |run[j].threads| && Step(l, run[j], run[k], a);
    ThreadsStay(l, run[j], run[k], a);
    if run[j].threads[i].RecheckReady? {
      if a == i {
        RecheckLeaves(l, run[j], run[k], i);
      } else {
        OthersLeaveAlone(l, run[j], run[k], a, i);
      }
      j := WhenChecked(l, run, j, i);
    } else {
      EntersRecheck(l, run[j], run[k], a, i);
    }
  }

  lemma RecheckLeaves<T(!new)>(l: Layout, s: State<T>, s': State<T>, i: nat)
    requires i < |s.threads| && Step(l, s, s', i) && s.threads[i].RecheckReady?
    ensures !s'.threads[i].RecheckReady?
  {
  }

  lemma EntersRecheck<T(!new)>(l: Layout, s: State<T>, s': State<T>, a: nat, i: nat)
    requires a < |s.threads| && i < |s.threads| && Step(l, s, s', a)
    requires !s.threads[i].RecheckReady? && |s'.threads| == |s.threads| && s'.threads[i].RecheckReady?
    ensures a == i && CheckReady(l, s, s', i)
  {
  }

  /** A promised push ticket reuses a slot whose pop ticket was issued; a promised pop
      ticket's push ticket was issued. */
  lemma PromiseIsKept<T(!new)>(capacity: nat, stride: nat, run: seq<State<T>>, k: nat, i: nat)
    requires QueueRun(capacity, stride, run) && k < |run| && i < |run[k].threads|
    requires run[k].threads[i].CasPromised?
    ensures run[k].threads[i].role.Push? ==> run[k].threads[i].mine < |run[k].popLog| + capacity
    ensures run[k].threads[i].role.Pop? ==> run[k].threads[i].mine < |run[k].pushLog|
  {
    QueueRunInv(capacity, stride, run, k);
    assert PcOk(StridedLayout(stride, capacity), run[k], run[k].threads[i]);
  }

  /** tryObtainPromised* fails only in a state in which the queue is full, or empty. */
  lemma PromiseFailsWhenFullOrEmpty<T(!new)>(capacity: nat, stride: nat, run: seq<State<T>>, k: nat, i: nat)
    requires QueueRun(capacity, stride, run) && k + 1 < |run| && i < |run[k].threads|
    requires run[k].threads[i].TryPromised? && CheckPromised(StridedLayout(stride, capacity), run[k], run[k + 1], i)
    requires run[k + 1].threads[i].Idle?
    ensures run[k].threads[i].role.Push? ==> |run[k].pushLog| - |run[k].popLog| >= capacity
    ensures run[k].threads[i].role.Pop? ==> |run[k].popLog| >= |run[k].pushLog|
  {
    QueueRunInv(capacity, stride, run, k);
    assert PcOk(StridedLayout(stride, capacity), run[k], run[k].threads[i]);
  }

  /** size() is about to return pushes - pops. */
  ghost predicate SizeReturns<T>(s: State<T>, i: nat)
    requires i < |s.threads|
  {
    || (s.threads[i].SizeC? && s.threads[i].pushes == |s.pushLog|)
    || (s.threads[i].SizeD? && s.threads[i].pops == |s.popLog|)
  }

  /** size() returns the true difference of some state inside the call. */
  lemma SizeIsLinearizable<T(!new)>(capacity: nat, stride: nat, run: seq<State<T>>, k: nat, i: nat) returns (j: nat)
    requires QueueRun(capacity, stride, run) && k < |run| && i < |run[k].threads| && SizeReturns(run[k], i)
    ensures j < k && forall x | j <= x <= k :: i < |run[x].threads| && InSize(run[x].threads[i])
    ensures |run[j].pushLog| == run[k].threads[i].pushes && |run[j].popLog| == run[k].threads[i].pops
  {
    QueueRunInv(capacity, stride, run, k);
    assert PcOk(StridedLayout(stride, capacity), run[k], run[k].threads[i]);
    j := WhenLoaded(StridedLayout(stride, capacity), run, k, i);
  }

  predicate InSize<T>(pc: PC<T>) { pc.SizeB? || pc.SizeC? || pc.SizeD? }

  /** The counters of the state in which the last load of size() was made. */
  ghost predicate LoadedIn<T>(pc: PC<T>, s: State<T>) {
    match pc
    case SizeC(_, pops, seen) => |s.popLog| == pops && |s.pushLog| == seen
    case SizeD(pushes, _, seen) => |s.pushLog| == pushes && |s.popLog| == seen
    case _ => false
  }

  lemma {:induction false} WhenLoaded<T(!new)>(l: Layout, run: seq<State<T>>, k: nat, i: nat) returns (j: nat)
    requires IsRun(l, run) && k < |run| && i < |run[k].threads|
    requires run[k].threads[i].SizeC? || run[k].threads[i].SizeD?
    ensures StoodSince(run, i, j, k) && i < |run[j].threads| && InSize(run[j].threads[i]) && LoadedIn(run[k].threads[i], run[j])
    decreases k
  {
    j := k - 1;
    assert NextAt(l, run, j);
    SizeRunStep(l, run[j], run[k], i);
    if run[j].threads[i] == run[k].threads[i] {
      j := WhenLoaded(l, run, j, i);
      StoodLonger(run, i, j, k);
    }
  }

  lemma StoodLonger<T>(run: seq<State<T>>, i: nat, j: nat, k: nat)
    requires j + 1 < k < |run| && StoodSince(run, i, j, k - 1)
    requires i < |run[k].threads| && run[k].threads[i] == run[k - 1].threads[i]
    ensures StoodSince(run, i, j, k)
  {
  }

  /** A thread in size() has just loaded, or did not move. */
  lemma SizeRunStep<T(!new)>(l: Layout, s: State<T>, s': State<T>, i: nat)
    requires exists a: nat :: a < |s.threads| && Step(l, s, s', a)
    requires i < |s'.threads| && (s'.threads[i].SizeC? || s'.threads[i].SizeD?)
    ensures |s.threads| == |s'.threads| && InSize(s.threads[i])
    ensures s.threads[i] == s'.threads[i] || LoadedIn(s'.threads[i], s)
  {
    var a: nat :| a < |s.threads| && Step(l, s, s', a);
    ThreadsStay(l, s, s', a);
    if a != i {
      SizeUntouched(l, s, s', a, i);
    } else {
      SizeLoads(l, s, s', i);
    }
  }

  lemma SizeUntouched<T(!new)>(l: Layout, s: State<T>, s': State<T>, a: nat, i: nat)
    requires a < |s.threads| && i < |s.threads| && a != i && Step(l, s, s', a)
    requires |s'.threads| == |s.threads| && InSize(s'.threads[i])
    ensures s.threads[i] == s'.threads[i]
  {
  }

  lemma SizeLoads<T(!new)>(l: Layout, s: State<T>, s': State<T>, i: nat)
    requires i < |s.threads| == |s'.threads| && Step(l, s, s', i)
    requires s'.threads[i].SizeC? || s'.threads[i].SizeD?
    ensures InSize(s.threads[i]) && LoadedIn(s'.threads[i], s)
  {
    if CheckReady(l, s, s', i) || ReloadReady(s, s', i) || CasForReady(s, s', i) {
    } else if CheckPromised(l, s, s', i) || CasForPromised(s, s', i) || StepSize(s, s', i) {
    } else if LoadWord(l, s, s', i) || Spin(s, s', i) || SkipRecord(l, s, s', i) || Record(l, s, s', i) {
    } else if FutexWait(l, s, s', i) || SpuriousWake(s, s', i) || Touch(l, s, s', i) {
    } else if LoadForLeave(l, s, s', i) || Complete(l, s, s', i) || FutexWake(l, s, s', i) {
    }
  }

  // ------------------------------------------------------------------ what calls report

  /** Inside tryObtainReady*, tryObtainPromised* or size(). */
  predicate InReady<T>(pc: PC<T>, role: Role) { (pc.TryReady? || pc.RecheckReady? || pc.CasReady?) && pc.role == role }
  predicate InPromised<T>(pc: PC<T>) { pc.TryPromised? || pc.CasPromised? }

  /** The step of a thread that becomes idle. */
  lemma WhoMoved<T(!new)>(l: Layout, run: seq<State<T>>, k: nat, i: nat)
    requires IsRun(l, run) && k + 1 < |run| && i < |run[k].threads| && i < |run[k + 1].threads|
    requires !run[k].threads[i].Busy? && run[k + 1].threads[i] != run[k].threads[i]
    ensures Step(l, run[k], run[k + 1], i) && |run[k + 1].threads| == |run[k].threads|
  {
    assert NextAt(l, run, k);
    var a :| 0 <= a < |run[k].threads| && Step(l, run[k], run[k + 1], a);
    ThreadsStay(l, run[k], run[k + 1], a);
    if a != i {
      OthersLeaveAlone(l, run[k], run[k + 1], a, i);
    }
  }

  lemma ReadyLeaves<T(!new)>(l: Layout, s: State<T>, s': State<T>, i: nat)
    requires i < |s.threads| == |s'.threads| && Step(l, s, s', i) && s'.threads[i].Idle?
    requires s.threads[i].TryReady? || s.threads[i].RecheckReady? || s.threads[i].CasReady?
    ensures s.threads[i].RecheckReady? && Counter(s, s.threads[i].role) == s.threads[i].ticket
  {
  }

  /** The next ticket's turn has not come. */
  ghost predicate WouldBlock<T>(l: Layout, s: State<T>, role: Role) {
    var t := Counter(s, role);
    l.slotOf(t) < |s.slots| && s.slots[l.slotOf(t)].turn != Turn(l, role, t)
  }

  /** Whenever a tryObtainReady* call returns false there was a state inside the call in which
      the next ticket would have blocked. */
  lemma ReadyFailsOnlyBlocked<T(!new)>(capacity: nat, stride: nat, run: seq<State<T>>, k: nat, i: nat, role: Role) returns (j: nat)
    requires QueueRun(capacity, stride, run) && k + 1 < |run| && i < |run[k].threads| && i < |run[k + 1].threads|
    requires InReady(run[k].threads[i], role) && run[k + 1].threads[i].Idle?
    ensures j <= k && forall x | j <= x <= k :: i < |run[x].threads| && InReady(run[x].threads[i], role)
    ensures WouldBlock(StridedLayout(stride, capacity), run[j], role)
  {
    var l := StridedLayout(stride, capacity);
    WhoMoved(l, run, k, i);
    ReadyLeaves(l, run[k], run[k + 1], i);
    j := FalseReadyHadWitness(capacity, stride, run, k, i);
    StoodWasReady(l, run, k, i, j, role);
  }

  lemma StoodWasReady<T(!new)>(l: Layout, run: seq<State<T>>, k: nat, i: nat, j: nat, role: Role)
    requires IsRun(l, run) && StoodSince(run, i, j, k) && i < |run[j].threads| && run[j].threads[i].TryReady?
    requires run[k].threads[i].RecheckReady? && run[k].threads[i].role == role
    ensures run[j].threads[i].role == role
  {
    assert run[j + 1].threads[i] == run[k].threads[i];
    WhoMoved(l, run, j, i);
    RoleStays(l, run[j], run[j + 1], i);
  }

  lemma RoleStays<T(!new)>(l: Layout, s: State<T>, s': State<T>, i: nat)
    requires i < |s.threads| == |s'.threads| && Step(l, s, s', i) && s.threads[i].TryReady? && s'.threads[i].RecheckReady?
    ensures s'.threads[i].role == s.threads[i].role
  {
  }

  lemma PromisedLeaves<T(!new)>(l: Layout, s: State<T>, s': State<T>, i: nat)
    requires i < |s.threads| == |s'.threads| && Step(l, s, s', i) && InPromised(s.threads[i]) && s'.threads[i].Idle?
    ensures s.threads[i].TryPromised? && CheckPromised(l, s, s', i)
  {
  }

  /** Whenever a tryObtainPromised* call returns false the queue is full, or empty, at that state. */
  lemma PromisedFailsOnlyFullOrEmpty<T(!new)>(capacity: nat, stride: nat, run: seq<State<T>>, k: nat, i: nat)
    requires QueueRun(capacity, stride, run) && k + 1 < |run| && i < |run[k].threads| && i < |run[k + 1].threads|
    requires InPromised(run[k].threads[i]) && run[k + 1].threads[i].Idle?
    ensures run[k].threads[i].role.Push? ==> |run[k].pushLog| - |run[k].popLog| >= capacity
    ensures run[k].threads[i].role.Pop? ==> |run[k].popLog| >= |run[k].pushLog|
  {
    WhoMoved(StridedLayout(stride, capacity), run, k, i);
    PromisedLeaves(StridedLayout(stride, capacity), run[k], run[k + 1], i);
    PromiseFailsWhenFullOrEmpty(capacity, stride, run, k, i);
  }

  lemma SizeLeaves<T(!new)>(l: Layout, s: State<T>, s': State<T>, i: nat)
    requires i < |s.threads| == |s'.threads| && Step(l, s, s', i) && InSize(s.threads[i]) && s'.threads[i].Idle?
    ensures SizeReturns(s, i)
  {
  }

  /** Whenever size() returns, the counters it subtracts were those of one state inside the call. */
  lemma SizeReportsOneState<T(!new)>(capacity: nat, stride: nat, run: seq<State<T>>, k: nat, i: nat) returns (j: nat)
    requires QueueRun(capacity, stride, run) && k + 1 < |run| && i < |run[k].threads| && i < |run[k + 1].threads|
    requires InSize(run[k].threads[i]) && run[k + 1].threads[i].Idle?
    ensures j < k && (forall x | j <= x <= k :: i < |run[x].threads| && InSize(run[x].threads[i]))
    ensures !run[k].threads[i].SizeB?
    ensures |run[j].pushLog| == run[k].threads[i].pushes && |run[j].popLog| == run[k].threads[i].pops
  {
    WhoMoved(StridedLayout(stride, capacity), run, k, i);
    SizeLeaves(StridedLayout(stride, capacity), run[k], run[k + 1], i);
    j := SizeIsLinearizable(capacity, stride, run, k, i);
  }

  lemma BusyLeaves<T(!new)>(l: Layout, s: State<T>, s': State<T>, a: nat, i: nat)
    requires a < |s.threads| && i < |s.threads| == |s'.threads| && Step(l, s, s', a) && s.threads[i].Busy? && !s'.threads[i].Busy?
    ensures a == i && s.threads[i].phase.LeaveCas?
  {
    if CheckReady(l, s, s', a) || ReloadReady(s, s', a) || CasForReady(s, s', a) {
    } else if CheckPromised(l, s, s', a) || CasForPromised(s, s', a) || StepSize(s, s', a) {
    } else if LoadWord(l, s, s', a) || Spin(s, s', a) || SkipRecord(l, s, s', a) || Record(l, s, s', a) {
    } else if FutexWait(l, s, s', a) || SpuriousWake(s, s', a) || Touch(l, s, s', a) {
    } else if LoadForLeave(l, s, s', a) || Complete(l, s, s', a) || FutexWake(l, s, s', a) {
    }
  }

  /** A call that is done with its ticket has got, or handed over, the element: a pop has the
      value of its push, a push's value is in its slot or delivered. */
  lemma DoneMeansMoved<T(!new)>(capacity: nat, stride: nat, run: seq<State<T>>, k: nat, i: nat)
    requires QueueRun(capacity, stride, run) && k + 1 < |run| && i < |run[k].threads| && i < |run[k + 1].threads|
    requires run[k].threads[i].Busy? && !run[k + 1].threads[i].Busy?
    ensures var l, s, pc := StridedLayout(stride, capacity), run[k], run[k].threads[i];
            && (pc.role.Pop? ==> pc.ticket in s.delivered && pc.ticket < |s.pushLog| && s.delivered[pc.ticket] == s.pushLog[pc.ticket].val)
            && (pc.role.Push? ==>
                  pc.val.Some? && pc.ticket < |s.pushLog| && s.pushLog[pc.ticket].val == pc.val.value && l.slotOf(pc.ticket) < |s.slots|
                  && (InSlot(l, s, pc.ticket) || pc.ticket in s.delivered))
  {
    var l := StridedLayout(stride, capacity);
    assert NextAt(l, run, k);
    var a :| 0 <= a < |run[k].threads| && Step(l, run[k], run[k + 1], a);
    ThreadsStay(l, run[k], run[k + 1], a);
    BusyLeaves(l, run[k], run[k + 1], a, i);
    QueueRunInv(capacity, stride, run, k);
    LeavingMoved(l, run[k], i);
    if run[k].threads[i].role.Pop? {
      FifoDelivery(capacity, stride, run, k, run[k].threads[i].ticket);
    }
  }

  lemma LeavingMoved<T>(l: Layout, s: State<T>, i: nat)
    requires Inv(l, s) && i < |s.threads| && s.threads[i].Busy? && s.threads[i].phase.LeaveCas?
    ensures var pc := s.threads[i];
            && (pc.role.Pop? ==> pc.ticket in s.delivered)
            && (pc.role.Push? ==>
                  pc.val.Some? && pc.ticket < |s.pushLog| && s.pushLog[pc.ticket].val == pc.val.value && l.slotOf(pc.ticket) < |s.slots|
                  && (InSlot(l, s, pc.ticket) || pc.ticket in s.delivered))
  {
    var pc := s.threads[i];
    assert PcOk(l, s, pc);
    if pc.role.Push? {
      OnePlace(l, s, pc.ticket);
      assert s.threads[i].Busy? ==> Owner(s, Push, pc.ticket) == i;
    } else {
      assert Turn(l, Pop, pc.ticket) >= 0;
      assert Passed(l, s, Pop, pc.ticket);
    }
  }

  lemma ReadyEnters<T(!new)>(l: Layout, s: State<T>, s': State<T>, i: nat)
    requires i < |s.threads| == |s'.threads| && Step(l, s, s', i) && s'.threads[i].Busy?
    requires s.threads[i].TryReady? || s.threads[i].RecheckReady? || s.threads[i].CasReady?
    ensures s'.threads[i].ready
  {
  }

  /** A tryObtainReady* call that gets a ticket gets one whose turn has come. */
  lemma ReadyGetsItsTurn<T(!new)>(capacity: nat, stride: nat, run: seq<State<T>>, k: nat, i: nat, role: Role)
    requires QueueRun(capacity, stride, run) && k + 1 < |run| && i < |run[k].threads| && i < |run[k + 1].threads|
    requires InReady(run[k].threads[i], role) && run[k + 1].threads[i].Busy?
    ensures var l, pc := StridedLayout(stride, capacity), run[k + 1].threads[i];
            l.slotOf(pc.ticket) < |run[k + 1].slots| && run[k + 1].slots[l.slotOf(pc.ticket)].turn == Turn(l, pc.role, pc.ticket)
  {
    WhoMoved(StridedLayout(stride, capacity), run, k, i);
    ReadyEnters(StridedLayout(stride, capacity), run[k], run[k + 1], i);
    ReadyNeverBlocks(capacity, stride, run, k + 1, i);
  }

  lemma PromisedEnters<T(!new)>(l: Layout, s: State<T>, s': State<T>, i: nat)
    requires i < |s.threads| == |s'.threads| && Step(l, s, s', i) && InPromised(s.threads[i]) && s'.threads[i].Busy?
    ensures s.threads[i].CasPromised? && s'.threads[i].ticket == s.threads[i].mine && s'.threads[i].role == s.threads[i].role
  {
  }

  /** A tryObtainPromised* call that gets a ticket gets one whose counterpart has been issued. */
  lemma PromisedGetsCounterpart<T(!new)>(capacity: nat, stride: nat, run: seq<State<T>>, k: nat, i: nat)
    requires QueueRun(capacity, stride, run) && k + 1 < |run| && i < |run[k].threads| && i < |run[k + 1].threads|
    requires InPromised(run[k].threads[i]) && run[k + 1].threads[i].Busy?
    ensures var pc := run[k + 1].threads[i];
            if pc.role.Push? then pc.ticket < |run[k].popLog| + capacity else pc.ticket < |run[k].pushLog|
  {
    WhoMoved(StridedLayout(stride, capacity), run, k, i);
    PromisedEnters(StridedLayout(stride, capacity), run[k], run[k + 1], i);
    PromiseIsKept(capacity, stride, run, k, i);
  }
}
