/** MPMCQueue as a step system.  Any number of threads take tickets, wait for their
    turn on a slot through the packed futex word, touch the slot's storage and pass
    the turn on.  One step is one atomic load, compare-and-swap, store, futex sleep
    or futex wake; any thread may take the next step.

    The state also carries history the code does not store: the untruncated turn of
    each slot, whether the turn's owner has already touched the storage, the values
    and owners of all tickets, and the elements delivered so far.  No step's guard
    reads history. */
module MPMCQueue {
  import opened Common
  import opened QueueLayout
  import opened TurnWord

  datatype Role = Push | Pop

  /** Where a thread that owns a ticket is inside waitForTurn, the storage access
      and completeTurn. */
  datatype Phase =
    | Top                          // head of waitForTurn's loop
    | Seen(word: nat, at: nat)     // loaded a word that shows another turn; `at` is history
    | Sleep(word: nat, at: nat)    // about to call futexWait(word)
    | Asleep
    | Inside                       // turn reached, storage not touched yet
    | Leave                        // storage touched, about to load the word
    | LeaveCas(word: nat)          // completeTurn's loop, about to compare-and-swap

  datatype PC<T> =
    | Idle
    | TryReady(role: Role, val: Option<T>, ticket: nat)
    | RecheckReady(role: Role, val: Option<T>, ticket: nat, seen: nat, wasTurn: bool)  // last two: history
    | CasReady(role: Role, val: Option<T>, ticket: nat)
    | TryPromised(role: Role, val: Option<T>, mine: nat)
    | CasPromised(role: Role, val: Option<T>, mine: nat, other: nat)
    | SizeB(pushes: nat)
    | SizeC(pushes: nat, pops: nat, seen: nat)  // seen: the push counter when pops was read
    | SizeD(pushes: nat, pops: nat, seen: nat)  // seen: the pop counter when pushes was read
    | Busy(role: Role, val: Option<T>, ticket: nat, ready: bool, phase: Phase)
    | Wake(slot: nat, turn: nat)   // turn passed on, about to call futexWake

  datatype Slot<T> = Slot(word: nat, item: Option<T>, turn: nat, touched: bool)

  datatype PushRecord<T> = PushRecord(val: T, owner: nat)

  /** The push counter is |pushLog| and the pop counter |popLog|. */
  datatype State<T> = State(
    threads: seq<PC<T>>,
    slots: seq<Slot<T>>,
    pushLog: seq<PushRecord<T>>,
    popLog: seq<nat>,
    delivered: map<nat, T>)

  /** With fewer threads than this the truncated turns stay unambiguous. */
  const MAX_THREADS: nat := 0x100_0000  // 2^24

  function Turn(l: Layout, role: Role, ticket: nat): nat {
    2 * l.lapOf(ticket) + if role.Push? then 0 else 1
  }

  function Counter<T>(s: State<T>, role: Role): nat {
    if role.Push? then |s.pushLog| else |s.popLog|
  }

  function Owner<T>(s: State<T>, role: Role, ticket: nat): nat
    requires ticket < Counter(s, role)
  {
    if role.Push? then s.pushLog[ticket].owner else s.popLog[ticket]
  }

  /** Hands out the next ticket of a role to thread i. */
  function Issue<T>(s: State<T>, i: nat, role: Role, val: Option<T>): (r: State<T>)
    requires role.Push? <==> val.Some?
  {
    if role.Push?
    then s.(pushLog := s.pushLog + [PushRecord(val.value, i)])
    else s.(popLog := s.popLog + [i])
  }

  function Goto<T>(s: State<T>, i: nat, pc: PC<T>): State<T>
    requires i < |s.threads|
  {
    s.(threads := s.threads[i := pc])
  }

  // -------------------------------------------------------------- the steps

  ghost predicate Init<T>(l: Layout, s: State<T>) {
    && |s.threads| < MAX_THREADS
    && (forall i | 0 <= i < |s.threads| :: s.threads[i] == Idle)
    && |s.slots| == l.capacity
    && (forall j | 0 <= j < |s.slots| :: s.slots[j] == Slot(0, None, 0, false))
    && s.pushLog == [] && s.popLog == [] && s.delivered == map[]
  }

  /** blockingWrite / blockingRead: fetch-and-increment of the ticket counter. */
  ghost predicate StartBlocking<T>(l: Layout, s: State<T>, s': State<T>, i: nat, role: Role, val: Option<T>)
    requires i < |s.threads|
  {
    && s.threads[i] == Idle
    && (role.Push? <==> val.Some?)
    && s' == Goto(Issue(s, i, role, val), i, Busy(role, val, Counter(s, role), false, Top))
  }

  /** Entry of tryObtainReady*Ticket, tryObtainPromised*Ticket and size(): the first load. */
  ghost predicate StartTry<T>(s: State<T>, s': State<T>, i: nat, role: Role, val: Option<T>)
    requires i < |s.threads|
  {
    && s.threads[i] == Idle
    && (role.Push? <==> val.Some?)
    && (|| s' == Goto(s, i, TryReady(role, val, Counter(s, role)))
        || s' == Goto(s, i, TryPromised(role, val, Counter(s, role)))
        || s' == Goto(s, i, SizeB(Counter(s, Push))))
  }

  /** mayEnqueue / mayDequeue on the slot of the ticket read before. */
  ghost predicate CheckReady<T>(l: Layout, s: State<T>, s': State<T>, i: nat)
    requires i < |s.threads|
  {
    var pc := s.threads[i];
    && pc.TryReady?
    && l.slotOf(pc.ticket) < |s.slots|
    && var slot := s.slots[l.slotOf(pc.ticket)];
       if DecodeSturn(slot.word) == Sturn(Turn(l, pc.role, pc.ticket))
       then s' == Goto(s, i, CasReady(pc.role, pc.val, pc.ticket))
       else s' == Goto(s, i, RecheckReady(pc.role, pc.val, pc.ticket, Counter(s, pc.role),
                                          slot.turn == Turn(l, pc.role, pc.ticket)))
  }

  /** Reloads the counter: unchanged means the call returns false. */
  ghost predicate ReloadReady<T>(s: State<T>, s': State<T>, i: nat)
    requires i < |s.threads|
  {
    var pc := s.threads[i];
    && pc.RecheckReady?
    && s' == Goto(s, i, if Counter(s, pc.role) == pc.ticket then Idle
                        else TryReady(pc.role, pc.val, Counter(s, pc.role)))
  }

  ghost predicate CasForReady<T>(s: State<T>, s': State<T>, i: nat)
    requires i < |s.threads|
  {
    var pc := s.threads[i];
    && pc.CasReady?
    && (pc.role.Push? <==> pc.val.Some?)
    && s' == if Counter(s, pc.role) == pc.ticket
             then Goto(Issue(s, i, pc.role, pc.val), i, Busy(pc.role, pc.val, pc.ticket, true, Top))
             else Goto(s, i, TryReady(pc.role, pc.val, Counter(s, pc.role)))
  }

  /** Loads the other counter; a push fails when full, a pop when empty. */
  ghost predicate CheckPromised<T>(l: Layout, s: State<T>, s': State<T>, i: nat)
    requires i < |s.threads|
  {
    var pc := s.threads[i];
    && pc.TryPromised?
    && var other := Counter(s, if pc.role.Push? then Pop else Push);
       var fails := if pc.role.Push? then pc.mine - other >= l.capacity else pc.mine >= other;
       s' == Goto(s, i, if fails then Idle else CasPromised(pc.role, pc.val, pc.mine, other))
  }

  ghost predicate CasForPromised<T>(s: State<T>, s': State<T>, i: nat)
    requires i < |s.threads|
  {
    var pc := s.threads[i];
    && pc.CasPromised?
    && (pc.role.Push? <==> pc.val.Some?)
    && s' == if Counter(s, pc.role) == pc.mine
             then Goto(Issue(s, i, pc.role, pc.val), i, Busy(pc.role, pc.val, pc.mine, false, Top))
             else Goto(s, i, TryPromised(pc.role, pc.val, Counter(s, pc.role)))
  }

  /** The alternating loads B, C and D of size(). */
  ghost predicate StepSize<T>(s: State<T>, s': State<T>, i: nat)
    requires i < |s.threads|
  {
    match s.threads[i]
    case SizeB(pushes) =>
      s' == Goto(s, i, SizeC(pushes, |s.popLog|, |s.pushLog|))
    case SizeC(pushes, pops, _) =>
      s' == Goto(s, i, if pushes == |s.pushLog| then Idle else SizeD(|s.pushLog|, pops, |s.popLog|))
    case SizeD(pushes, pops, _) =>
      s' == Goto(s, i, if pops == |s.popLog| then Idle else SizeC(pushes, |s.popLog|, |s.pushLog|))
    case _ => false
  }

  /** The slot a ticket-holding thread works on. */
  predicate OnSlot<T>(l: Layout, s: State<T>, i: nat)
    requires i < |s.threads|
  {
    s.threads[i].Busy? && l.slotOf(s.threads[i].ticket) < |s.slots|
  }

  /** Loads the word: our turn, or remember what was seen. */
  ghost predicate LoadWord<T>(l: Layout, s: State<T>, s': State<T>, i: nat)
    requires i < |s.threads|
  {
    && OnSlot(l, s, i) && s.threads[i].phase.Top?
    && var pc := s.threads[i];
       var slot := s.slots[l.slotOf(pc.ticket)];
       s' == Goto(s, i, pc.(phase := if DecodeSturn(slot.word) == Sturn(Turn(l, pc.role, pc.ticket))
                                     then Inside else Seen(slot.word, slot.turn)))
  }

  /** Spins once more instead of blocking. */
  ghost predicate Spin<T>(s: State<T>, s': State<T>, i: nat)
    requires i < |s.threads|
  {
    var pc := s.threads[i];
    pc.Busy? && pc.phase.Seen? && s' == Goto(s, i, pc.(phase := Top))
  }

  /** Whether waitForTurn needs a compare-and-swap to record this waiter. */
  predicate NeedsRecord(turn: nat, word: nat) {
    var ours := WaiterDelta(turn, word);
    ours > DecodeDelta(word) && Encode(DecodeSturn(word), ours) != word
  }

  /** Already recorded: straight to futexWait. */
  ghost predicate SkipRecord<T>(l: Layout, s: State<T>, s': State<T>, i: nat)
    requires i < |s.threads|
  {
    var pc := s.threads[i];
    && pc.Busy? && pc.phase.Seen?
    && !NeedsRecord(Turn(l, pc.role, pc.ticket), pc.phase.word)
    && s' == Goto(s, i, pc.(phase := Sleep(pc.phase.word, pc.phase.at)))
  }

  /** Raises the waiter delta; a failed compare-and-swap restarts the loop. */
  ghost predicate Record<T>(l: Layout, s: State<T>, s': State<T>, i: nat)
    requires i < |s.threads|
  {
    && OnSlot(l, s, i) && s.threads[i].phase.Seen?
    && var pc := s.threads[i];
       var j := l.slotOf(pc.ticket);
       var turn := Turn(l, pc.role, pc.ticket);
       NeedsRecord(turn, pc.phase.word) &&
       var word := Encode(DecodeSturn(pc.phase.word), WaiterDelta(turn, pc.phase.word));
       s' == if s.slots[j].word == pc.phase.word
             then Goto(s.(slots := s.slots[j := s.slots[j].(word := word)]), i,
                       pc.(phase := Sleep(word, pc.phase.at)))
             else Goto(s, i, pc.(phase := Top))
  }

  /** futexWait sleeps only if the word still has the expected value. */
  ghost predicate FutexWait<T>(l: Layout, s: State<T>, s': State<T>, i: nat)
    requires i < |s.threads|
  {
    && OnSlot(l, s, i) && s.threads[i].phase.Sleep?
    && var pc := s.threads[i];
       s' == Goto(s, i, pc.(phase := if s.slots[l.slotOf(pc.ticket)].word == pc.phase.word then Asleep else Top))
  }

  ghost predicate SpuriousWake<T>(s: State<T>, s': State<T>, i: nat)
    requires i < |s.threads|
  {
    var pc := s.threads[i];
    pc.Busy? && pc.phase.Asleep? && s' == Goto(s, i, pc.(phase := Top))
  }

  /** The storage access: a push constructs the element, a pop moves it out. */
  ghost predicate Touch<T>(l: Layout, s: State<T>, s': State<T>, i: nat)
    requires i < |s.threads|
  {
    && OnSlot(l, s, i) && s.threads[i].phase.Inside?
    && var pc := s.threads[i];
       var j := l.slotOf(pc.ticket);
       match pc.role
       case Push =>
         s' == Goto(s.(slots := s.slots[j := s.slots[j].(item := pc.val, touched := true)]), i, pc.(phase := Leave))
       case Pop =>
         && s.slots[j].item.Some?
         && s' == Goto(s.(slots := s.slots[j := s.slots[j].(item := None, touched := true)],
                          delivered := s.delivered[pc.ticket := s.slots[j].item.value]), i, pc.(phase := Leave))
  }

  ghost predicate LoadForLeave<T>(l: Layout, s: State<T>, s': State<T>, i: nat)
    requires i < |s.threads|
  {
    && OnSlot(l, s, i) && s.threads[i].phase.Leave?
    && var pc := s.threads[i];
       s' == Goto(s, i, pc.(phase := LeaveCas(s.slots[l.slotOf(pc.ticket)].word)))
  }

  /** The word completeTurn installs. */
  function NextWord(turn: nat, word: nat): nat {
    Encode(Sturn(turn + 1), if DecodeDelta(word) == 0 then 0 else DecodeDelta(word) - 1)
  }

  /** completeTurn: a successful compare-and-swap passes the turn on. */
  ghost predicate Complete<T>(l: Layout, s: State<T>, s': State<T>, i: nat)
    requires i < |s.threads|
  {
    && OnSlot(l, s, i) && s.threads[i].phase.LeaveCas?
    && var pc := s.threads[i];
       var j := l.slotOf(pc.ticket);
       var turn := Turn(l, pc.role, pc.ticket);
       s' == if s.slots[j].word == pc.phase.word
             then Goto(s.(slots := s.slots[j := s.slots[j].(word := NextWord(turn, pc.phase.word),
                                                            turn := s.slots[j].turn + 1, touched := false)]),
                       i, if DecodeDelta(pc.phase.word) != 0 then Wake(j, turn + 1) else Idle)
             else Goto(s, i, pc.(phase := LeaveCas(s.slots[j].word)))
  }

  /** Is this thread asleep on a channel of a slot? */
  predicate SleepsOn<T>(l: Layout, pc: PC<T>, slot: nat, channel: nat) {
    && pc.Busy? && pc.phase.Asleep?
    && l.slotOf(pc.ticket) == slot
    && Channel(Turn(l, pc.role, pc.ticket)) == channel
  }

  /** futexWake: everybody asleep on the slot's channel runs again. */
  ghost predicate FutexWake<T>(l: Layout, s: State<T>, s': State<T>, i: nat)
    requires i < |s.threads|
  {
    var pc := s.threads[i];
    && pc.Wake?
    && s' == s.(threads := s'.threads) && |s'.threads| == |s.threads|
    && s'.threads[i] == Idle
    && forall k | 0 <= k < |s.threads| && k != i ::
         s'.threads[k] == if SleepsOn(l, s.threads[k], pc.slot, Channel(pc.turn))
                          then s.threads[k].(phase := Top) else s.threads[k]
  }

  ghost predicate Step<T(!new)>(l: Layout, s: State<T>, s': State<T>, i: nat)
    requires i < |s.threads|
  {
    || (exists role, val :: StartBlocking(l, s, s', i, role, val))
    || (exists role, val :: StartTry(s, s', i, role, val))
    || CheckReady(l, s, s', i) || ReloadReady(s, s', i) || CasForReady(s, s', i)
    || CheckPromised(l, s, s', i) || CasForPromised(s, s', i) || StepSize(s, s', i)
    || LoadWord(l, s, s', i) || Spin(s, s', i) || SkipRecord(l, s, s', i) || Record(l, s, s', i)
    || FutexWait(l, s, s', i) || SpuriousWake(s, s', i) || Touch(l, s, s', i)
    || LoadForLeave(l, s, s', i) || Complete(l, s, s', i) || FutexWake(l, s, s', i)
  }

  ghost predicate Next<T(!new)>(l: Layout, s: State<T>, s': State<T>) {
    exists i :: 0 <= i < |s.threads| && Step(l, s, s', i)
  }

  ghost predicate NextAt<T(!new)>(l: Layout, run: seq<State<T>>, k: nat)
    requires k + 1 < |run|
  {
    Next(l, run[k], run[k + 1])
  }

  ghost predicate IsRun<T(!new)>(l: Layout, run: seq<State<T>>) {
    && |run| > 0 && Init(l, run[0])
    && forall k | 0 <= k < |run| - 1 :: NextAt(l, run, k)
  }
}
