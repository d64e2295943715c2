/**
 * The skip list as a set: add and remove take effect at one instant inside the call, what they
 * report was true at an instant inside the call, and so it is for find up to adds that are not
 * finished.
 */
module SkipListSet {
  import opened Common
  import opened SkipList
  import opened SkipListProof

  // ------------------------------------------------------------------------ the set

  /** A node that counts: fully linked and not marked. */
  ghost predicate Present(s: State, n: nat) {
    IsNode(s, n) && s.nodes[n].rank > 0 && s.nodes[n].linked && !s.nodes[n].marked
  }

  ghost predicate Contains(s: State, r: nat) {
    exists n: nat :: Present(s, n) && s.nodes[n].rank == r
  }

  /** Node n is linked at the bottom and not marked. */
  ghost predicate Visible(s: State, n: nat) {
    IsNode(s, n) && InLayer(s, n, 0) && !s.nodes[n].marked
  }

  ghost predicate Shows(s: State, r: nat) {
    exists n: nat :: Visible(s, n) && s.nodes[n].rank == r
  }

  /** A layer holds a key at most once. */
  lemma OneInLayer(s: State, n: nat, m: nat, l: nat)
    requires Inv(s) && InLayer(s, n, l) && InLayer(s, m, l)
    requires IsNode(s, n) && IsNode(s, m) && s.nodes[n].rank == s.nodes[m].rank
    ensures n == m
  {
    Built(s);
    var c := s.chain[l];
    assert LayerAt(s.nodes, s.head, c, l);
    var i :| 0 <= i < |c| && c[i] == n;
    var j :| 0 <= j < |c| && c[j] == m;
    if i < j {
      RanksRise(s.nodes, s.head, c, l, i, j);
    } else if j < i {
      RanksRise(s.nodes, s.head, c, l, j, i);
    }
  }

  lemma PresentIsVisible(s: State, n: nat)
    requires Inv(s) && Present(s, n)
    ensures Visible(s, n)
  {
    Built(s);
    assert LinkedAt(s, n) && NodeAt(s, n);
    assert InLayer(s, n, 0);
  }

  lemma OneVisible(s: State, n: nat, m: nat)
    requires Inv(s) && Visible(s, n) && Visible(s, m) && s.nodes[n].rank == s.nodes[m].rank
    ensures n == m
  {
    OneInLayer(s, n, m, 0);
  }

  /** What find may see beyond the set are nodes that an add is still linking. */
  lemma VisibleIsPresentOrNew(run: seq<State>, k: nat, n: nat)
    requires IsRun(run) && k < |run| && Visible(run[k], n)
    ensures var s := run[k];
            Present(s, n) || (n in s.maker && s.maker[n] < |s.threads| && Links(s.threads[s.maker[n]], n))
  {
    RunInv(run, k);
    Built(run[k]);
    LayerNode(run[k], n, 0);
    RunLinks(run, k);
    assert MakerAt(run[k], n);
  }

  // -------------------------------------------------------------- steps on the set

  /** Steps that leave the flags of all key nodes alone. */
  lemma FlagsKept(s: State, s': State, t: nat)
    requires Inv(s) && t < |s.threads| && Step(s, s', t) && !s.threads[t].LinkFlag? && !s.threads[t].RemoveMark?
    ensures |s.nodes| <= |s'.nodes|
    ensures forall n: nat | IsNode(s, n) && s.nodes[n].rank > 0 ::
              s'.nodes[n].rank == s.nodes[n].rank && s'.nodes[n].linked == s.nodes[n].linked && s'.nodes[n].marked == s.nodes[n].marked
    ensures forall n: nat | IsNode(s, n) :: s'.nodes[n].rank == s.nodes[n].rank
    ensures forall n: nat | IsNode(s', n) && !IsNode(s, n) :: !s'.nodes[n].linked
  {
    Known(s, t);
    var pc := s.threads[t];
    if pc.GrowMark? {
      assert Parts(s);
      assert RetiredAt(s, pc.prev);
    } else if InChange(pc) {
      ChangeFlags(s, s', t);
    } else if InGrowth(pc) {
      GrowthFlags(s, s', t);
    } else {
      LookFlags(s, s', t);
    }
  }

  ghost predicate SameFlags(s: State, s': State) {
    |s'.nodes| == |s.nodes| && forall n: nat | IsNode(s, n) ::
      s'.nodes[n].rank == s.nodes[n].rank && s'.nodes[n].linked == s.nodes[n].linked && s'.nodes[n].marked == s.nodes[n].marked
  }

  lemma ChangeFlags(s: State, s': State, t: nat)
    requires t < |s.threads| && Step(s, s', t) && InChange(s.threads[t]) && !s.threads[t].LinkFlag?
    ensures if s.threads[t].Create? then s'.nodes[..|s.nodes|] == s.nodes && |s'.nodes| == |s.nodes| + 1 && !s'.nodes[|s.nodes|].linked
            else SameFlags(s, s')
  {
  }

  lemma GrowthFlags(s: State, s': State, t: nat)
    requires t < |s.threads| && Step(s, s', t) && InGrowth(s.threads[t]) && !s.threads[t].GrowMark?
    ensures if s.threads[t].GrowCreate? then s'.nodes[..|s.nodes|] == s.nodes && |s'.nodes| == |s.nodes| + 1 && !s'.nodes[|s.nodes|].linked
            else if s.threads[t].GrowFlags? then
              var n := s.threads[t].node;
              IsNode(s, n) && |s'.nodes| == |s.nodes| && s'.nodes == s.nodes[n := s'.nodes[n]] && s'.nodes[n].rank == s.nodes[n].rank
            else SameFlags(s, s')
  {
  }

  lemma LookFlags(s: State, s': State, t: nat)
    requires t < |s.threads| && Step(s, s', t) && !InChange(s.threads[t]) && !InGrowth(s.threads[t]) && !s.threads[t].RemoveMark?
    ensures SameFlags(s, s')
  {
  }

  /** The abstract steps. */
  ghost predicate SameSet(s: State, s': State) { forall r :: Contains(s', r) <==> Contains(s, r) }

  ghost predicate Adds(s: State, s': State, r: nat) {
    !Contains(s, r) && Contains(s', r) && forall x | x != r :: Contains(s', x) <==> Contains(s, x)
  }

  ghost predicate Removes(s: State, s': State, r: nat) {
    Contains(s, r) && !Contains(s', r) && forall x | x != r :: Contains(s', x) <==> Contains(s, x)
  }

  lemma SameSetStep(s: State, s': State, t: nat)
    requires Inv(s) && t < |s.threads| && Step(s, s', t) && !s.threads[t].LinkFlag? && !s.threads[t].RemoveMark?
    ensures SameSet(s, s')
  {
    FlagsKept(s, s', t);
    forall r ensures Contains(s', r) <==> Contains(s, r) {
      if n: nat :| Present(s, n) && s.nodes[n].rank == r {
        assert Present(s', n);
      }
      if n: nat :| Present(s', n) && s'.nodes[n].rank == r {
        assert Present(s, n);
      }
    }
  }

  /** Setting a flag of one node. */
  lemma OtherPresent(s: State, s': State, n: nat, x: nat)
    requires IsNode(s, n) && |s'.nodes| == |s.nodes| && s'.nodes == s.nodes[n := s'.nodes[n]] && s'.nodes[n].rank == s.nodes[n].rank
    requires x != s.nodes[n].rank
    ensures Contains(s', x) <==> Contains(s, x)
  {
    if m: nat :| Present(s, m) && s.nodes[m].rank == x {
      assert Present(s', m);
    }
    if m: nat :| Present(s', m) && s'.nodes[m].rank == x {
      assert Present(s, m);
    }
  }

  /** An add takes effect when it marks its node fully linked: the key was not there. */
  lemma AddTakesEffect(s: State, s': State, t: nat)
    requires Inv(s) && Inv(s') && t < |s.threads| && StepLinkFlag(s, s', t)
    ensures Adds(s, s', s.threads[t].q.op.rank)
  {
    var pc := s.threads[t];
    Known(s, t);
    var n, r := pc.node, pc.q.op.rank;
    assert Present(s', n);
    if m: nat :| Present(s, m) && s.nodes[m].rank == r {
      PresentIsVisible(s, m);
      Built(s);
      assert NodeAt(s, n);
      assert InLayer(s, n, 0);
      OneVisible(s, n, m);
    }
    forall x | x != r ensures Contains(s', x) <==> Contains(s, x) {
      OtherPresent(s, s', n, x);
    }
  }

  /** A remove takes effect when it marks its node: the key was there. */
  lemma RemoveTakesEffect(s: State, s': State, t: nat)
    requires Inv(s) && Inv(s') && t < |s.threads| && StepRemoveMark(s, s', t)
    ensures Removes(s, s', s.threads[t].q.op.rank)
  {
    var pc := s.threads[t];
    Known(s, t);
    var n, r := pc.q.found, pc.q.op.rank;
    assert Present(s, n);
    if m: nat :| Present(s', m) && s'.nodes[m].rank == r {
      assert Present(s, m);
      PresentIsVisible(s, m);
      PresentIsVisible(s, n);
      OneVisible(s, n, m);
    }
    forall x | x != r ensures Contains(s', x) <==> Contains(s, x) {
      OtherPresent(s, s', n, x);
    }
  }

  /** Every step adds the key of an add, removes that of a remove, or leaves the set alone. */
  lemma StepsOnSet(run: seq<State>, k: nat) returns (t: nat)
    requires IsRun(run) && k + 1 < |run|
    ensures StepBy(run, k, t)
    ensures if run[k].threads[t].LinkFlag? then Adds(run[k], run[k + 1], run[k].threads[t].q.op.rank)
            else if run[k].threads[t].RemoveMark? then Removes(run[k], run[k + 1], run[k].threads[t].q.op.rank)
            else SameSet(run[k], run[k + 1])
  {
    RunInv(run, k);
    RunInv(run, k + 1);
    assert NextAt(run, k);
    t :| StepBy(run, k, t);
    if run[k].threads[t].LinkFlag? {
      AddTakesEffect(run[k], run[k + 1], t);
    } else if run[k].threads[t].RemoveMark? {
      RemoveTakesEffect(run[k], run[k + 1], t);
    } else {
      SameSetStep(run[k], run[k + 1], t);
    }
  }

  // ------------------------------------------------------------------------ looking back

  /** n is the head or linked at layer l. */
  ghost predicate Member(s: State, n: nat, l: nat) { l < |s.chain| && (n == s.head || n in s.chain[l]) }

  /** No node of layer l has rank r. */
  ghost predicate Lacks(s: State, l: nat, r: nat) {
    l < |s.chain| && forall n: nat | n in s.chain[l] && IsNode(s, n) :: s.nodes[n].rank != r
  }

  /** n is, or was, the head or linked at layer l. */
  ghost predicate Past(s: State, n: nat, l: nat) {
    HasLayer(s, n, l) && (Member(s, n, l) || (s.nodes[n].rank == 0 && n in s.retired) || (s.nodes[n].rank > 0 && s.nodes[n].marked))
  }

  /** The pointer of a member leads to the next node of the layer. */
  lemma NextOf(s: State, n: nat, l: nat)
    requires Inv(s) && Member(s, n, l)
    ensures HasLayer(s, n, l)
    ensures var m := s.nodes[n].skip[l];
            && (m != 0 ==> IsNode(s, m) && InLayer(s, m, l))
            && forall x: nat | x in s.chain[l] && IsNode(s, x) ::
                 s.nodes[x].rank <= s.nodes[n].rank || (m != 0 && s.nodes[x].rank >= s.nodes[m].rank)
  {
    Built(s);
    var c := s.chain[l];
    assert LayerAt(s.nodes, s.head, c, l) && NodeAt(s, s.head);
    if n == s.head {
      NextOfHead(s, l);
    } else {
      var i :| 0 <= i < |c| && c[i] == n;
      assert LinkAt(s.nodes, c, l, i);
      assert i + 1 < |c| ==> LinkAt(s.nodes, c, l, i + 1);
      forall x: nat | x in c && IsNode(s, x)
        ensures s.nodes[x].rank <= s.nodes[n].rank || (i + 1 < |c| && s.nodes[x].rank >= s.nodes[c[i + 1]].rank)
      {
        var j :| 0 <= j < |c| && c[j] == x;
        if j <= i {
          RanksRise(s.nodes, s.head, c, l, j, i);
        } else {
          RanksRise(s.nodes, s.head, c, l, i + 1, j);
        }
      }
    }
  }

  lemma NextOfHead(s: State, l: nat)
    requires Struct(s) && l < |s.chain|
    ensures HasLayer(s, s.head, l)
    ensures var m := s.nodes[s.head].skip[l];
            && (m != 0 ==> IsNode(s, m) && InLayer(s, m, l))
            && forall x: nat | x in s.chain[l] && IsNode(s, x) :: m != 0 && s.nodes[x].rank >= s.nodes[m].rank
  {
    var c := s.chain[l];
    assert LayerAt(s.nodes, s.head, c, l) && NodeAt(s, s.head);
    assert c != [] ==> LinkAt(s.nodes, c, l, 0);
    forall x: nat | x in c && IsNode(s, x) ensures s.nodes[x].rank >= s.nodes[c[0]].rank {
      var j :| 0 <= j < |c| && c[j] == x;
      RanksRise(s.nodes, s.head, c, l, 0, j);
    }
  }

  lemma MemberIsPast(s: State, n: nat, l: nat)
    requires Inv(s) && Member(s, n, l)
    ensures Past(s, n, l)
  {
    NextOf(s, n, l);
  }

  /** What left a layer stays out, and a step that leaves it out leaves its pointer alone. */
  lemma PastStays(s: State, s': State, t: nat, n: nat, l: nat)
    requires Struct(s) && Gentle(s, s', t) && Past(s, n, l)
    ensures Past(s', n, l) && s'.nodes[n].rank == s.nodes[n].rank
    ensures !Member(s', n, l) ==> s'.nodes[n].skip[l] == s.nodes[n].skip[l]
  {
    assert NodeGentle(s, s', t, n);
    if InLayer(s, n, l) {
      LayerNode(s, n, l);
      assert LayerGentle(s, s', t, l);
    }
  }

  lemma RunPastStays(run: seq<State>, k: nat, n: nat, l: nat)
    requires IsRun(run) && k + 1 < |run| && Past(run[k], n, l)
    ensures Past(run[k + 1], n, l) && run[k + 1].nodes[n].rank == run[k].nodes[n].rank
    ensures !Member(run[k + 1], n, l) ==> run[k + 1].nodes[n].skip[l] == run[k].nodes[n].skip[l]
  {
    var t := RunGentle(run, k);
    RunInv(run, k);
    Built(run[k]);
    PastStays(run[k], run[k + 1], t, n, l);
  }

  lemma RunGentle(run: seq<State>, k: nat) returns (t: nat)
    requires IsRun(run) && k + 1 < |run|
    ensures StepBy(run, k, t) && Gentle(run[k], run[k + 1], t) && OthersStay(run[k], run[k + 1], t)
  {
    RunInv(run, k);
    assert NextAt(run, k);
    t :| StepBy(run, k, t);
    StepInv(run[k], run[k + 1], t);
    OthersAlone(run[k], run[k + 1], t);
  }

  /** A pointer found at state e in a node that was a member at state b was the pointer of a
      member at some state in between. */
  lemma {:induction false} LookBack(run: seq<State>, n: nat, l: nat, b: nat, e: nat) returns (x: nat)
    requires IsRun(run) && b <= e < |run| && Member(run[b], n, l)
    ensures b <= x <= e && Member(run[x], n, l) && Past(run[x], n, l) && Past(run[e], n, l)
    ensures run[x].nodes[n].skip[l] == run[e].nodes[n].skip[l] && run[x].nodes[n].rank == run[e].nodes[n].rank
    decreases e
  {
    RunInv(run, e);
    if Member(run[e], n, l) {
      x := e;
      MemberIsPast(run[e], n, l);
    } else {
      x := LookBack(run, n, l, b, e - 1);
      RunPastStays(run, e - 1, n, l);
    }
  }

  // ------------------------------------------------------------- what a search has passed

  /** n was a member of layer l at a state from b to e. */
  ghost predicate Seen(run: seq<State>, n: nat, l: nat, b: nat, e: nat) {
    exists x: nat :: b <= x <= e < |run| && Member(run[x], n, l)
  }

  /** m was linked at layer l at a state from b to e. */
  ghost predicate Met(run: seq<State>, m: nat, l: nat, b: nat, e: nat) {
    exists x: nat :: b <= x <= e < |run| && InLayer(run[x], m, l)
  }

  /** Layer l lacked rank r at a state from b to e. */
  ghost predicate Missed(run: seq<State>, l: nat, r: nat, b: nat, e: nat) {
    exists x: nat :: b <= x <= e < |run| && Lacks(run[x], l, r)
  }

  /** A member's pointer led to m at a state from b to e. */
  ghost predicate Led(run: seq<State>, n: nat, l: nat, m: nat, b: nat, e: nat) {
    exists x: nat :: b <= x <= e < |run| && Member(run[x], n, l) && HasLayer(run[x], n, l) && run[x].nodes[n].skip[l] == m
  }

  /** The pointer a search loads. */
  lemma Loads(run: seq<State>, n: nat, l: nat, b: nat, e: nat)
    requires IsRun(run) && Seen(run, n, l, b, e)
    ensures HasLayer(run[e], n, l) && Led(run, n, l, run[e].nodes[n].skip[l], b, e)
  {
    var y: nat :| b <= y <= e < |run| && Member(run[y], n, l);
    var x := LookBack(run, n, l, y, e);
  }

  /** Ranks do not change. */
  lemma {:induction false} RankStays(run: seq<State>, n: nat, b: nat, e: nat)
    requires IsRun(run) && b <= e < |run| && IsNode(run[b], n)
    ensures IsNode(run[e], n) && run[e].nodes[n].rank == run[b].nodes[n].rank
    ensures run[e].nodes[n].height == run[b].nodes[n].height
    ensures run[b].nodes[n].marked ==> run[e].nodes[n].marked
    ensures run[b].nodes[n].linked ==> run[e].nodes[n].linked
    decreases e
  {
    if b < e {
      RankStays(run, n, b, e - 1);
      var t := RunGentle(run, e - 1);
      assert NodeGentle(run[e - 1], run[e], t, n);
    }
  }

  /** What it says about the keys of the layer. */
  lemma LedOnward(run: seq<State>, n: nat, l: nat, m: nat, b: nat, e: nat, r: nat)
    requires IsRun(run) && Led(run, n, l, m, b, e) && IsNode(run[e], n) && run[e].nodes[n].rank < r
    requires m < |run[e].nodes|
    ensures m != 0 ==> Met(run, m, l, b, e)
    ensures m == 0 || run[e].nodes[m].rank > r ==> Missed(run, l, r, b, e)
  {
    var x: nat :| b <= x <= e < |run| && Member(run[x], n, l) && HasLayer(run[x], n, l) && run[x].nodes[n].skip[l] == m;
    RunInv(run, x);
    NextOf(run[x], n, l);
    RankStays(run, n, x, e);
    if m != 0 {
      RankStays(run, m, x, e);
      assert InLayer(run[x], m, l);
    }
    if m == 0 || run[e].nodes[m].rank > r {
      assert Lacks(run[x], l, r);
    }
  }

  /** Nodes met at a layer were met at the layer below, too. */
  lemma MetBelow(run: seq<State>, m: nat, l: nat, j: nat, b: nat, e: nat)
    requires IsRun(run) && Met(run, m, l, b, e) && j <= l
    ensures Met(run, m, j, b, e)
  {
    var x: nat :| b <= x <= e < |run| && InLayer(run[x], m, l);
    RunInv(run, x);
    Built(run[x]);
    LinkedBelow(run[x], m, l, j);
    assert InLayer(run[x], m, j);
  }

  lemma {:induction false} LinkedBelow(s: State, m: nat, l: nat, j: nat)
    requires Nested(s) && InLayer(s, m, l) && j <= l
    ensures InLayer(s, m, j)
    decreases l
  {
    if j < l {
      assert NestedAt(s, l);
      LinkedBelow(s, m, l - 1, j);
    }
  }

  lemma SeenBelow(run: seq<State>, n: nat, l: nat, b: nat, e: nat)
    requires IsRun(run) && Seen(run, n, l, b, e) && l > 0
    ensures Seen(run, n, l - 1, b, e)
  {
    var x: nat :| b <= x <= e < |run| && Member(run[x], n, l);
    RunInv(run, x);
    Built(run[x]);
    assert NestedAt(run[x], l);
    assert Member(run[x], n, l - 1);
  }

  // ------------------------------------------------------------------ at some instant

  /** Marked or not linked yet: then the key was not in the set when the node was met, or when
      it left. */
  lemma {:induction false} MetNotPresent(run: seq<State>, n: nat, r: nat, b: nat, e: nat) returns (y: nat)
    requires IsRun(run) && b <= e < |run| && InLayer(run[b], n, 0) && IsNode(run[b], n) && run[b].nodes[n].rank == r
    requires IsNode(run[e], n) && !Present(run[e], n)
    ensures b <= y <= e && !Contains(run[y], r) && (run[e].nodes[n].marked ==> !Shows(run[y], r))
    decreases e
  {
    RunInv(run, e);
    RankStays(run, n, b, e);
    if InLayer(run[e], n, 0) {
      y := e;
      Built(run[e]);
      LayerNode(run[e], n, 0);
      Hidden(run[e], n, r);
    } else {
      RankStays(run, n, b, e - 1);
      LeavesMarked(run, n, b, e);
      y := MetNotPresent(run, n, r, b, e - 1);
    }
  }

  /** A node linked at the bottom hides all others with its key. */
  lemma Hidden(s: State, n: nat, r: nat)
    requires Inv(s) && InLayer(s, n, 0) && IsNode(s, n) && s.nodes[n].rank == r && !Present(s, n)
    ensures !Contains(s, r) && (s.nodes[n].marked ==> !Shows(s, r))
  {
    if m: nat :| Present(s, m) && s.nodes[m].rank == r {
      PresentIsVisible(s, m);
      OneInLayer(s, n, m, 0);
    }
    if s.nodes[n].marked {
      if m: nat :| Visible(s, m) && s.nodes[m].rank == r {
        OneInLayer(s, n, m, 0);
      }
    }
  }

  /** A node that was linked and is no more was marked before it left. */
  lemma {:induction false} LeavesMarked(run: seq<State>, n: nat, b: nat, e: nat)
    requires IsRun(run) && b < e < |run| && InLayer(run[b], n, 0) && !InLayer(run[e], n, 0)
    ensures IsNode(run[e - 1], n) && run[e - 1].nodes[n].marked
    decreases e
  {
    RunInv(run, b);
    Built(run[b]);
    LayerNode(run[b], n, 0);
    RankStays(run, n, b, e - 1);
    var t := RunGentle(run, e - 1);
    if InLayer(run[e - 1], n, 0) {
      assert LayerGentle(run[e - 1], run[e], t, 0);
    } else {
      LeavesMarked(run, n, b, e - 1);
      RankStays(run, n, e - 2, e - 1);
    }
  }

  /** A node linked at the bottom and not marked is still there. */
  lemma StaysVisible(run: seq<State>, n: nat, b: nat, e: nat)
    requires IsRun(run) && b <= e < |run| && InLayer(run[b], n, 0) && IsNode(run[e], n) && !run[e].nodes[n].marked
    ensures Visible(run[e], n)
  {
    if !InLayer(run[e], n, 0) {
      LeavesMarked(run, n, b, e);
      RankStays(run, n, e - 1, e);
    }
  }

  /** From one node with the key to another the key was absent in between. */
  lemma {:induction false} SamePresence(run: seq<State>, n: nat, r: nat, b: nat, e: nat) returns (y: nat)
    requires IsRun(run) && b <= e < |run| && !Present(run[b], n) && Present(run[e], n) && run[e].nodes[n].rank == r
    ensures b <= y <= e && !Contains(run[y], r)
    decreases e
  {
    var t := StepsOnSet(run, e - 1);
    if Present(run[e - 1], n) {
      RankStays(run, n, e - 1, e);
      y := SamePresence(run, n, r, b, e - 1);
    } else {
      y := e - 1;
      RunInv(run, e - 1);
      RunInv(run, e);
      BecomesPresent(run[e - 1], run[e], t, n);
    }
  }

  /** Only the end of an add makes a node count. */
  lemma BecomesPresent(s: State, s': State, t: nat, n: nat)
    requires Inv(s) && Inv(s') && t < |s.threads| && Step(s, s', t) && !Present(s, n) && Present(s', n)
    ensures !Contains(s, s'.nodes[n].rank)
  {
    if s.threads[t].LinkFlag? {
      AddTakesEffect(s, s', t);
      assert n == s.threads[t].node;
    } else if !s.threads[t].RemoveMark? {
      FlagsKept(s, s', t);
    }
  }

  // ------------------------------------------------------------- the search of add and remove

  /** Thread t is inside a call from state b to state e. */
  ghost predicate Since(run: seq<State>, t: nat, b: nat, e: nat) {
    b <= e < |run| && forall x | b <= x <= e :: t < |run[x].threads| && !run[x].threads[t].Idle?
  }

  /** The key was not met at layer l or above. */
  predicate Open(q: Search, l: nat) { l <= q.top && (q.found == 0 || l > q.layer) }

  /** What a search begun at state b has found out in the layers from lo up. */
  ghost predicate Facts(run: seq<State>, b: nat, e: nat, q: Search, lo: nat) {
    && b <= e < |run| && |run[b].chain| == q.top + 1
    && (forall l: nat | lo <= l && Open(q, l) :: Missed(run, l, q.op.rank, b, e))
    && (q.found != 0 ==> lo <= q.layer <= q.top && Met(run, q.found, q.layer, b, e))
  }

  ghost predicate History(run: seq<State>, b: nat, e: nat, pc: PC) {
    match pc
    case FindHead(_, top) => b < |run| && |run[b].chain| == top + 1
    case Walk(q, at, pred) => at <= q.top && Facts(run, b, e, q, at + 1) && Seen(run, pred, at, b, e)
    case RemoveLinked(q) => Facts(run, b, e, q, 0)
    case RemoveMarked(q) => Facts(run, b, e, q, 0)
    case RemoveLock(q) => Facts(run, b, e, q, 0)
    case RemoveCheck(q) => Facts(run, b, e, q, 0)
    case _ => false
  }

  predicate Tracked(pc: PC) {
    pc.FindHead? || pc.Walk? || pc.RemoveLinked? || pc.RemoveMarked? || pc.RemoveLock? || pc.RemoveCheck?
  }

  lemma FactsLater(run: seq<State>, b: nat, e: nat, q: Search, lo: nat)
    requires Facts(run, b, e, q, lo) && e + 1 < |run|
    ensures Facts(run, b, e + 1, q, lo)
  {
    forall l: nat | lo <= l && Open(q, l) ensures Missed(run, l, q.op.rank, b, e + 1) {
      assert Missed(run, l, q.op.rank, b, e);
    }
  }

  lemma HistoryLater(run: seq<State>, b: nat, e: nat, pc: PC)
    requires History(run, b, e, pc) && e + 1 < |run|
    ensures History(run, b, e + 1, pc)
  {
    match pc
    case Walk(q, at, _) => FactsLater(run, b, e, q, at + 1);
    case RemoveLinked(q) => FactsLater(run, b, e, q, 0);
    case RemoveMarked(q) => FactsLater(run, b, e, q, 0);
    case RemoveLock(q) => FactsLater(run, b, e, q, 0);
    case RemoveCheck(q) => FactsLater(run, b, e, q, 0);
    case _ =>
  }

  /** One layer more. */
  lemma RecordFacts(run: seq<State>, b: nat, e: nat, q: Search, at: nat, pred: nat, node: nat)
    requires IsRun(run) && Facts(run, b, e, q, at + 1) && at <= q.top && Led(run, pred, at, node, b, e)
    requires IsNode(run[e], pred) && run[e].nodes[pred].rank < q.op.rank && node < |run[e].nodes|
    requires node == 0 || run[e].nodes[node].rank >= q.op.rank
    requires at < |q.preds| && at < |q.succs|
    ensures Facts(run, b, e, Record(run[e], q, at, pred, node), at)
  {
    LedOnward(run, pred, at, node, b, e, q.op.rank);
    var q' := Record(run[e], q, at, pred, node);
    forall l: nat | at <= l && Open(q', l) ensures Missed(run, l, q.op.rank, b, e) {
      if l > at {
        assert Open(q, l);
      }
    }
  }

  lemma WalkHistory(run: seq<State>, t: nat, b: nat, e: nat)
    requires IsRun(run) && e + 1 < |run| && t < |run[e].threads| && StepWalk(run[e], run[e + 1], t)
    requires History(run, b, e, run[e].threads[t])
    ensures t < |run[e + 1].threads|
    ensures Tracked(run[e + 1].threads[t]) ==> History(run, b, e, run[e + 1].threads[t])
    ensures var pc := run[e].threads[t]; var node := run[e].nodes[pc.pred].skip[pc.at];
            node == 0 || run[e].nodes[node].rank >= pc.q.op.rank ==>
              Facts(run, b, e, Record(run[e], pc.q, pc.at, pc.pred, node), pc.at)
  {
    RunInv(run, e);
    Known(run[e], t);
    var pc := run[e].threads[t];
    var node := run[e].nodes[pc.pred].skip[pc.at];
    Loads(run, pc.pred, pc.at, b, e);
    if node != 0 && run[e].nodes[node].rank < pc.q.op.rank {
      LedOnward(run, pc.pred, pc.at, node, b, e, pc.q.op.rank);
      MetIsSeen(run, node, pc.at, b, e);
    } else {
      RecordFacts(run, b, e, pc.q, pc.at, pc.pred, node);
      if pc.at > 0 {
        SeenBelow(run, pc.pred, pc.at, b, e);
      }
    }
  }

  lemma MetIsSeen(run: seq<State>, m: nat, l: nat, b: nat, e: nat)
    requires Met(run, m, l, b, e)
    ensures Seen(run, m, l, b, e)
  {
    var x: nat :| b <= x <= e < |run| && InLayer(run[x], m, l);
    assert Member(run[x], m, l);
  }

  lemma HeadHistory(run: seq<State>, t: nat, b: nat, e: nat)
    requires IsRun(run) && e + 1 < |run| && t < |run[e].threads| && StepFindHead(run[e], run[e + 1], t)
    requires History(run, b, e, run[e].threads[t]) && b <= e
    ensures t < |run[e + 1].threads| && History(run, b, e, run[e + 1].threads[t])
  {
    RunInv(run, e);
    Known(run[e], t);
    assert Member(run[e], run[e].head, run[e].threads[t].top);
  }

  /** A step of the thread itself. */
  lemma OwnHistory(run: seq<State>, t: nat, b: nat, e: nat)
    requires IsRun(run) && e + 1 < |run| && StepBy(run, e, t) && Tracked(run[e].threads[t]) && b <= e
    requires History(run, b, e, run[e].threads[t]) && t < |run[e + 1].threads| && Tracked(run[e + 1].threads[t])
    ensures History(run, b, e, run[e + 1].threads[t])
  {
    var pc := run[e].threads[t];
    if pc.FindHead? {
      HeadHistory(run, t, b, e);
    } else if pc.Walk? {
      WalkHistory(run, t, b, e);
    }
  }

  lemma ChangeLeads(s: State, s': State, t: nat)
    requires t < |s.threads| && Step(s, s', t) && (InChange(s.threads[t]) || InGrowth(s.threads[t]))
    ensures t < |s'.threads| && !Tracked(s'.threads[t])
  {
    if InGrowth(s.threads[t]) {
      GrowthLeads(s, s', t);
    } else if s.threads[t].Unlock? || s.threads[t].LockSkip? || s.threads[t].LockSucc? || s.threads[t].LockMarked? || s.threads[t].Lock? {
      LockLeads(s, s', t);
    }
  }

  lemma LockLeads(s: State, s': State, t: nat)
    requires t < |s.threads| && Step(s, s', t)
    requires s.threads[t].Unlock? || s.threads[t].LockSkip? || s.threads[t].LockSucc? || s.threads[t].LockMarked? || s.threads[t].Lock?
    ensures t < |s'.threads| && !Tracked(s'.threads[t])
  {
  }

  lemma GrowthLeads(s: State, s': State, t: nat)
    requires t < |s.threads| && Step(s, s', t) && InGrowth(s.threads[t])
    ensures t < |s'.threads| && !Tracked(s'.threads[t])
  {
  }

  lemma EntersSearch(s: State, s': State, t: nat)
    requires Inv(s) && t < |s.threads| && Step(s, s', t) && t < |s'.threads| && Tracked(s'.threads[t]) && !Tracked(s.threads[t])
    ensures s.threads[t].FindMax? && s'.threads[t].FindHead? && |s.chain| == s'.threads[t].top + 1
  {
    if InChange(s.threads[t]) || InGrowth(s.threads[t]) {
      ChangeLeads(s, s', t);
    } else {
      LookLeads(s, s', t);
      Built(s);
    }
  }

  lemma LookLeads(s: State, s': State, t: nat)
    requires t < |s.threads| && Step(s, s', t) && !InChange(s.threads[t]) && !InGrowth(s.threads[t]) && !Tracked(s.threads[t])
    requires t < |s'.threads| && Tracked(s'.threads[t])
    ensures s.threads[t].FindMax? && s'.threads[t].FindHead? && StepFindMax(s, s', t)
  {
  }

  /** Where the search of a call began, and what it has found out since. */
  lemma {:induction false} SearchHistory(run: seq<State>, t: nat, e: nat) returns (b: nat)
    requires IsRun(run) && e < |run| && t < |run[e].threads| && Tracked(run[e].threads[t])
    ensures b <= e && Since(run, t, b, e) && History(run, b, e, run[e].threads[t])
    decreases e
  {
    b := e;
    if e > 0 {
      var u := RunGentle(run, e - 1);
      if !Tracked(run[e - 1].threads[t]) {
        b := SearchBegins(run, t, u, e);
      } else {
        b := SearchHistory(run, t, e - 1);
        SearchGoesOn(run, t, u, b, e - 1);
      }
    }
  }

  lemma SearchGoesOn(run: seq<State>, t: nat, u: nat, b: nat, e: nat)
    requires IsRun(run) && b <= e && e + 1 < |run| && t < |run[e].threads| && t < |run[e + 1].threads|
    requires StepBy(run, e, u) && OthersStay(run[e], run[e + 1], u)
    requires Tracked(run[e].threads[t]) && Tracked(run[e + 1].threads[t]) && History(run, b, e, run[e].threads[t])
    ensures History(run, b, e + 1, run[e + 1].threads[t])
  {
    if u == t {
      OwnHistory(run, t, b, e);
    }
    HistoryLater(run, b, e, run[e + 1].threads[t]);
  }

  lemma SearchBegins(run: seq<State>, t: nat, u: nat, e: nat) returns (b: nat)
    requires IsRun(run) && 0 < e < |run| && t < |run[e].threads| && Tracked(run[e].threads[t])
    requires StepBy(run, e - 1, u) && OthersStay(run[e - 1], run[e], u) && !Tracked(run[e - 1].threads[t])
    ensures b <= e && Since(run, t, b, e) && History(run, b, e, run[e].threads[t])
  {
    b := e - 1;
    RunInv(run, e - 1);
    EntersSearch(run[e - 1], run[e], t);
  }

  // ------------------------------------------------------------------- what calls report

  lemma LacksMeansAbsent(s: State, r: nat)
    requires Inv(s) && Lacks(s, 0, r)
    ensures !Contains(s, r) && !Shows(s, r)
  {
    if n: nat :| Present(s, n) && s.nodes[n].rank == r {
      PresentIsVisible(s, n);
    }
  }

  lemma MissedMeansAbsent(run: seq<State>, r: nat, b: nat, e: nat) returns (y: nat)
    requires IsRun(run) && Missed(run, 0, r, b, e)
    ensures b <= y <= e && !Contains(run[y], r) && !Shows(run[y], r)
  {
    y :| b <= y <= e < |run| && Lacks(run[y], 0, r);
    RunInv(run, y);
    LacksMeansAbsent(run[y], r);
  }

  /** The node met was not in the set when it is looked at. */
  lemma MetAbsent(run: seq<State>, n: nat, l: nat, r: nat, b: nat, e: nat) returns (y: nat)
    requires IsRun(run) && Met(run, n, l, b, e) && IsNode(run[e], n) && run[e].nodes[n].rank == r && !Present(run[e], n)
    ensures b <= y <= e && !Contains(run[y], r) && (run[e].nodes[n].marked ==> !Shows(run[y], r))
  {
    MetBelow(run, n, l, 0, b, e);
    var x: nat :| b <= x <= e < |run| && InLayer(run[x], n, 0);
    RunInv(run, x);
    Built(run[x]);
    LayerNode(run[x], n, 0);
    RankStays(run, n, x, e);
    y := MetNotPresent(run, n, r, x, e);
  }

  /** A node that counts is in all its layers. */
  lemma PresentInLayers(s: State, n: nat, l: nat)
    requires Inv(s) && Present(s, n) && l < s.nodes[n].height
    ensures InLayer(s, n, l)
  {
    Built(s);
    assert LinkedAt(s, n);
  }

  /** A node not met at its own top layer did not count at that instant. */
  lemma TopMissed(run: seq<State>, q: Search, b: nat, e: nat) returns (y: nat)
    requires IsRun(run) && Facts(run, b, e, q, 0) && q.found != 0 && Present(run[e], q.found)
    requires run[e].nodes[q.found].rank == q.op.rank && run[e].nodes[q.found].height > q.layer + 1
    ensures b <= y <= e && !Contains(run[y], q.op.rank)
  {
    var n, h := q.found, run[e].nodes[q.found].height - 1;
    var x := b;
    if h <= q.top {
      assert Open(q, h) && Missed(run, h, q.op.rank, b, e);
      x :| b <= x <= e < |run| && Lacks(run[x], h, q.op.rank);
    }
    RunInv(run, x);
    if Present(run[x], n) {
      RankStays(run, n, x, e);
      PresentInLayers(run[x], n, h);
    }
    y := SamePresence(run, n, q.op.rank, x, e);
  }

  /** A remove is about to return false. */
  predicate RemoveFails(pc: PC, pc': PC) {
    || (pc.Walk? && pc.q.op.removing && pc'.Idle?) || (pc.RemoveLinked? && pc'.Idle?) || (pc.RemoveMarked? && pc'.Idle?)
    || (pc.RemoveCheck? && pc'.FreeVictim?)
  }

  /** When remove returns false there was an instant inside the call at which the key was not in
      the set. */
  lemma RemoveReportsAbsent(run: seq<State>, k: nat, t: nat) returns (y: nat)
    requires IsRun(run) && k + 1 < |run| && StepBy(run, k, t) && t < |run[k + 1].threads|
    requires RemoveFails(run[k].threads[t], run[k + 1].threads[t])
    ensures Since(run, t, y, k) && !Contains(run[y], run[k].threads[t].q.op.rank)
  {
    var pc := run[k].threads[t];
    var b := SearchHistory(run, t, k);
    RunInv(run, k);
    Known(run[k], t);
    if pc.Walk? {
      y := WalkReportsAbsent(run, k, t, b);
    } else if !Present(run[k], pc.q.found) {
      y := MetAbsent(run, pc.q.found, pc.q.layer, pc.q.op.rank, b, k);
    } else {
      FoundBelowTop(run, pc.q, b, k);
      y := TopMissed(run, pc.q, b, k);
    }
  }

  lemma FoundBelowTop(run: seq<State>, q: Search, b: nat, e: nat)
    requires IsRun(run) && Facts(run, b, e, q, 0) && q.found != 0
    ensures IsNode(run[e], q.found) && run[e].nodes[q.found].height > q.layer
  {
    var x: nat :| b <= x <= e < |run| && InLayer(run[x], q.found, q.layer);
    RunInv(run, x);
    Built(run[x]);
    LayerNode(run[x], q.found, q.layer);
    RankStays(run, q.found, x, e);
  }

  lemma WalkReportsAbsent(run: seq<State>, k: nat, t: nat, b: nat) returns (y: nat)
    requires IsRun(run) && k + 1 < |run| && StepBy(run, k, t) && t < |run[k + 1].threads|
    requires run[k].threads[t].Walk? && run[k + 1].threads[t].Idle? && History(run, b, k, run[k].threads[t])
    ensures b <= y <= k && !Contains(run[y], run[k].threads[t].q.op.rank)
  {
    WalkHistory(run, t, b, k);
    var pc := run[k].threads[t];
    assert Open(Record(run[k], pc.q, pc.at, pc.pred, run[k].nodes[pc.pred].skip[pc.at]), 0);
    assert Missed(run, 0, pc.q.op.rank, b, k);
    y := MissedMeansAbsent(run, pc.q.op.rank, b, k);
  }

  // ------------------------------------------------------------------------ adds that find

  /** An AddWait thread met its node unmarked. */
  lemma {:induction false} WaitHistory(run: seq<State>, t: nat, e: nat) returns (b: nat)
    requires IsRun(run) && e < |run| && t < |run[e].threads| && run[e].threads[t].AddWait?
    ensures Since(run, t, b, e) && IsNode(run[b], run[e].threads[t].node) && !run[b].nodes[run[e].threads[t].node].marked
    decreases e
  {
    b := e;
    if e > 0 {
      var u := RunGentle(run, e - 1);
      if run[e - 1].threads[t].AddWait? {
        b := WaitHistory(run, t, e - 1);
        if u == t {
          WaitStays(run[e - 1], run[e], t);
        }
      } else {
        b := e - 1;
        EntersWait(run[e - 1], run[e], t);
      }
    }
  }

  lemma WaitStays(s: State, s': State, t: nat)
    requires t < |s.threads| && Step(s, s', t) && s.threads[t].AddWait? && t < |s'.threads| && s'.threads[t].AddWait?
    ensures s'.threads[t] == s.threads[t]
  {
  }

  lemma EntersWait(s: State, s': State, t: nat)
    requires t < |s.threads| && Step(s, s', t) && !s.threads[t].AddWait? && t < |s'.threads| && s'.threads[t].AddWait?
    ensures s.threads[t].AddFound? && s'.threads[t].node == s.threads[t].node
    ensures IsNode(s, s.threads[t].node) && !s.nodes[s.threads[t].node].marked
  {
  }

  /** From unmarked to linked a node counts at some instant. */
  lemma {:induction false} CountsInBetween(run: seq<State>, n: nat, b: nat, e: nat) returns (y: nat)
    requires IsRun(run) && b <= e < |run| && IsNode(run[b], n) && run[b].nodes[n].rank > 0
    requires !run[b].nodes[n].marked && IsNode(run[e], n) && run[e].nodes[n].linked
    ensures b <= y <= e && Present(run[y], n)
    decreases e - b
  {
    if run[b].nodes[n].linked {
      y := b;
    } else {
      var t := RunGentle(run, b);
      assert NodeGentle(run[b], run[b + 1], t, n);
      y := CountsInBetween(run, n, b + 1, e);
    }
  }

  /** When add returns without inserting there was an instant inside the call at which the key
      was in the set. */
  lemma AddReportsPresent(run: seq<State>, k: nat, t: nat) returns (y: nat)
    requires IsRun(run) && k + 1 < |run| && StepBy(run, k, t) && t < |run[k + 1].threads|
    requires run[k].threads[t].AddWait? && run[k + 1].threads[t].Idle?
    ensures Since(run, t, y, k) && Contains(run[y], run[k].threads[t].op.rank)
  {
    var pc := run[k].threads[t];
    var b := WaitHistory(run, t, k);
    RunInv(run, k);
    Known(run[k], t);
    RankStays(run, pc.node, b, k);
    y := CountsInBetween(run, pc.node, b, k);
    RankStays(run, pc.node, y, k);
  }

  // --------------------------------------------------------------------------- whole calls

  /** A call of add or remove by thread t, begun at step i, that is running at state e. */
  ghost predicate Call(run: seq<State>, t: nat, op: Op, i: nat, e: nat) {
    && i < e < |run| && t < |run[i].threads| && run[i].threads[t].Idle? && Since(run, t, i + 1, e)
    && run[i + 1].threads[t] == FindMax(op)
  }

  /** The step from state e moves thread t. */
  ghost predicate Moves(run: seq<State>, t: nat, e: nat) {
    && e + 1 < |run| && t < |run[e].threads| && t < |run[e + 1].threads|
    && run[e + 1].threads[t] != run[e].threads[t]
  }

  /** If so, it leaves the set alone. */
  ghost predicate Keeps(run: seq<State>, t: nat, e: nat) {
    Moves(run, t, e) ==> SameSet(run[e], run[e + 1])
  }

  /** None of the thread's steps between states i and e changes the set. */
  ghost predicate Quiet(run: seq<State>, t: nat, i: nat, e: nat) {
    forall x: nat | i <= x < e :: Keeps(run, t, x)
  }

  /** Just one of the thread's steps between states i and e changes the set: it adds r. */
  ghost predicate AddsOnce(run: seq<State>, t: nat, r: nat, i: nat, e: nat) {
    exists x: nat :: i <= x < e < |run| && Moves(run, t, x) && Adds(run[x], run[x + 1], r)
                     && Quiet(run, t, i, x) && Quiet(run, t, x + 1, e)
  }

  /** Just one of them changes the set: it removes r. */
  ghost predicate RemovesOnce(run: seq<State>, t: nat, r: nat, i: nat, e: nat) {
    exists x: nat :: i <= x < e < |run| && Moves(run, t, x) && Removes(run[x], run[x + 1], r)
                     && Quiet(run, t, i, x) && Quiet(run, t, x + 1, e)
  }

  /** The key was not in the set at a state from i to e. */
  ghost predicate Absent(run: seq<State>, r: nat, i: nat, e: nat) {
    exists y: nat :: i <= y <= e < |run| && !Contains(run[y], r)
  }

  /** The key was in the set at a state from i to e. */
  ghost predicate Held(run: seq<State>, r: nat, i: nat, e: nat) {
    exists y: nat :: i <= y <= e < |run| && Contains(run[y], r)
  }

  lemma QuietMore(run: seq<State>, t: nat, i: nat, e: nat)
    requires i <= e && e + 1 < |run| && Quiet(run, t, i, e) && Keeps(run, t, e)
    ensures Quiet(run, t, i, e + 1)
  {
  }

  lemma AddsOnceLater(run: seq<State>, t: nat, r: nat, i: nat, e: nat)
    requires i <= e && e + 1 < |run| && AddsOnce(run, t, r, i, e) && Keeps(run, t, e)
    ensures AddsOnce(run, t, r, i, e + 1)
  {
    var x: nat :| i <= x < e && Moves(run, t, x) && Adds(run[x], run[x + 1], r) && Quiet(run, t, i, x) && Quiet(run, t, x + 1, e);
    QuietMore(run, t, x + 1, e);
  }

  lemma RemovesOnceLater(run: seq<State>, t: nat, r: nat, i: nat, e: nat)
    requires i <= e && e + 1 < |run| && RemovesOnce(run, t, r, i, e) && Keeps(run, t, e)
    ensures RemovesOnce(run, t, r, i, e + 1)
  {
    var x: nat :| i <= x < e && Moves(run, t, x) && Removes(run[x], run[x + 1], r) && Quiet(run, t, i, x) && Quiet(run, t, x + 1, e);
    QuietMore(run, t, x + 1, e);
  }

  lemma Stays(run: seq<State>, t: nat, e: nat)
    requires IsRun(run) && e + 1 < |run| && t < |run[e].threads|
    ensures t < |run[e + 1].threads|
  {
    Mover(run, t, e);
  }

  /** Only its own steps move a thread. */
  lemma Mover(run: seq<State>, t: nat, e: nat)
    requires IsRun(run) && e + 1 < |run| && t < |run[e].threads|
    ensures t < |run[e + 1].threads| && (Moves(run, t, e) ==> StepBy(run, e, t))
  {
    var u := RunGentle(run, e);
  }

  lemma OwnSameSet(run: seq<State>, t: nat, e: nat)
    requires IsRun(run) && e + 1 < |run| && t < |run[e].threads|
    requires !run[e].threads[t].LinkFlag? && !run[e].threads[t].RemoveMark?
    ensures Keeps(run, t, e)
  {
    RunInv(run, e);
    Mover(run, t, e);
    if Moves(run, t, e) {
      SameSetStep(run[e], run[e + 1], t);
    }
  }

  predicate HasOp(pc: PC) { pc.FindMax? || pc.FindHead? || pc.AddFound? || pc.AddWait? }

  predicate Locking(pc: PC) { pc.Lock? || pc.LockMarked? || pc.LockSkip? || pc.LockSucc? || (pc.Unlock? && pc.after == Retry) }

  predicate Making(pc: PC) { pc.Choose? || pc.Create? || pc.LinkNew? || pc.LinkPred? || pc.LinkFlag? }

  predicate Removing(pc: PC) { pc.RemoveLinked? || pc.RemoveMarked? || pc.RemoveLock? || pc.RemoveCheck? || pc.RemoveMark? }

  /** Where an add can be that has not taken effect, and one that has. */
  predicate AddBefore(pc: PC, op: Op) {
    if HasOp(pc) then pc.op == op
    else (pc.Walk? || Locking(pc) || Making(pc)) && pc.q.op == op
  }

  predicate AddAfter(pc: PC) { (pc.Unlock? && pc.after == After.Added) || InGrowth(pc) }

  /** Where a remove can be that has not taken effect, and one that has. */
  predicate RemoveBefore(pc: PC, op: Op) {
    if pc.FindMax? || pc.FindHead? then pc.op == op
    else (pc.Walk? || Removing(pc)) && pc.q.op == op
  }

  predicate Marked(op: Op) { op.removing && op.victim != 0 }

  predicate RemoveAfter(pc: PC) {
    if pc.FindMax? || pc.FindHead? then Marked(pc.op)
    else if pc.Walk? || Locking(pc) || pc.CutRead? || pc.CutWrite? || pc.Unlock? then
      Marked(pc.q.op) && (pc.Unlock? ==> pc.after != After.Added)
    else false
  }

  lemma AddBeforeStep(s: State, s': State, t: nat, op: Op)
    requires t < |s.threads| && Step(s, s', t) && AddBefore(s.threads[t], op) && !op.removing
    ensures t < |s'.threads|
    ensures if s.threads[t].LinkFlag? then AddAfter(s'.threads[t])
            else AddBefore(s'.threads[t], op) || (s.threads[t].AddWait? && s'.threads[t].Idle?)
  {
    if HasOp(s.threads[t]) || s.threads[t].Walk? {
      AddSearchStep(s, s', t, op);
    } else if Locking(s.threads[t]) {
      AddLockStep(s, s', t, op);
    } else {
      AddMakeStep(s, s', t, op);
    }
  }

  lemma AddSearchStep(s: State, s': State, t: nat, op: Op)
    requires t < |s.threads| && Step(s, s', t) && AddBefore(s.threads[t], op) && !op.removing
    requires HasOp(s.threads[t]) || s.threads[t].Walk?
    ensures t < |s'.threads|
    ensures AddBefore(s'.threads[t], op) || (s.threads[t].AddWait? && s'.threads[t].Idle?)
  {
  }

  lemma AddLockStep(s: State, s': State, t: nat, op: Op)
    requires t < |s.threads| && Step(s, s', t) && Locking(s.threads[t]) && s.threads[t].q.op == op && !op.removing
    ensures t < |s'.threads| && AddBefore(s'.threads[t], op)
  {
  }

  lemma AddMakeStep(s: State, s': State, t: nat, op: Op)
    requires t < |s.threads| && Step(s, s', t) && Making(s.threads[t]) && s.threads[t].q.op == op && !op.removing
    ensures t < |s'.threads| && if s.threads[t].LinkFlag? then AddAfter(s'.threads[t]) else AddBefore(s'.threads[t], op)
  {
  }

  lemma AddAfterStep(s: State, s': State, t: nat)
    requires t < |s.threads| && Step(s, s', t) && AddAfter(s.threads[t])
    ensures t < |s'.threads| && (AddAfter(s'.threads[t]) || s'.threads[t].Idle?)
  {
    if s.threads[t].Unlock? {
      AddUnlockStep(s, s', t);
    } else {
      AddGrowStep(s, s', t);
    }
  }

  lemma AddUnlockStep(s: State, s': State, t: nat)
    requires t < |s.threads| && Step(s, s', t) && s.threads[t].Unlock? && s.threads[t].after == After.Added
    ensures t < |s'.threads| && (AddAfter(s'.threads[t]) || s'.threads[t].Idle?)
  {
  }

  lemma AddGrowStep(s: State, s': State, t: nat)
    requires t < |s.threads| && Step(s, s', t) && InGrowth(s.threads[t])
    ensures t < |s'.threads| && (InGrowth(s'.threads[t]) || s'.threads[t].Idle?)
  {
  }

  /** An add in its state e. */
  ghost predicate AddHistory(run: seq<State>, t: nat, op: Op, i: nat, e: nat, pc: PC) {
    forall x: nat | x == e :: AddSince(run, t, op, i, x, pc)
  }

  ghost predicate AddSince(run: seq<State>, t: nat, op: Op, i: nat, e: nat, pc: PC) {
    || (AddBefore(pc, op) && Quiet(run, t, i, e))
    || (AddAfter(pc) && AddsOnce(run, t, op.rank, i, e))
    || (pc.Idle? && AddOver(run, t, op.rank, i, e))
  }

  lemma AddNow(run: seq<State>, t: nat, op: Op, i: nat, e: nat, pc: PC)
    requires AddHistory(run, t, op, i, e, pc)
    ensures AddSince(run, t, op, i, e, pc)
  {
  }

  /** What an add has done in the end. */
  ghost predicate AddOver(run: seq<State>, t: nat, r: nat, i: nat, e: nat) {
    AddsOnce(run, t, r, i, e) || (Quiet(run, t, i, e) && Held(run, r, i, e))
  }

  /** A step of an add that has not taken effect. */
  lemma OwnAddBefore(run: seq<State>, t: nat, op: Op, i: nat, e: nat)
    requires IsRun(run) && Call(run, t, op, i, e) && e + 1 < |run| && Moves(run, t, e) && !op.removing
    requires AddBefore(run[e].threads[t], op) && Quiet(run, t, i + 1, e)
    ensures t < |run[e + 1].threads| && AddHistory(run, t, op, i + 1, e + 1, run[e + 1].threads[t])
  {
    var pc := run[e].threads[t];
    Mover(run, t, e);
    AddBeforeStep(run[e], run[e + 1], t, op);
    if pc.LinkFlag? {
      RunInv(run, e);
      RunInv(run, e + 1);
      AddTakesEffect(run[e], run[e + 1], t);
      assert Quiet(run, t, e + 1, e + 1);
    } else {
      OwnSameSet(run, t, e);
      QuietMore(run, t, i + 1, e);
      if pc.AddWait? && run[e + 1].threads[t].Idle? {
        var y := AddReportsPresent(run, e, t);
        assert i < y;
        assert Held(run, op.rank, i + 1, e + 1);
      }
    }
  }

  lemma AddStays(run: seq<State>, t: nat, e: nat)
    requires IsRun(run) && e + 1 < |run| && Moves(run, t, e) && AddAfter(run[e].threads[t])
    ensures AddAfter(run[e + 1].threads[t]) || run[e + 1].threads[t].Idle?
  {
    Mover(run, t, e);
    AddAfterStep(run[e], run[e + 1], t);
  }

  lemma OwnAddAfter(run: seq<State>, t: nat, op: Op, i: nat, e: nat)
    requires IsRun(run) && i <= e && e + 1 < |run| && Moves(run, t, e)
    requires AddAfter(run[e].threads[t]) && AddsOnce(run, t, op.rank, i, e)
    ensures AddHistory(run, t, op, i, e + 1, run[e + 1].threads[t])
  {
    AddStays(run, t, e);
    OwnSameSet(run, t, e);
    AddsOnceLater(run, t, op.rank, i, e);
  }

  lemma OtherAdd(run: seq<State>, t: nat, op: Op, i: nat, e: nat)
    requires i <= e && e + 1 < |run| && t < |run[e].threads| && !Moves(run, t, e) && !run[e].threads[t].Idle?
    requires AddHistory(run, t, op, i, e, run[e].threads[t])
    ensures AddHistory(run, t, op, i, e + 1, run[e].threads[t])
  {
    AddNow(run, t, op, i, e, run[e].threads[t]);
    if AddAfter(run[e].threads[t]) && AddsOnce(run, t, op.rank, i, e) {
      AddsOnceLater(run, t, op.rank, i, e);
    } else {
      QuietMore(run, t, i, e);
    }
  }

  lemma AddBegins(run: seq<State>, t: nat, op: Op, e: nat)
    requires e < |run| && t < |run[e].threads| && run[e].threads[t] == FindMax(op)
    ensures AddHistory(run, t, op, e, e, run[e].threads[t])
  {
    assert Quiet(run, t, e, e);
  }

  lemma AddGoesOn(run: seq<State>, t: nat, op: Op, i: nat, e: nat)
    requires IsRun(run) && e + 1 < |run| && !op.removing && Call(run, t, op, i, e)
    requires AddHistory(run, t, op, i + 1, e, run[e].threads[t])
    ensures t < |run[e + 1].threads| && AddHistory(run, t, op, i + 1, e + 1, run[e + 1].threads[t])
  {
    assert !run[e].threads[t].Idle?;
    Stays(run, t, e);
    if Moves(run, t, e) {
      OwnAdd(run, t, op, i, e);
    } else {
      OtherAdd(run, t, op, i + 1, e);
    }
  }

  lemma OwnAdd(run: seq<State>, t: nat, op: Op, i: nat, e: nat)
    requires IsRun(run) && e + 1 < |run| && !op.removing && Call(run, t, op, i, e) && Moves(run, t, e)
    requires AddHistory(run, t, op, i + 1, e, run[e].threads[t]) && !run[e].threads[t].Idle?
    ensures AddHistory(run, t, op, i + 1, e + 1, run[e + 1].threads[t])
  {
    AddNow(run, t, op, i + 1, e, run[e].threads[t]);
    if AddAfter(run[e].threads[t]) && AddsOnce(run, t, op.rank, i + 1, e) {
      OwnAddAfter(run, t, op, i + 1, e);
    } else {
      OwnAddBefore(run, t, op, i, e);
    }
  }

  lemma {:induction false} AddSoFar(run: seq<State>, t: nat, op: Op, i: nat, e: nat)
    requires IsRun(run) && !op.removing && Call(run, t, op, i, e)
    ensures AddHistory(run, t, op, i + 1, e, run[e].threads[t])
    decreases e
  {
    if i + 1 < e {
      assert t < |run[e - 1].threads|;
      AddSoFar(run, t, op, i, e - 1);
      AddGoesOn(run, t, op, i, e - 1);
    } else {
      AddBegins(run, t, op, e);
    }
  }

  /** An add that is over has added its key by just one of its steps, or has left the set alone
      and there was an instant inside the call at which the key was in it. */
  lemma AddReports(run: seq<State>, t: nat, r: nat, i: nat, e: nat)
    requires IsRun(run) && Call(run, t, Op(r, false, 0), i, e) && e + 1 < |run| && t < |run[e + 1].threads| && run[e + 1].threads[t].Idle?
    ensures AddOver(run, t, r, i + 1, e + 1)
  {
    AddSoFar(run, t, Op(r, false, 0), i, e);
    AddGoesOn(run, t, Op(r, false, 0), i, e);
    AddNow(run, t, Op(r, false, 0), i + 1, e + 1, run[e + 1].threads[t]);
  }

  lemma RemoveBeforeStep(s: State, s': State, t: nat, op: Op)
    requires t < |s.threads| && Step(s, s', t) && RemoveBefore(s.threads[t], op) && op.removing && op.victim == 0
    requires s.threads[t].RemoveMark? ==> s.threads[t].q.found != 0
    ensures t < |s'.threads|
    ensures if s.threads[t].RemoveMark? then RemoveAfter(s'.threads[t])
            else RemoveBefore(s'.threads[t], op) || RemoveFails(s.threads[t], s'.threads[t])
  {
  }

  lemma RemoveAfterStep(s: State, s': State, t: nat)
    requires t < |s.threads| && Step(s, s', t) && RemoveAfter(s.threads[t])
    ensures t < |s'.threads| && (RemoveAfter(s'.threads[t]) || s'.threads[t].FreeVictim?)
  {
    if Locking(s.threads[t]) || s.threads[t].Unlock? {
      RemoveLockStep(s, s', t);
    } else {
      RemoveCutStep(s, s', t);
    }
  }

  lemma RemoveLockStep(s: State, s': State, t: nat)
    requires t < |s.threads| && Step(s, s', t) && RemoveAfter(s.threads[t]) && (Locking(s.threads[t]) || s.threads[t].Unlock?)
    ensures t < |s'.threads| && (RemoveAfter(s'.threads[t]) || s'.threads[t].FreeVictim?)
  {
  }

  lemma RemoveCutStep(s: State, s': State, t: nat)
    requires t < |s.threads| && Step(s, s', t) && RemoveAfter(s.threads[t]) && !Locking(s.threads[t]) && !s.threads[t].Unlock?
    ensures t < |s'.threads| && RemoveAfter(s'.threads[t])
  {
  }

  /** A remove in its state e. */
  ghost predicate RemoveHistory(run: seq<State>, t: nat, op: Op, i: nat, e: nat, pc: PC) {
    forall x: nat | x == e :: RemoveSince(run, t, op, i, x, pc)
  }

  ghost predicate RemoveSince(run: seq<State>, t: nat, op: Op, i: nat, e: nat, pc: PC) {
    || (RemoveBefore(pc, op) && Quiet(run, t, i, e))
    || (RemoveAfter(pc) && RemovesOnce(run, t, op.rank, i, e))
    || ((pc.FreeVictim? || pc.Idle?) && RemoveOver(run, t, op.rank, i, e))
  }

  lemma RemoveNow(run: seq<State>, t: nat, op: Op, i: nat, e: nat, pc: PC)
    requires RemoveHistory(run, t, op, i, e, pc)
    ensures RemoveSince(run, t, op, i, e, pc)
  {
  }

  /** What a remove has done in the end. */
  ghost predicate RemoveOver(run: seq<State>, t: nat, r: nat, i: nat, e: nat) {
    RemovesOnce(run, t, r, i, e) || (Quiet(run, t, i, e) && Absent(run, r, i, e))
  }

  lemma RemoveOverLater(run: seq<State>, t: nat, r: nat, i: nat, e: nat)
    requires i <= e && e + 1 < |run| && RemoveOver(run, t, r, i, e) && Keeps(run, t, e)
    ensures RemoveOver(run, t, r, i, e + 1)
  {
    if RemovesOnce(run, t, r, i, e) {
      RemovesOnceLater(run, t, r, i, e);
    } else {
      QuietMore(run, t, i, e);
    }
  }

  /** A step of a remove that has not taken effect. */
  lemma OwnRemoveBefore(run: seq<State>, t: nat, op: Op, i: nat, e: nat)
    requires IsRun(run) && Call(run, t, op, i, e) && e + 1 < |run| && Moves(run, t, e) && op.removing && op.victim == 0
    requires RemoveBefore(run[e].threads[t], op) && Quiet(run, t, i + 1, e)
    ensures t < |run[e + 1].threads| && RemoveHistory(run, t, op, i + 1, e + 1, run[e + 1].threads[t])
  {
    var pc := run[e].threads[t];
    RunInv(run, e);
    Known(run[e], t);
    Mover(run, t, e);
    RemoveBeforeStep(run[e], run[e + 1], t, op);
    if pc.RemoveMark? {
      RunInv(run, e + 1);
      RemoveTakesEffect(run[e], run[e + 1], t);
      assert Quiet(run, t, e + 1, e + 1);
    } else {
      OwnSameSet(run, t, e);
      QuietMore(run, t, i + 1, e);
      if RemoveFails(pc, run[e + 1].threads[t]) {
        var y := RemoveReportsAbsent(run, e, t);
        assert i < y;
        assert Absent(run, op.rank, i + 1, e + 1);
      }
    }
  }

  lemma RemoveStays(run: seq<State>, t: nat, e: nat)
    requires IsRun(run) && e + 1 < |run| && Moves(run, t, e) && RemoveAfter(run[e].threads[t])
    ensures RemoveAfter(run[e + 1].threads[t]) || run[e + 1].threads[t].FreeVictim?
  {
    Mover(run, t, e);
    RemoveAfterStep(run[e], run[e + 1], t);
  }

  lemma OwnRemoveAfter(run: seq<State>, t: nat, op: Op, i: nat, e: nat)
    requires IsRun(run) && i <= e && e + 1 < |run| && Moves(run, t, e)
    requires RemoveAfter(run[e].threads[t]) && RemovesOnce(run, t, op.rank, i, e)
    ensures RemoveHistory(run, t, op, i, e + 1, run[e + 1].threads[t])
  {
    RemoveStays(run, t, e);
    OwnSameSet(run, t, e);
    RemovesOnceLater(run, t, op.rank, i, e);
  }

  lemma OwnRemoveEnd(run: seq<State>, t: nat, op: Op, i: nat, e: nat)
    requires IsRun(run) && i <= e && e + 1 < |run| && Moves(run, t, e)
    requires run[e].threads[t].FreeVictim? && RemoveOver(run, t, op.rank, i, e)
    ensures RemoveHistory(run, t, op, i, e + 1, run[e + 1].threads[t])
  {
    Mover(run, t, e);
    OwnSameSet(run, t, e);
    RemoveOverLater(run, t, op.rank, i, e);
  }

  lemma OtherRemove(run: seq<State>, t: nat, op: Op, i: nat, e: nat)
    requires i <= e && e + 1 < |run| && t < |run[e].threads| && !Moves(run, t, e)
    requires RemoveHistory(run, t, op, i, e, run[e].threads[t])
    ensures RemoveHistory(run, t, op, i, e + 1, run[e].threads[t])
  {
    RemoveNow(run, t, op, i, e, run[e].threads[t]);
    var pc := run[e].threads[t];
    if RemoveAfter(pc) && RemovesOnce(run, t, op.rank, i, e) {
      RemovesOnceLater(run, t, op.rank, i, e);
    } else if pc.FreeVictim? || pc.Idle? {
      RemoveOverLater(run, t, op.rank, i, e);
    } else {
      QuietMore(run, t, i, e);
    }
  }

  lemma {:induction false} RemoveSoFar(run: seq<State>, t: nat, op: Op, i: nat, e: nat)
    requires IsRun(run) && op.removing && op.victim == 0 && Call(run, t, op, i, e)
    ensures RemoveHistory(run, t, op, i + 1, e, run[e].threads[t])
    decreases e
  {
    if i + 1 < e {
      assert t < |run[e - 1].threads|;
      RemoveSoFar(run, t, op, i, e - 1);
      RemoveGoesOn(run, t, op, i, e - 1);
    } else {
      RemoveBegins(run, t, op, e);
    }
  }

  lemma RemoveBegins(run: seq<State>, t: nat, op: Op, e: nat)
    requires e < |run| && t < |run[e].threads| && run[e].threads[t] == FindMax(op)
    ensures RemoveHistory(run, t, op, e, e, run[e].threads[t])
  {
    assert Quiet(run, t, e, e);
  }

  lemma RemoveGoesOn(run: seq<State>, t: nat, op: Op, i: nat, e: nat)
    requires IsRun(run) && e + 1 < |run| && op.removing && op.victim == 0 && Call(run, t, op, i, e)
    requires RemoveHistory(run, t, op, i + 1, e, run[e].threads[t])
    ensures t < |run[e + 1].threads| && RemoveHistory(run, t, op, i + 1, e + 1, run[e + 1].threads[t])
  {
    assert !run[e].threads[t].Idle?;
    Stays(run, t, e);
    if Moves(run, t, e) {
      OwnRemove(run, t, op, i, e);
    } else {
      OtherRemove(run, t, op, i + 1, e);
    }
  }

  lemma OwnRemove(run: seq<State>, t: nat, op: Op, i: nat, e: nat)
    requires IsRun(run) && e + 1 < |run| && op.removing && op.victim == 0 && Call(run, t, op, i, e) && Moves(run, t, e)
    requires RemoveHistory(run, t, op, i + 1, e, run[e].threads[t]) && !run[e].threads[t].Idle?
    ensures RemoveHistory(run, t, op, i + 1, e + 1, run[e + 1].threads[t])
  {
    RemoveNow(run, t, op, i + 1, e, run[e].threads[t]);
    if RemoveAfter(run[e].threads[t]) && RemovesOnce(run, t, op.rank, i + 1, e) {
      OwnRemoveAfter(run, t, op, i + 1, e);
    } else if run[e].threads[t].FreeVictim? {
      OwnRemoveEnd(run, t, op, i + 1, e);
    } else {
      OwnRemoveBefore(run, t, op, i, e);
    }
  }

  /** A remove that is over has removed its key by just one of its steps, or has left the set
      alone and there was an instant inside the call at which the key was not in it. */
  lemma RemoveReports(run: seq<State>, t: nat, r: nat, i: nat, e: nat)
    requires IsRun(run) && Call(run, t, Op(r, true, 0), i, e) && e + 1 < |run| && t < |run[e + 1].threads| && run[e + 1].threads[t].Idle?
    ensures RemoveOver(run, t, r, i + 1, e + 1)
  {
    RemoveSoFar(run, t, Op(r, true, 0), i, e);
    RemoveGoesOn(run, t, Op(r, true, 0), i, e);
    RemoveNow(run, t, Op(r, true, 0), i + 1, e + 1, run[e + 1].threads[t]);
  }

  // ------------------------------------------------------------------------------ find

  /** What a find begun at state b knows. */
  ghost predicate SeekHistory(run: seq<State>, b: nat, e: nat, k: Seeking) {
    match k
    case SeekHead(_) => true
    case SeekDown(r, ht, pred) => if ht > 0 then Seen(run, pred, ht - 1, b, e) else Missed(run, 0, r, b, e)
    case SeekLoad(_, l, pred) => Seen(run, pred, l, b, e)
    case SeekRight(_, l, pred, node) => Seen(run, pred, l, b, e) && Led(run, pred, l, node, b, e)
    case SeekMarked(_, node) => Met(run, node, 0, b, e)
    case SeekEnd(r, node) => if node == 0 then Unseen(run, r, b, e) else Shown(run, r, node, b, e)
  }

  /** No visible node had the key at a state from b to e. */
  ghost predicate Unseen(run: seq<State>, r: nat, b: nat, e: nat) {
    exists y: nat :: b <= y <= e < |run| && !Shows(run[y], r)
  }

  ghost predicate Shown(run: seq<State>, r: nat, n: nat, b: nat, e: nat) {
    exists y: nat :: b <= y <= e < |run| && Visible(run[y], n) && run[y].nodes[n].rank == r
  }

  lemma SeekLater(run: seq<State>, b: nat, e: nat, k: Seeking)
    requires SeekHistory(run, b, e, k) && e + 1 < |run|
    ensures SeekHistory(run, b, e + 1, k)
  {
  }

  lemma SeekDownHistory(run: seq<State>, b: nat, e: nat, r: nat, ht: nat, pred: nat)
    requires IsRun(run) && b <= e < |run| && Struct(run[e]) && SeekOk(run[e], SeekDown(r, ht, pred)) && ht > 0
    requires Seen(run, pred, ht - 1, b, e) && SeekFits(run[e], SeekDown(r, ht, pred))
    ensures SeekHistory(run, b, e, SeekNext(run[e], SeekDown(r, ht, pred)))
  {
    Loads(run, pred, ht - 1, b, e);
    LedOnward(run, pred, ht - 1, run[e].nodes[pred].skip[ht - 1], b, e, r);
    if ht > 1 {
      SeenBelow(run, pred, ht - 1, b, e);
    }
  }

  lemma SeekRightHistory(run: seq<State>, b: nat, e: nat, r: nat, l: nat, pred: nat, node: nat)
    requires IsRun(run) && b <= e < |run| && SeekOk(run[e], SeekRight(r, l, pred, node)) && SeekFits(run[e], SeekRight(r, l, pred, node))
    requires Seen(run, pred, l, b, e) && Led(run, pred, l, node, b, e)
    ensures SeekHistory(run, b, e, SeekNext(run[e], SeekRight(r, l, pred, node)))
  {
    LedOnward(run, pred, l, node, b, e, r);
    if node != 0 && run[e].nodes[node].rank < r {
      MetIsSeen(run, node, l, b, e);
      Loads(run, node, l, b, e);
    } else if node != 0 && run[e].nodes[node].rank == r {
      MetBelow(run, node, l, 0, b, e);
    } else if l > 0 {
      SeenBelow(run, pred, l, b, e);
    }
  }

  lemma SeekMarkedHistory(run: seq<State>, b: nat, e: nat, r: nat, node: nat)
    requires IsRun(run) && b <= e < |run| && SeekOk(run[e], SeekMarked(r, node)) && Met(run, node, 0, b, e)
    ensures SeekHistory(run, b, e, SeekNext(run[e], SeekMarked(r, node)))
  {
    if run[e].nodes[node].marked {
      var y := MetAbsent(run, node, 0, r, b, e);
    } else {
      var x: nat :| b <= x <= e < |run| && InLayer(run[x], node, 0);
      StaysVisible(run, node, x, e);
    }
  }

  lemma SeekOwnHistory(run: seq<State>, b: nat, e: nat, k: Seeking)
    requires IsRun(run) && b <= e < |run| && SeekOk(run[e], k) && SeekHistory(run, b, e, k) && !k.SeekEnd? && SeekFits(run[e], k)
    ensures SeekHistory(run, b, e, SeekNext(run[e], k))
  {
    RunInv(run, e);
    Built(run[e]);
    match k
    case SeekHead(_) => assert Member(run[e], run[e].head, |run[e].chain| - 1);
    case SeekDown(r, ht, pred) =>
      if ht > 0 {
        SeekDownHistory(run, b, e, r, ht, pred);
      } else {
        var y := MissedMeansAbsent(run, r, b, e);
      }
    case SeekLoad(_, l, pred) => Loads(run, pred, l, b, e);
    case SeekRight(r, l, pred, node) => SeekRightHistory(run, b, e, r, l, pred, node);
    case SeekMarked(r, node) => SeekMarkedHistory(run, b, e, r, node);
  }

  /** Thread t is in one find of r from state b to state e. */
  ghost predicate Finding(run: seq<State>, t: nat, r: nat, b: nat, e: nat) {
    && b <= e < |run| && (forall x | b <= x <= e :: t < |run[x].threads| && run[x].threads[t].Seek?)
    && run[b].threads[t].k == SeekHead(r)
  }

  lemma {:induction false} FindHistory(run: seq<State>, t: nat, r: nat, b: nat, e: nat)
    requires IsRun(run) && Finding(run, t, r, b, e)
    ensures SeekHistory(run, b, e, run[e].threads[t].k) && run[e].threads[t].k.rank == r
    decreases e
  {
    if b < e {
      FindHistory(run, t, r, b, e - 1);
      FindGoesOn(run, t, b, e - 1);
    }
  }

  lemma FindGoesOn(run: seq<State>, t: nat, b: nat, e: nat)
    requires IsRun(run) && b <= e && e + 1 < |run| && t < |run[e].threads| && t < |run[e + 1].threads|
    requires run[e].threads[t].Seek? && run[e + 1].threads[t].Seek? && SeekHistory(run, b, e, run[e].threads[t].k)
    ensures SeekHistory(run, b, e + 1, run[e + 1].threads[t].k) && run[e + 1].threads[t].k.rank == run[e].threads[t].k.rank
  {
    var u := RunGentle(run, e);
    if u == t {
      SeekMoves(run, t, b, e);
    }
    SeekLater(run, b, e, run[e + 1].threads[t].k);
  }

  lemma SeekMoves(run: seq<State>, t: nat, b: nat, e: nat)
    requires IsRun(run) && b <= e && e + 1 < |run| && StepBy(run, e, t) && run[e].threads[t].Seek?
    requires t < |run[e + 1].threads| && run[e + 1].threads[t].Seek? && SeekHistory(run, b, e, run[e].threads[t].k)
    ensures SeekHistory(run, b, e, run[e + 1].threads[t].k) && run[e + 1].threads[t].k.rank == run[e].threads[t].k.rank
  {
    RunInv(run, e);
    Known(run[e], t);
    SeekOwnHistory(run, b, e, run[e].threads[t].k);
  }

  /** A find that returns nothing witnesses an instant inside the call at which the key was not
      in the set; one that returns a node, an instant at which that node was linked and not
      marked: in the set, or of an add that is not finished. */
  lemma FindReports(run: seq<State>, t: nat, r: nat, b: nat, e: nat, n: nat) returns (y: nat)
    requires IsRun(run) && Finding(run, t, r, b, e) && run[e].threads[t].k == SeekEnd(r, n)
    ensures b <= y <= e
    ensures n == 0 ==> !Contains(run[y], r)
    ensures n != 0 ==> Visible(run[y], n) && run[y].nodes[n].rank == r
    ensures n != 0 ==> Present(run[y], n) || (n in run[y].maker && run[y].maker[n] < |run[y].threads| && Links(run[y].threads[run[y].maker[n]], n))
  {
    FindHistory(run, t, r, b, e);
    if n == 0 {
      y :| b <= y <= e < |run| && !Shows(run[y], r);
      RunInv(run, y);
      if m: nat :| Present(run[y], m) && run[y].nodes[m].rank == r {
        PresentIsVisible(run[y], m);
      }
    } else {
      y :| b <= y <= e < |run| && Visible(run[y], n) && run[y].nodes[n].rank == r;
      VisibleIsPresentOrNew(run, y, n);
    }
  }

  /** No remove of r takes effect between states i and e. */
  ghost predicate NotRemoved(run: seq<State>, r: nat, i: nat, e: nat) {
    i <= e < |run| && forall x: nat | i <= x < e :: !Removes(run[x], run[x + 1], r)
  }

  lemma {:induction false} StaysContained(run: seq<State>, r: nat, i: nat, e: nat)
    requires IsRun(run) && NotRemoved(run, r, i, e) && Contains(run[i], r)
    ensures Contains(run[e], r)
    decreases e
  {
    if i < e {
      StaysContained(run, r, i, e - 1);
      var t := StepsOnSet(run, e - 1);
    }
  }

  /** A find that starts with the key in the set, as any add of it leaves it, and during which
      it is not removed, returns a node with the key. */
  lemma FindSucceeds(run: seq<State>, t: nat, r: nat, i: nat, b: nat, e: nat, n: nat)
    requires IsRun(run) && i <= b && NotRemoved(run, r, i, e) && Contains(run[i], r)
    requires Finding(run, t, r, b, e) && run[e].threads[t].k == SeekEnd(r, n)
    ensures n != 0 && IsNode(run[e], n) && run[e].nodes[n].rank == r
  {
    var y := FindReports(run, t, r, b, e, n);
    StaysContained(run, r, i, y);
    if n != 0 {
      RankStays(run, n, y, e);
    }
  }

  // -------------------------------------------------- find does not ask whether a node is linked

  function Final(run: seq<State>): State
    requires |run| > 0
  {
    run[|run| - 1]
  }

  lemma Extended(run: seq<State>, s': State, t: nat) returns (longer: seq<State>)
    requires IsRun(run) && t < |Final(run).threads| && Step(Final(run), s', t)
    ensures longer == run + [s'] && IsRun(longer) && Final(longer) == s'
  {
    longer := run + [s'];
    forall k | 0 <= k < |longer| - 1 ensures NextAt(longer, k) {
      if k < |run| - 1 {
        assert NextAt(run, k);
        var u: nat :| StepBy(run, k, u);
        assert StepBy(longer, k, u);
      } else {
        assert StepBy(longer, k, t);
      }
    }
  }

  const ADD: Op := Op(5, false, 0)
  const REMOVE: Op := Op(5, true, 0)

  function EmptyList(): State {
    State([NewNode(0, 0), NewNode(0, 1)], 1, 1, [Idle, Idle], [[]], map[], map[])
  }

  /** The add of key 5 has linked its node and not set its flag yet. */
  ghost predicate Unfinished(s: State) {
    && |s.nodes| == 3 && s.head == 1 && s.maxHeight == 1 && s.chain == [[2]] && |s.threads| == 2
    && s.nodes[1].height == 1 && s.nodes[1].skip == [2] && s.nodes[1].rank == 0
    && s.nodes[2].height == 1 && s.nodes[2].rank == 5 && !s.nodes[2].linked && !s.nodes[2].marked && s.threads[0].LinkFlag?
  }

  lemma AddAlmost() returns (run: seq<State>)
    ensures IsRun(run) && Unfinished(Final(run)) && Final(run).threads[1] == Idle
  {
    var q := Search(ADD, 0, [1], [0], 0, 0);
    run := AddWalks();
    var s5 := Goto(Final(run), 0, Lock(q, 1, 0));
    assert StepChoose(Final(run), s5, 0, 1);
    run := Extended(run, s5, 0);
    run := LockHead(run, q);
    run := LinkNode(run, q);
  }

  lemma AddWalks() returns (run: seq<State>)
    ensures IsRun(run) && Final(run) == EmptyList().(threads := [Choose(Search(ADD, 0, [1], [0], 0, 0)), Idle])
  {
    var s0 := EmptyList();
    var s1 := Goto(s0, 0, FindMax(ADD));
    assert StepStart(s0, s1, 0, 5);
    run := Extended([s0], s1, 0);
    var s2 := Goto(s1, 0, FindHead(ADD, 0));
    run := Extended(run, s2, 0);
    var s3 := Goto(s2, 0, Walk(Search(ADD, 0, [0], [0], 0, 0), 0, 1));
    assert seq(1, _ => 0) == [0];
    run := Extended(run, s3, 0);
    run := AddChooses(run);
  }

  lemma AddChooses(run0: seq<State>) returns (run: seq<State>)
    requires IsRun(run0) && Final(run0) == EmptyList().(threads := [Walk(Search(ADD, 0, [0], [0], 0, 0), 0, 1), Idle])
    ensures IsRun(run) && Final(run) == EmptyList().(threads := [Choose(Search(ADD, 0, [1], [0], 0, 0)), Idle])
  {
    var s3, q := Final(run0), Search(ADD, 0, [1], [0], 0, 0);
    assert Record(s3, Search(ADD, 0, [0], [0], 0, 0), 0, 1, 0) == q;
    run := Extended(run0, Goto(s3, 0, Choose(q)), 0);
  }

  /** The head is locked and validated. */
  lemma LockHead(run0: seq<State>, q: Search) returns (run: seq<State>)
    requires q == Search(ADD, 0, [1], [0], 0, 0) && IsRun(run0) && Final(run0) == EmptyList().(threads := [Lock(q, 1, 0), Idle])
    ensures IsRun(run)
    ensures Final(run) == EmptyList().(nodes := [NewNode(0, 0), NewNode(0, 1).(holder := Some(0))], threads := [Create(q, 1), Idle])
  {
    var s5 := Final(run0);
    var s6 := Goto(Acquire(s5, 1, 0), 0, LockMarked(q, 1, 0));
    run := Extended(run0, s6, 0);
    var s7 := Goto(s6, 0, LockSkip(q, 1, 0));
    run := Extended(run, s7, 0);
    run := Validate(run, q);
  }

  lemma Validate(run0: seq<State>, q: Search) returns (run: seq<State>)
    requires q == Search(ADD, 0, [1], [0], 0, 0) && IsRun(run0)
    requires Final(run0) == EmptyList().(nodes := [NewNode(0, 0), NewNode(0, 1).(holder := Some(0))], threads := [LockSkip(q, 1, 0), Idle])
    ensures IsRun(run) && Final(run) == Final(run0).(threads := [Create(q, 1), Idle])
  {
    run := Extended(run0, Goto(Final(run0), 0, LockSucc(q, 1, 0)), 0);
    run := Extended(run, Goto(Final(run), 0, Create(q, 1)), 0);
  }

  lemma LinkNode(run0: seq<State>, q: Search) returns (run: seq<State>)
    requires q == Search(ADD, 0, [1], [0], 0, 0) && IsRun(run0)
    requires Final(run0) == EmptyList().(nodes := [NewNode(0, 0), NewNode(0, 1).(holder := Some(0))], threads := [Create(q, 1), Idle])
    ensures IsRun(run) && Unfinished(Final(run)) && Final(run).threads[1] == Idle
  {
    var s9 := Final(run0);
    var s10 := Goto(s9.(nodes := s9.nodes + [NewNode(5, 1)], maker := s9.maker[2 := 0]), 0, LinkNew(q, 1, 2, 0));
    run := Extended(run0, s10, 0);
    var s11 := Goto(SetSkip(s10, 2, 0, 0), 0, LinkPred(q, 1, 2, 0));
    run := Extended(run, s11, 0);
    var s12 := Goto(Enter(SetSkip(s11, 1, 0, 2), 0, 2), 0, LinkFlag(q, 1, 2));
    run := Extended(run, s12, 0);
    assert s12.chain[0] == [2];
  }

  lemma SeekExtends(run0: seq<State>, k: Seeking, k': Seeking) returns (run: seq<State>)
    requires IsRun(run0) && |Final(run0).threads| == 2 && Final(run0).threads[1] == Seek(k) && !k.SeekEnd?
    requires SeekFits(Final(run0), k) && SeekNext(Final(run0), k) == k'
    ensures IsRun(run) && run == run0 + [Goto(Final(run0), 1, Seek(k'))]
  {
    run := Extended(run0, Goto(Final(run0), 1, Seek(k')), 1);
  }

  /** The other thread's find returns the node. */
  lemma FindSees(run0: seq<State>) returns (run: seq<State>, i: nat)
    requires IsRun(run0) && Unfinished(Final(run0)) && Final(run0).threads[1] == Idle
    ensures IsRun(run) && i + 1 < |run| && |run[i].threads| == 2 && run[i].threads[1] == Seek(SeekEnd(5, 2))
    ensures Final(run) == Final(run0) && i + 2 == |run| && |run0| <= i && run[..|run0|] == run0
  {
    run := FindBegins(run0);
    run := FindEnds(run0, run, Final(run0));
    i := |run| - 2;
  }

  lemma FindBegins(run0: seq<State>) returns (run: seq<State>)
    requires IsRun(run0) && Unfinished(Final(run0)) && Final(run0).threads[1] == Idle
    ensures IsRun(run) && |run| == |run0| + 3 && run[..|run0|] == run0 && Final(run) == Goto(Final(run0), 1, Seek(SeekLoad(5, 0, 1)))
  {
    var s := Final(run0);
    assert StepStart(s, Goto(s, 1, Seek(SeekHead(5))), 1, 5);
    run := Extended(run0, Goto(s, 1, Seek(SeekHead(5))), 1);
    run := FindDescends(run, s);
  }

  lemma FindDescends(run0: seq<State>, s: State) returns (run: seq<State>)
    requires IsRun(run0) && Unfinished(s) && Final(run0) == Goto(s, 1, Seek(SeekHead(5)))
    ensures IsRun(run) && |run| == |run0| + 2 && run[..|run0|] == run0 && Final(run) == Goto(s, 1, Seek(SeekLoad(5, 0, 1)))
  {
    run := SeekExtends(run0, SeekHead(5), SeekDown(5, 1, 1));
    run := SeekExtends(run, SeekDown(5, 1, 1), SeekLoad(5, 0, 1));
  }

  lemma FindEnds(run0: seq<State>, run1: seq<State>, s: State) returns (run: seq<State>)
    requires IsRun(run1) && Unfinished(s) && s.threads[1] == Idle && Final(run1) == Goto(s, 1, Seek(SeekLoad(5, 0, 1)))
    requires |run0| <= |run1| && run1[..|run0|] == run0
    ensures IsRun(run) && |run| == |run1| + 4 && run[..|run0|] == run0 && Final(run) == s
    ensures |run[|run| - 2].threads| == 2 && run[|run| - 2].threads[1] == Seek(SeekEnd(5, 2))
  {
    run := SeekExtends(run1, SeekLoad(5, 0, 1), SeekRight(5, 0, 1, 2));
    run := SeekExtends(run, SeekRight(5, 0, 1, 2), SeekMarked(5, 2));
    run := SeekExtends(run, SeekMarked(5, 2), SeekEnd(5, 2));
    run := Extended(run, Goto(Final(run), 1, Idle), 1);
    assert Final(run).threads == s.threads;
  }

  /** Its remove, begun afterwards, returns false. */
  lemma RemoveDoesNot(run0: seq<State>) returns (run: seq<State>)
    requires IsRun(run0) && Unfinished(Final(run0)) && Final(run0).threads[1] == Idle
    ensures IsRun(run) && |run| == |run0| + 5 && run[..|run0|] == run0
    ensures |run[|run0|].threads| == 2 && run[|run0|].threads[1] == FindMax(REMOVE)
    ensures |run[|run| - 2].threads| == 2 && run[|run| - 2].threads[1].RemoveLinked?
    ensures run[|run| - 2].threads[1].q.op == REMOVE && Final(run) == Final(run0)
  {
    var s := Final(run0);
    var s1 := Goto(s, 1, FindMax(REMOVE));
    assert StepStart(s, s1, 1, 5);
    run := Extended(run0, s1, 1);
    var s2 := Goto(s1, 1, FindHead(REMOVE, 0));
    run := Extended(run, s2, 1);
    assert seq(1, _ => 0) == [0];
    var s3 := Goto(s2, 1, Walk(Search(REMOVE, 0, [0], [0], 0, 0), 0, 1));
    run := Extended(run, s3, 1);
    run := RemoveEnds(run, s);
  }

  lemma RemoveEnds(run0: seq<State>, s: State) returns (run: seq<State>)
    requires IsRun(run0) && Unfinished(s) && s.threads[1] == Idle
    requires Final(run0) == Goto(s, 1, Walk(Search(REMOVE, 0, [0], [0], 0, 0), 0, 1))
    ensures IsRun(run) && |run| == |run0| + 2 && run[..|run0|] == run0 && Final(run) == s
    ensures |run[|run| - 2].threads| == 2 && run[|run| - 2].threads[1].RemoveLinked? && run[|run| - 2].threads[1].q.op == REMOVE
  {
    var s3 := Final(run0);
    var q := Search(REMOVE, 0, [1], [2], 2, 0);
    assert Record(s3, Search(REMOVE, 0, [0], [0], 0, 0), 0, 1, 2) == q;
    run := Extended(run0, Goto(s3, 1, RemoveLinked(q)), 1);
    run := Extended(run, Goto(Final(run), 1, Idle), 1);
    assert Final(run).threads == s.threads;
  }

  /** So a thread can find a key, fail to remove it although nobody else removes, and find it
      again. */
  lemma FoundButNotRemoved() returns (run: seq<State>, i: nat, j: nat, k: nat)
    ensures IsRun(run) && i < j < k < |run| - 1
    ensures |run[i].threads| == |run[j].threads| == |run[j + 1].threads| == |run[k].threads| == 2
    ensures run[i].threads[1] == Seek(SeekEnd(5, 2)) && run[k].threads[1] == Seek(SeekEnd(5, 2))
    ensures run[j].threads[1].RemoveLinked? && run[j].threads[1].q.op == REMOVE && run[j + 1].threads[1] == Idle
    ensures RemoveFails(run[j].threads[1], run[j + 1].threads[1])
  {
    run := AddAlmost();
    run, i := FindSees(run);
    var n := |run|;
    run := RemoveDoesNot(run);
    assert run[i] == run[..n][i];
    j := |run| - 2;
    var half := run;
    run, k := FindSees(half);
    assert run[i] == run[..|half|][i] && run[j] == run[..|half|][j] && run[j + 1] == run[..|half|][j + 1];
  }
}
