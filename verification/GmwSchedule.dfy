/** When gates are evaluated, and which uses of their values are still to come. */
module GmwSchedule {
  import opened Bits
  import opened Circuit
  import opened GmwSpec

  /** The gates of the layers before d. */
  function Before(gs: seq<Gate>, d: nat): (s: set<nat>)
  {
    set g: nat | g < |gs| && gs[g].depth < d
  }

  /** The first i gates of a queue. */
  function FirstOf(q: seq<nat>, i: nat): set<nat>
    requires i <= |q|
  {
    set k | 0 <= k < i :: q[k]
  }

  /** What the numbers below n contribute that are not done. */
  function Outstanding(f: nat -> multiset<nat>, done: set<nat>, n: nat): multiset<nat> {
    if n == 0 then multiset{} else Outstanding(f, done, n - 1) + if n - 1 in done then multiset{} else f(n - 1)
  }

  lemma {:induction false} OutstandingCong(f: nat -> multiset<nat>, done: set<nat>, other: set<nat>, n: nat)
    requires forall g | 0 <= g < n :: g in done <==> g in other
    ensures Outstanding(f, done, n) == Outstanding(f, other, n)
  {
    if n > 0 {
      OutstandingCong(f, done, other, n - 1);
    }
  }

  lemma {:induction false} OutstandingStep(f: nat -> multiset<nat>, done: set<nat>, more: set<nat>, n: nat, g: nat)
    requires g < n && g !in done && more == done + {g}
    ensures Outstanding(f, done, n) == Outstanding(f, more, n) + f(g)
  {
    if g == n - 1 {
      OutstandingCong(f, done, more, n - 1);
    } else {
      OutstandingStep(f, done, more, n - 1, g);
    }
  }

  /** One use of every operand. */
  function UsesOf(gs: seq<Gate>): nat -> multiset<nat> {
    (g: nat) => if g < |gs| then multiset(Parents(gs[g].op)) else multiset{}
  }

  /** The uses that gates below n will still make, once those in done have made theirs. */
  function Rest(gs: seq<Gate>, done: set<nat>, n: nat): multiset<nat> {
    Outstanding(UsesOf(gs), done, n)
  }

  /** When a gate makes its uses, exactly these disappear from the uses to come. */
  lemma RestStep(gs: seq<Gate>, done: set<nat>, n: nat, g: nat)
    requires g < n <= |gs| && g !in done
    ensures Rest(gs, done, n) == Rest(gs, done + {g}, n) + multiset(Parents(gs[g].op))
  {
    OutstandingStep(UsesOf(gs), done, done + {g}, n, g);
  }

  /** At the start all registered uses are still to come. */
  lemma {:induction false} RestAtStart(gs: seq<Gate>, n: nat)
    requires n <= |gs|
    ensures Rest(gs, {}, n) == Uses(gs[..n])
  {
    if n > 0 {
      RestAtStart(gs, n - 1);
      UsesPrefix(gs, n);
    }
  }

  lemma UsesPrefix(gs: seq<Gate>, n: nat)
    requires 0 < n <= |gs|
    ensures Uses(gs[..n]) == Uses(gs[..n - 1]) + UsesOf(gs)(n - 1)
  {
    var front := gs[..n - 1];
    assert gs[..n] == front + [gs[n - 1]];
    UsesAppend(front, gs[n - 1]);
  }

  /** At the end no use is left. */
  lemma {:induction false} RestAtEnd(gs: seq<Gate>, done: set<nat>, n: nat)
    requires n <= |gs| && forall g | 0 <= g < n :: g in done
    ensures Rest(gs, done, n) == multiset{}
  {
    if n > 0 {
      RestAtEnd(gs, done, n - 1);
    }
  }

  lemma {:induction false} QueueIncreasing(gs: seq<Gate>, interactive: bool, d: nat, n: nat, i: nat, j: nat)
    requires n <= |gs| && i < j < |Queue(BOOL, gs, interactive, d, n)|
    ensures Queue(BOOL, gs, interactive, d, n)[i] < Queue(BOOL, gs, interactive, d, n)[j]
  {
    var q := Queue(BOOL, gs, interactive, d, n - 1);
    if j < |q| {
      QueueIncreasing(gs, interactive, d, n - 1, i, j);
    }
  }

  function LocalQueue(gs: seq<Gate>, d: nat): (q: seq<nat>)
    ensures Ids(gs, q)
  {
    Queue(BOOL, gs, false, d, |gs|)
  }

  /** What has been evaluated once i local gates of layer d are done. */
  function LocalDone(gs: seq<Gate>, d: nat, i: nat): set<nat>
    requires i <= |LocalQueue(gs, d)|
  {
    Before(gs, d) + FirstOf(LocalQueue(gs, d), i)
  }

  /** A parent is evaluated before its consumer: on an earlier layer, or locally on the same one. */
  lemma ParentDone(gs: seq<Gate>, g: nat, p: nat)
    requires WellFormed(BOOL, gs) && g < |gs| && p in Parents(gs[g].op)
    ensures p < g && !gs[p].op.Out?
    ensures gs[p].depth < gs[g].depth || (gs[p].depth == gs[g].depth && !Interactive(BOOL, gs[p].op))
  {
    ParentSchedule(BOOL, gs, g, p);
    assert GateOk(BOOL, gs, p);
  }

  lemma LocalReady(gs: seq<Gate>, d: nat, i: nat)
    requires WellFormed(BOOL, gs) && i < |LocalQueue(gs, d)|
    ensures var g := LocalQueue(gs, d)[i];
            && g !in LocalDone(gs, d, i) && LocalDone(gs, d, i + 1) == LocalDone(gs, d, i) + {g}
            && forall p | p in Parents(gs[g].op) :: p in LocalDone(gs, d, i) && !gs[p].op.Out?
  {
    var q := LocalQueue(gs, d);
    var g := q[i];
    forall k | 0 <= k < i
      ensures q[k] != g
    {
      QueueIncreasing(gs, false, d, |gs|, k, i);
    }
    forall p | p in Parents(gs[g].op)
      ensures p in LocalDone(gs, d, i) && !gs[p].op.Out?
    {
      ParentDone(gs, g, p);
      if gs[p].depth == d {
        EarlierInQueue(gs, false, d, i, p);
      }
    }
  }

  /** A gate of the same queue with a smaller id sits at an earlier position. */
  lemma EarlierInQueue(gs: seq<Gate>, interactive: bool, d: nat, i: nat, p: nat)
    requires i < |Queue(BOOL, gs, interactive, d, |gs|)| && p < Queue(BOOL, gs, interactive, d, |gs|)[i]
    requires gs[p].depth == d && Interactive(BOOL, gs[p].op) == interactive
    ensures p in FirstOf(Queue(BOOL, gs, interactive, d, |gs|), i)
  {
    var q := Queue(BOOL, gs, interactive, d, |gs|);
    QueueMembers(BOOL, gs, interactive, d, |gs|, p);
    var k :| 0 <= k < |q| && q[k] == p;
    if i < k {
      QueueIncreasing(gs, interactive, d, |gs|, i, k);
    }
  }

  /** Everything an interactive gate needs is there once the local gates of its layer are done. */
  lemma InteractiveReady(gs: seq<Gate>, d: nat, i: nat)
    requires WellFormed(BOOL, gs) && i < |Layer(gs, d)|
    ensures var g := Layer(gs, d)[i];
            forall p | p in Parents(gs[g].op) :: p in LocalDone(gs, d, |LocalQueue(gs, d)|) && !gs[p].op.Out?
  {
    var g := Layer(gs, d)[i];
    forall p | p in Parents(gs[g].op)
      ensures p in LocalDone(gs, d, |LocalQueue(gs, d)|) && !gs[p].op.Out?
    {
      ParentDone(gs, g, p);
      QueueMembers(BOOL, gs, false, d, |gs|, p);
    }
  }

  /** The interactive gates of a layer are new to what has been evaluated, and all different. */
  lemma InteractiveNew(gs: seq<Gate>, d: nat, i: nat)
    requires i < |Layer(gs, d)|
    ensures Layer(gs, d)[i] !in LocalDone(gs, d, |LocalQueue(gs, d)|)
    ensures forall k | 0 <= k < i :: Layer(gs, d)[k] != Layer(gs, d)[i]
  {
    forall k | 0 <= k < i
      ensures Layer(gs, d)[k] != Layer(gs, d)[i]
    {
      QueueIncreasing(gs, true, d, |gs|, k, i);
    }
  }

  /** Local and interactive gates together are the layer. */
  lemma LayerComplete(gs: seq<Gate>, d: nat)
    ensures LocalDone(gs, d, |LocalQueue(gs, d)|) + FirstOf(Layer(gs, d), |Layer(gs, d)|) == Before(gs, d + 1)
  {
    forall g: nat | g in Before(gs, d + 1)
      ensures g in LocalDone(gs, d, |LocalQueue(gs, d)|) + FirstOf(Layer(gs, d), |Layer(gs, d)|)
    {
      QueueMembers(BOOL, gs, false, d, |gs|, g);
      QueueMembers(BOOL, gs, true, d, |gs|, g);
    }
  }

  /** After the last layer everything has been evaluated. */
  lemma AllDone(gs: seq<Gate>, d: nat)
    requires forall g | 0 <= g < |gs| :: gs[g].depth < d
    ensures Before(gs, 0) == {} && forall g: nat | g < |gs| :: g in Before(gs, d)
    ensures Rest(gs, Before(gs, d), |gs|) == multiset{}
  {
    RestAtEnd(gs, Before(gs, d), |gs|);
  }

  // ----- the lists of a layer -------------------------------------------------------------

  lemma {:induction false} FirstOfStep(q: seq<nat>, i: nat)
    requires i < |q|
    ensures FirstOf(q, i + 1) == FirstOf(q, i) + {q[i]}
  {
  }

  /** The list of a stock holds exactly the gates that belong to it. */
  lemma {:induction false} MembersIff(gs: seq<Gate>, s: Stock, q: seq<nat>, i: nat, g: nat)
    requires Ids(gs, q) && i <= |q|
    ensures g in Members(gs, s, q, i) <==> g in FirstOf(q, i) && g < |gs| && Belongs(gs, s, g)
  {
    if i > 0 {
      MembersIff(gs, s, q, i - 1, g);
      FirstOfStep(q, i - 1);
    }
  }

  /** No gate is listed twice. */
  lemma MembersDistinct(gs: seq<Gate>, s: Stock, d: nat, j: nat, k: nat)
    requires j < k < |Members(gs, s, Layer(gs, d), |Layer(gs, d)|)|
    ensures Members(gs, s, Layer(gs, d), |Layer(gs, d)|)[j] != Members(gs, s, Layer(gs, d), |Layer(gs, d)|)[k]
  {
    IncreasingMembers(gs, s, d, j, k);
  }

  lemma IncreasingMembers(gs: seq<Gate>, s: Stock, d: nat, j: nat, k: nat)
    requires j < k < |Members(gs, s, Layer(gs, d), |Layer(gs, d)|)|
    ensures Members(gs, s, Layer(gs, d), |Layer(gs, d)|)[j] < Members(gs, s, Layer(gs, d), |Layer(gs, d)|)[k]
  {
    var q := Layer(gs, d);
    forall x: nat, y: nat | x < y < |q|
      ensures q[x] < q[y]
    {
      QueueIncreasing(gs, true, d, |gs|, x, y);
    }
    MembersAscend(gs, s, q, |q|, j, k);
  }

  lemma {:induction false} MembersAscend(gs: seq<Gate>, s: Stock, q: seq<nat>, i: nat, j: nat, k: nat)
    requires Ids(gs, q) && i <= |q| && j < k < |Members(gs, s, q, i)|
    requires forall x: nat, y: nat | x < y < |q| :: q[x] < q[y]
    ensures Members(gs, s, q, i)[j] < Members(gs, s, q, i)[k]
  {
    var m := Members(gs, s, q, i - 1);
    if k < |m| {
      MembersAscend(gs, s, q, i - 1, j, k);
    } else {
      var x := MemberPosition(gs, s, q, i - 1, j);
    }
  }

  /** A listed gate lies in the stock of the layer right behind the gates listed before it. */
  lemma MemberOffset(gs: seq<Gate>, s: Stock, d: nat, k: nat)
    requires k < |Members(gs, s, Layer(gs, d), |Layer(gs, d)|)|
    ensures var m := Members(gs, s, Layer(gs, d), |Layer(gs, d)|);
            && gs[m[k]].depth == d && Offset(gs, s, m[k]) == Taken(gs, s, m, k)
            && Taken(gs, s, m, k) + Amount(gs, s, m[k]) <= Taken(gs, s, Layer(gs, d), |Layer(gs, d)|)
  {
    var q := Layer(gs, d);
    var j := MemberPosition(gs, s, q, |q|, k);
    OffsetInLayer(gs, s, d, j);
    TakenMonotone(gs, s, q, j, |q|);
  }
}
