/**
 withDomainLock: every call takes the promise of the call before it and leaves its own behind. Over all
 interleavings, and whether operations return or throw, this is a first-come-first-served lock per domain.
 */
module DomainLock {
  import opened Common
  import opened Texts

  datatype Phase = Waiting | Running | Finished

  /** A call: its domain, and the call whose promise it awaits; its own promise is resolved once it has finished. */
  datatype Call = Call(domain: Text, previous: Option<nat>, phase: Phase)

  /** All calls in order of arrival, and the map from a domain to the call holding its latest promise. */
  datatype Locks = Locks(calls: seq<Call>, tail: map<Text, nat>)

  datatype Step =
    | Arrive(domain: Text)
    | Enter(i: nat)
    /** The operation returned or threw: either way the finally block runs. */
    | Leave(i: nat)

  predicate Resolved(l: Locks, previous: Option<nat>) {
    previous.Some? ==> previous.value < |l.calls| && l.calls[previous.value].phase.Finished?
  }

  predicate Enabled(l: Locks, s: Step) {
    match s
    case Arrive(_) => true
    case Enter(i) => i < |l.calls| && l.calls[i].phase.Waiting? && Resolved(l, l.calls[i].previous)
    case Leave(i) => i < |l.calls| && l.calls[i].phase.Running?
  }

  function TailOf(l: Locks, domain: Text): Option<nat> { if domain in l.tail then Some(l.tail[domain]) else None }

  function Released(tail: map<Text, nat>, domain: Text, i: nat): map<Text, nat> {
    if domain in tail && tail[domain] == i then tail - {domain} else tail
  }

  function Take(l: Locks, s: Step): Locks
    requires Enabled(l, s)
  {
    match s
    case Arrive(domain) => Locks(l.calls + [Call(domain, TailOf(l, domain), Waiting)], l.tail[domain := |l.calls|])
    case Enter(i) => l.(calls := l.calls[i := l.calls[i].(phase := Running)])
    case Leave(i) => Locks(l.calls[i := l.calls[i].(phase := Finished)], Released(l.tail, l.calls[i].domain, i))
  }

  predicate Runs(l: Locks, steps: seq<Step>)
    decreases |steps|
  {
    steps == [] || (Enabled(l, steps[0]) && Runs(Take(l, steps[0]), steps[1..]))
  }

  function After(l: Locks, steps: seq<Step>): Locks
    requires Runs(l, steps)
    decreases |steps|
  {
    if steps == [] then l else After(Take(l, steps[0]), steps[1..])
  }

  // ---- the queue of a domain -------------------------------------------------

  /** The unfinished calls of a domain among the first `n`, in order of arrival. */
  function Queue(l: Locks, domain: Text, n: nat): seq<nat>
    requires n <= |l.calls|
  {
    if n == 0 then []
    else
      var init := Queue(l, domain, n - 1);
      if l.calls[n - 1].domain == domain && !l.calls[n - 1].phase.Finished? then init + [n - 1] else init
  }

  function QueueOf(l: Locks, domain: Text): seq<nat> { Queue(l, domain, |l.calls|) }

  lemma {:induction false} QueueMembers(l: Locks, domain: Text, n: nat)
    requires n <= |l.calls|
    ensures forall i ::
        i in Queue(l, domain, n) <==> 0 <= i < n && l.calls[i].domain == domain && !l.calls[i].phase.Finished?
    ensures forall a, b | 0 <= a < b < |Queue(l, domain, n)| :: Queue(l, domain, n)[a] < Queue(l, domain, n)[b]
  {
    if n > 0 {
      QueueMembers(l, domain, n - 1);
      var init := Queue(l, domain, n - 1);
      forall a | 0 <= a < |init| ensures init[a] < n - 1 { assert init[a] in init; }
    }
  }

  // ---- the invariant ---------------------------------------------------------

  /** `j` is the call of the same domain that arrived last before `i`. */
  ghost predicate Precedes(l: Locks, j: nat, i: nat)
    requires i < |l.calls|
  {
    j < i && l.calls[j].domain == l.calls[i].domain && forall m | j < m < i :: l.calls[m].domain != l.calls[i].domain
  }

  ghost predicate EarlierFinished(l: Locks, i: nat)
    requires i < |l.calls|
  {
    forall j | 0 <= j < i && l.calls[j].domain == l.calls[i].domain :: l.calls[j].phase.Finished?
  }

  ghost predicate ChainOk(l: Locks, i: nat)
    requires i < |l.calls|
  {
    && (if l.calls[i].previous.Some? then Precedes(l, l.calls[i].previous.value, i) else EarlierFinished(l, i))
    && (!l.calls[i].phase.Waiting? ==> EarlierFinished(l, i))
  }

  ghost predicate TailOk(l: Locks, domain: Text) {
    if domain in l.tail then
      && l.tail[domain] < |l.calls| && l.calls[l.tail[domain]].domain == domain
          && !l.calls[l.tail[domain]].phase.Finished?
      && forall m | l.tail[domain] < m < |l.calls| :: l.calls[m].domain != domain
    else forall m | 0 <= m < |l.calls| && l.calls[m].domain == domain :: l.calls[m].phase.Finished?
  }

  ghost predicate Inv(l: Locks) { (forall i | 0 <= i < |l.calls| :: ChainOk(l, i)) && (forall d: Text :: TailOk(l, d)) }

  lemma ArriveKeeps(l: Locks, domain: Text)
    requires Inv(l)
    ensures Inv(Take(l, Arrive(domain)))
  {
    var n := Take(l, Arrive(domain));
    assert TailOk(l, domain);
    forall i | 0 <= i < |n.calls| ensures ChainOk(n, i) {
      if i < |l.calls| { assert ChainOk(l, i); }
    }
    forall d: Text ensures TailOk(n, d) { assert TailOk(l, d); }
  }

  lemma EnterKeeps(l: Locks, i: nat)
    requires Inv(l) && Enabled(l, Enter(i))
    ensures Inv(Take(l, Enter(i))) && EarlierFinished(l, i)
  {
    var n := Take(l, Enter(i));
    assert ChainOk(l, i);
    if l.calls[i].previous.Some? {
      var p := l.calls[i].previous.value;
      assert ChainOk(l, p);
      forall j | 0 <= j < i && l.calls[j].domain == l.calls[i].domain ensures l.calls[j].phase.Finished? {
        if j != p { assert j < p; }
      }
    }
    forall k | 0 <= k < |n.calls| ensures ChainOk(n, k) { assert ChainOk(l, k); }
    forall d: Text ensures TailOk(n, d) { assert TailOk(l, d); }
  }

  lemma LeaveKeeps(l: Locks, i: nat)
    requires Inv(l) && Enabled(l, Leave(i))
    ensures Inv(Take(l, Leave(i)))
  {
    var n := Take(l, Leave(i));
    assert ChainOk(l, i);
    forall k | 0 <= k < |n.calls| ensures ChainOk(n, k) { assert ChainOk(l, k); }
    forall d: Text ensures TailOk(n, d) {
      assert TailOk(l, d);
      if d == l.calls[i].domain && d in l.tail && l.tail[d] == i {
        forall m | 0 <= m < |n.calls| && n.calls[m].domain == d ensures n.calls[m].phase.Finished? {
          if m < i { assert l.calls[m].phase.Finished?; }
        }
      }
    }
  }

  lemma StepKeeps(l: Locks, s: Step)
    requires Inv(l) && Enabled(l, s)
    ensures Inv(Take(l, s))
  {
    match s
    case Arrive(domain) => ArriveKeeps(l, domain);
    case Enter(i) => EnterKeeps(l, i);
    case Leave(i) => LeaveKeeps(l, i);
  }

  lemma {:induction false} RunKeeps(l: Locks, steps: seq<Step>)
    requires Inv(l) && Runs(l, steps)
    ensures Inv(After(l, steps))
    decreases |steps|
  {
    if steps != [] {
      StepKeeps(l, steps[0]);
      RunKeeps(Take(l, steps[0]), steps[1..]);
    }
  }

  // ---- theorems --------------------------------------------------------------

  /** In every interleaving at most one call per domain runs, and only the one that has waited longest. */
  lemma MutualExclusion(steps: seq<Step>, i: nat, j: nat)
    requires Runs(Locks([], map[]), steps)
    requires i < |After(Locks([], map[]), steps).calls| && j < |After(Locks([], map[]), steps).calls|
    requires var l := After(Locks([], map[]), steps);
        l.calls[i].phase.Running? && l.calls[i].domain == l.calls[j].domain
    ensures var l := After(Locks([], map[]), steps);
        (l.calls[j].phase.Running? ==> i == j) && (j < i ==> l.calls[j].phase.Finished?)
        && (i < j ==> l.calls[j].phase.Waiting?)
  {
    RunKeeps(Locks([], map[]), steps);
    var l := After(Locks([], map[]), steps);
    assert ChainOk(l, i) && ChainOk(l, j);
  }

  /** A domain has a map entry exactly while somebody holds or waits for it. */
  lemma EntryMeansInUse(steps: seq<Step>, domain: Text)
    requires Runs(Locks([], map[]), steps)
    ensures var l := After(Locks([], map[]), steps); domain in l.tail <==> QueueOf(l, domain) != []
  {
    RunKeeps(Locks([], map[]), steps);
    var l := After(Locks([], map[]), steps);
    assert TailOk(l, domain);
    QueueMembers(l, domain, |l.calls|);
    if domain in l.tail { assert l.tail[domain] in QueueOf(l, domain); }
    if QueueOf(l, domain) != [] { assert QueueOf(l, domain)[0] in QueueOf(l, domain); }
  }

  /** A lock in use never gets stuck: its oldest unfinished call is running or may enter. */
  lemma HeadCanMove(l: Locks, domain: Text)
    requires Inv(l) && QueueOf(l, domain) != []
    ensures var head := QueueOf(l, domain)[0]; Enabled(l, Enter(head)) || Enabled(l, Leave(head))
  {
    QueueMembers(l, domain, |l.calls|);
    var q := QueueOf(l, domain);
    var head := q[0];
    assert head in q;
    assert ChainOk(l, head);
    forall x | x in q ensures head <= x {
      var k :| 0 <= k < |q| && q[k] == x;
    }
    if l.calls[head].previous.Some? { assert l.calls[head].previous.value !in q; }
  }

  lemma {:induction false} QueueUnchanged(l: Locks, n: Locks, domain: Text, upTo: nat)
    requires upTo <= |l.calls| && upTo <= |n.calls|
    requires forall i | 0 <= i < upTo ::
        n.calls[i].domain == l.calls[i].domain
        && (l.calls[i].domain == domain ==> (n.calls[i].phase.Finished? <==> l.calls[i].phase.Finished?))
    ensures Queue(n, domain, upTo) == Queue(l, domain, upTo)
  {
    if upTo > 0 { QueueUnchanged(l, n, domain, upTo - 1); }
  }

  lemma {:induction false} HeadLeaves(l: Locks, n: Locks, i: nat, upTo: nat)
    requires i < upTo <= |l.calls| && |n.calls| == |l.calls|
    requires EarlierFinished(l, i) && !l.calls[i].phase.Finished?
    requires n.calls == l.calls[i := l.calls[i].(phase := Finished)]
    ensures Queue(l, l.calls[i].domain, upTo) == [i] + Queue(n, l.calls[i].domain, upTo)
  {
    var d := l.calls[i].domain;
    if upTo == i + 1 {
      EmptyBefore(l, d, i);
      EmptyBefore(n, d, i);
    } else {
      HeadLeaves(l, n, i, upTo - 1);
    }
  }

  lemma {:induction false} EmptyBefore(l: Locks, domain: Text, upTo: nat)
    requires upTo <= |l.calls| && forall j | 0 <= j < upTo && l.calls[j].domain == domain :: l.calls[j].phase.Finished?
    ensures Queue(l, domain, upTo) == []
  {
    if upTo > 0 { EmptyBefore(l, domain, upTo - 1); }
  }

  /**
   The promise chain is a queue: arriving appends to the domain's queue, entering leaves it alone and is
   possible only at its head, leaving removes the head, and no step touches another domain's queue.
   */
  lemma RefinesQueue(l: Locks, s: Step, domain: Text)
    requires Inv(l) && Enabled(l, s)
    ensures var before, after := QueueOf(l, domain), QueueOf(Take(l, s), domain);
      match s
      case Arrive(d) => after == if d == domain then before + [|l.calls|] else before
      case Enter(i) => after == before && (l.calls[i].domain == domain ==> before != [] && before[0] == i)
      case Leave(i) => if l.calls[i].domain == domain then before == [i] + after else after == before
  {
    var n := Take(l, s);
    match s
    case Arrive(d) => QueueUnchanged(l, n, domain, |l.calls|);
    case Enter(i) =>
      QueueUnchanged(l, n, domain, |l.calls|);
      EnterKeeps(l, i);
      if l.calls[i].domain
          == domain { HeadLeaves(l, l.(calls := l.calls[i := l.calls[i].(phase := Finished)]), i, |l.calls|); }
    case Leave(i) =>
      assert ChainOk(l, i);
      if l.calls[i].domain == domain { HeadLeaves(l, n, i, |l.calls|); } else {
        QueueUnchanged(l, n, domain, |l.calls|);
      }
  }

  /** The map the routes share, updated before the await and in the finally block. */
  class DomainLocks {
    var tail: map<Text, nat>
    var calls: seq<Call>

    constructor ()
      ensures State() == Locks([], map[]) && Inv(State())
    {
      tail, calls := map[], [];
    }

    function State(): Locks
      reads this
    {
      Locks(calls, tail)
    }

    /** Up to the await: remember the current promise, and put one's own in its place. */
    method Queue(domain: Text) returns (ticket: nat)
      requires Inv(State())
      modifies this
      ensures State() == Take(old(State()), Arrive(domain)) && Inv(State()) && ticket == |old(calls)|
    {
      ArriveKeeps(State(), domain);
      ticket := |calls|;
      var previous := if domain in tail then Some(tail[domain]) else None;
      calls := calls + [Call(domain, previous, Waiting)];
      tail := tail[domain := ticket];
    }

    /** The finally block: release, and drop the map entry if nobody has queued up since. */
    method Release(ticket: nat)
      requires Inv(State()) && Enabled(State(), Leave(ticket))
      modifies this
      ensures State() == Take(old(State()), Leave(ticket)) && Inv(State())
    {
      LeaveKeeps(State(), ticket);
      var domain := calls[ticket].domain;
      calls := calls[ticket := calls[ticket].(phase := Finished)];
      if domain in tail && tail[domain] == ticket { tail := tail - {domain}; }
    }
  }
}
