// The queue: which outbound transfers a dispatch starts.
module Dispatch {
  import opened Results
  import opened Transfers
  import opened Sorting
  import opened Lifecycle

  predicate Eligible(t: Transfer) {
    t.direction.Outbound? && (t.status.Queued? || t.status.Resuming?)
  }

  function ByPriority(): (Transfer, Transfer) -> bool {
    (a: Transfer, b: Transfer) => a.priority <= b.priority
  }

  function IsEligible(): Transfer -> bool {
    (t: Transfer) => Eligible(t)
  }

  function AtPriority(priority: int): Transfer -> bool {
    (t: Transfer) => t.priority == priority
  }

  function EligibleAt(priority: int): Transfer -> bool {
    (t: Transfer) => Eligible(t) && t.priority == priority
  }

  function Ids(items: seq<Transfer>): (r: seq<string>)
    ensures |r| == |items| && forall i :: 0 <= i < |r| ==> r[i] == items[i].id
  {
    seq(|items|, i requires 0 <= i < |items| => items[i].id)
  }

  // The eligible transfers in the order a dispatch considers them.
  function Line(items: seq<Transfer>): seq<Transfer> {
    Filter(Sort(items, ByPriority()), IsEligible())
  }

  lemma {:induction false} FilterAppend<T>(s: seq<T>, p: T -> bool, x: T)
    ensures Filter(s + [x], p) == Filter(s, p) + (if p(x) then [x] else [])
  {
    if s == [] {
      assert s + [x] == [x];
    } else {
      FilterAppend(s[1..], p, x);
      assert (s + [x])[1..] == s[1..] + [x];
    }
  }

  lemma {:induction false} FilterPrefix<T>(s: seq<T>, k: nat, p: T -> bool)
    requires k <= |s|
    ensures Filter(s[..k], p) <= Filter(s, p)
    decreases |s| - k
  {
    if k == |s| {
      assert s[..k] == s;
    } else {
      FilterPrefix(s, k + 1, p);
      assert s[..k + 1] == s[..k] + [s[k]];
      FilterAppend(s[..k], p, s[k]);
    }
  }

  lemma {:induction false} FilterFilter<T>(s: seq<T>, p: T -> bool, q: T -> bool, both: T -> bool)
    requires forall x :: both(x) <==> p(x) && q(x)
    ensures Filter(Filter(s, p), q) == Filter(s, both)
  {
    if s != [] {
      FilterFilter(s[1..], p, q, both);
      if p(s[0]) {
        assert ([s[0]] + Filter(s[1..], p))[1..] == Filter(s[1..], p);
      }
    }
  }

  lemma {:induction false} FilterMembers<T>(s: seq<T>, p: T -> bool, x: T)
    ensures x in Filter(s, p) <==> x in s && p(x)
  {
    if s != [] {
      FilterMembers(s[1..], p, x);
      assert s == [s[0]] + s[1..];
    }
  }

  lemma {:induction false} FilterSorted<T>(s: seq<T>, p: T -> bool, le: (T, T) -> bool)
    requires Sorted(s, le)
    ensures Sorted(Filter(s, p), le)
  {
    if s != [] {
      FilterSorted(s[1..], p, le);
      var rest := Filter(s[1..], p);
      forall j | 0 <= j < |rest| ensures le(s[0], rest[j]) {
        FilterMembers(s[1..], p, rest[j]);
        var i :| 0 <= i < |s[1..]| && s[1..][i] == rest[j];
        assert s[i + 1] == rest[j];
      }
    }
  }

  // The line holds every outbound transfer that is queued or resuming, by rising
  // priority number, and those of equal priority in the order the store lists them.
  lemma LineIsStable(items: seq<Transfer>, priority: int)
    ensures Rising(Line(items))
    ensures forall t :: t in Line(items) <==> t in items && t.direction == Outbound && t.status in {Queued, Resuming}
    ensures Filter(Line(items), AtPriority(priority)) == Filter(items, EligibleAt(priority))
    ensures forall t :: EligibleAt(priority)(t) <==> AtPriority(priority)(t) && Waits(t)
  {
    var sorted := Sort(items, ByPriority());
    SortCorrect(items, ByPriority());
    FilterSorted(sorted, IsEligible(), ByPriority());
    forall t ensures t in Line(items) <==> t in items && Eligible(t) {
      FilterMembers(sorted, IsEligible(), t);
      assert t in sorted <==> t in multiset(sorted);
      assert t in items <==> t in multiset(items);
    }
    FilterFilter(sorted, IsEligible(), AtPriority(priority), EligibleAt(priority));
    SortStable(items, ByPriority(), EligibleAt(priority));
  }

  ghost predicate Rising(items: seq<Transfer>) {
    forall i, j :: 0 <= i < j < |items| ==> items[i].priority <= items[j].priority
  }

  // What was started, in that order, are waiting outbound transfers of the list,
  // the more urgent ones first.
  ghost predicate StartedInOrder(items: seq<Transfer>, started: seq<string>) {
    exists taken :: Rising(taken) && started == Ids(taken)
      && forall t :: t in taken ==> t in items && t.direction == Outbound && t.status in {Queued, Resuming}
  }

  lemma PrefixInOrder(items: seq<Transfer>, taken: seq<Transfer>)
    requires taken <= Line(items)
    ensures StartedInOrder(items, Ids(taken))
  {
    LineIsStable(items, 0);
    hide Line, Ids;
    assert forall i :: 0 <= i < |taken| ==> taken[i] == Line(items)[i];
    assert Rising(taken);
  }

  // An outbound transfer that was resumed, retried or recovered from interrupted
  // work is in the next line; a paused, failed or finished one, or an inbound one,
  // never is.
  lemma NextInLine(items: seq<Transfer>, t: Transfer, now: int)
    requires t.direction == Outbound
    ensures t.status == Paused ==> forall u :: Called(t, Call.Resume, now) == Some(u) && u in items ==> u in Line(items)
    ensures t.status == Status.Failed ==>
      forall u :: Called(t, Call.Retry, now) == Some(u) && u in items ==> u in Line(items)
    ensures t.status in {Preparing, Connecting, Negotiating, Sending, Resuming} && Recovered(t, now) in items ==>
      Recovered(t, now) in Line(items)
    ensures forall u :: u in Line(items) ==>
      u.direction != Inbound && u.status !in {Paused, Status.Failed, Completed, Cancelled, Sending, Verifying}
  {
    LineIsStable(items, 0);
    PauseThenResume(t, now, now);
    RetryOnlyFailed(t, now);
    RestartRequeues(t, now);
  }

  function Members(ids: seq<string>): set<string> {
    set id | id in ids
  }

  class Dispatcher {
    const maxConcurrent: int
    var active: set<string>

    constructor (maxConcurrent: int)
      requires 0 < maxConcurrent
      ensures active == {} && this.maxConcurrent == maxConcurrent
    {
      this.maxConcurrent := maxConcurrent;
      active := {};
    }

    // Starts transfers from the front of the line while there is room. The
    // limit is never passed, nobody is overtaken, and when a dispatch leaves
    // somebody waiting the active set is full.
    method Dispatch(items: seq<Transfer>) returns (started: seq<string>)
      modifies this
      ensures started <= Ids(Line(items))
      ensures active == old(active) + Members(started)
      ensures |old(active)| <= maxConcurrent ==> |active| <= maxConcurrent
      ensures maxConcurrent <= |old(active)| ==> started == []
      ensures |started| < |Line(items)| ==> maxConcurrent <= |active|
      ensures maxConcurrent <= |active| ||
        forall t :: t in items && t.direction == Outbound && t.status in {Queued, Resuming} ==> t.id in active
      ensures StartedInOrder(items, started)
    {
      hide Sort, Filter, Ids, Line, Eligible, StartedInOrder;
      started := [];
      ghost var taken: seq<Transfer> := [];
      StartedFromLine(items, taken);
      if maxConcurrent <= |active| {
        return;
      }
      var sorted := Sort(items, ByPriority());
      NothingFiltered(sorted);
      for i := 0 to |sorted|
        invariant taken == Filter(sorted[..i], IsEligible()) && started == Ids(taken)
        invariant active == old(active) + Members(started)
        invariant |active| <= maxConcurrent
      {
        if maxConcurrent <= |active| {
          TakenFromLine(items, i);
          StartedFromLine(items, taken);
          return;
        }
        var t := sorted[i];
        assert sorted[..i + 1] == sorted[..i] + [t];
        FilterAppend(sorted[..i], IsEligible(), t);
        if Eligible(t) {
          IdsAppend(taken, t);
          active := active + {t.id};
          started := started + [t.id];
          taken := taken + [t];
        }
      }
      assert sorted[..|sorted|] == sorted;
      TakenFromLine(items, |sorted|);
      StartedFromLine(items, taken);
    }

    // The worker's last step.
    method Finished(id: string)
      modifies this
      ensures active == old(active) - {id}
    {
      active := active - {id};
    }
  }

  lemma NothingFiltered(s: seq<Transfer>)
    ensures Filter(s[..0], IsEligible()) == [] && Ids([]) == []
  {
  }

  lemma IdsAppend(items: seq<Transfer>, t: Transfer)
    ensures Ids(items + [t]) == Ids(items) + [t.id]
  {
  }

  lemma TakenFromLine(items: seq<Transfer>, k: nat)
    requires k <= |Sort(items, ByPriority())|
    ensures Filter(Sort(items, ByPriority())[..k], IsEligible()) <= Line(items)
    ensures k == |Sort(items, ByPriority())| ==> Filter(Sort(items, ByPriority())[..k], IsEligible()) == Line(items)
  {
    var sorted := Sort(items, ByPriority());
    FilterPrefix(sorted, k, IsEligible());
    assert k == |sorted| ==> sorted[..k] == sorted;
  }

  lemma StartedFromLine(items: seq<Transfer>, taken: seq<Transfer>)
    requires taken <= Line(items)
    ensures Ids(taken) <= Ids(Line(items)) && |Ids(taken)| == |taken| && Ids([]) == []
    ensures StartedInOrder(items, Ids(taken))
    ensures taken == Line(items) ==>
      forall t :: t in items && t.direction == Outbound && t.status in {Queued, Resuming} ==> t.id in Members(Ids(taken))
  {
    LineIsStable(items, 0);
    PrefixInOrder(items, taken);
    hide Line;
    if taken == Line(items) {
      forall t | t in items && t.direction == Outbound && t.status in {Queued, Resuming}
        ensures t.id in Members(Ids(taken))
      {
        var i :| 0 <= i < |taken| && taken[i] == t;
        assert Ids(taken)[i] == t.id;
      }
    }
  }
}
