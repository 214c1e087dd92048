/**
 A single order relay that crashes but whose publishes and marks otherwise
 succeed: the topic is the outbox in order, with at most one repeat per crash.
 */
module OneRelay {
  import opened OrderRelay
  import Backlog

  // No publish and no mark fails; crashes are allowed anywhere.
  predicate Smooth(a: Action) {
    && (a.Publish? ==> a.stored && a.ok)
    && (a.MarkSent? ==> a.applied && a.ok)
  }

  function Crashes(actions: seq<Action>): nat {
    if actions == [] then 0
    else Crashes(actions[..|actions| - 1]) + (if actions[|actions| - 1].Crash? then 1 else 0)
  }

  // How many rows have reached the topic, when they did so in order.
  function Reached(source: seq<nat>): nat {
    if source == [] then 0 else source[|source| - 1] + 1
  }

  // Each message is a copy of the previous one's row or of the next row.
  ghost predicate InOrder(source: seq<nat>) {
    forall j | 0 <= j < |source| :: source[j] + 1 == Reached(source[..j]) || source[j] == Reached(source[..j])
  }

  predicate SentPrefix(rows: seq<Row>, n: nat) {
    n <= |rows| && forall i | 0 <= i < |rows| :: rows[i].sent <==> i < n
  }

  ghost predicate Inv(s: State, n: nat, crashes: nat) {
    && |s.pollers| == 1 && !s.pollers[0].Failing? && SentPrefix(s.rows, n)
    && (s.pollers[0].Next? ==>
          s.pollers[0].batch != [] && Backlog.Consecutive(s.pollers[0].batch, n)
          && n + |s.pollers[0].batch| <= |s.rows|)
    && (s.pollers[0].Published? ==>
          && s.pollers[0].row == n < |s.rows| && Reached(s.source) == n + 1
          && Backlog.Consecutive(s.pollers[0].batch, n + 1) && n + 1 + |s.pollers[0].batch| <= |s.rows|)
    && InOrder(s.source) && n <= Reached(s.source) <= n + 1
    && |s.source| + (if Reached(s.source) == n + 1 && !s.pollers[0].Published? then 1 else 0)
       <= Reached(s.source) + crashes
  }

  lemma PushInOrder(source: seq<nat>, row: nat)
    requires InOrder(source) && (row == Reached(source) || row + 1 == Reached(source))
    ensures InOrder(source + [row]) && Reached(source + [row]) == row + 1
  {
    forall j | 0 <= j < |source + [row]|
      ensures (source + [row])[j] + 1 == Reached((source + [row])[..j])
              || (source + [row])[j] == Reached((source + [row])[..j])
    {
      assert (source + [row])[..j] == source[..j];
      if j == |source| { assert source[..j] == source; }
    }
  }

  // The rows marked after an action.
  function SentAfter(s: State, n: nat, a: Action): nat {
    if a.MarkSent? && a.poller == 0 && |s.pollers| > 0 && s.pollers[0].Published? then n + 1 else n
  }

  lemma PollKeepsInv(s: State, n: nat, crashes: nat)
    requires Inv(s, n, crashes) && s.pollers[0].Idle?
    ensures Inv(PollStep(s, 0), n, crashes)
  {
    Backlog.OpenTail(Pending(s.rows), n);
  }

  lemma PublishKeepsInv(s: State, n: nat, crashes: nat)
    requires Inv(s, n, crashes) && s.pollers[0].Next?
    ensures Inv(PublishStep(s, 0, true, true), n, crashes)
  {
    PushInOrder(s.source, n);
  }

  lemma MarkKeepsInv(s: State, n: nat, crashes: nat, now: int)
    requires Inv(s, n, crashes) && s.pollers[0].Published?
    ensures Inv(MarkSentStep(s, 0, now, true, true), n + 1, crashes)
  {
    hide Reached, InOrder;
  }

  // Inserts, crashes, and actions of a poller that is not at that await.
  lemma OtherKeepsInv(s: State, n: nat, crashes: nat, a: Action)
    requires Inv(s, n, crashes) && Smooth(a)
    requires a.Poll? || a.Publish? || a.MarkSent? || a.MarkFailed? ==> Step(s, a) == s
    ensures Inv(Step(s, a), n, crashes + if a.Crash? then 1 else 0)
  {
    hide Reached, InOrder;
  }

  lemma StepKeepsInv(s: State, n: nat, crashes: nat, a: Action)
    requires Inv(s, n, crashes) && Smooth(a)
    ensures Inv(Step(s, a), SentAfter(s, n, a), crashes + if a.Crash? then 1 else 0)
  {
    if a.Poll? && a.poller == 0 && s.pollers[0].Idle? {
      PollKeepsInv(s, n, crashes);
    } else if a.Publish? && a.poller == 0 && s.pollers[0].Next? {
      PublishKeepsInv(s, n, crashes);
    } else if a.MarkSent? && a.poller == 0 && s.pollers[0].Published? {
      MarkKeepsInv(s, n, crashes, a.now);
    } else {
      OtherKeepsInv(s, n, crashes, a);
    }
  }

  lemma {:induction false} RunKeepsInv(actions: seq<Action>) returns (n: nat)
    requires forall a <- actions :: Smooth(a)
    ensures Inv(Run(Init(1), actions), n, Crashes(actions))
  {
    if actions == [] {
      n := 0;
    } else {
      var front, a := actions[..|actions| - 1], actions[|actions| - 1];
      assert forall b <- front :: b in actions;
      var m := RunKeepsInv(front);
      StepKeepsInv(Run(Init(1), front), m, Crashes(front), a);
      n := SentAfter(Run(Init(1), front), m, a);
    }
  }

  // The rows on the topic, in the order of their first copies.
  function FirstCopies(source: seq<nat>): seq<nat> {
    if source == [] then []
    else
      var front, last := source[..|source| - 1], source[|source| - 1];
      if last in front then FirstCopies(front) else FirstCopies(front) + [last]
  }

  lemma {:induction false} FirstCopiesInOrder(source: seq<nat>)
    requires InOrder(source)
    ensures |FirstCopies(source)| == Reached(source) && Backlog.Consecutive(FirstCopies(source), 0)
    ensures forall r: nat :: r in source <==> r < Reached(source)
  {
    if source != [] {
      var front, last := source[..|source| - 1], source[|source| - 1];
      assert source == front + [last];
      forall j | 0 <= j < |front|
        ensures front[j] + 1 == Reached(front[..j]) || front[j] == Reached(front[..j])
      {
        assert front[..j] == source[..j];
      }
      FirstCopiesInOrder(front);
    }
  }

  // What a run with n rows marked has put on the topic.
  ghost predicate OnTopic(s: State, n: nat, crashes: nat) {
    && SentPrefix(s.rows, n)
    && n <= |FirstCopies(s.source)| <= n + 1 && Backlog.Consecutive(FirstCopies(s.source), 0)
    && |s.source| <= |FirstCopies(s.source)| + crashes
  }

  // The SENT rows are a prefix of creation order; the topic's first copies are
  // that prefix and at most one row more, in order; and a crash repeats at most
  // one row.
  lemma PrefixOnTopic(actions: seq<Action>)
    requires forall a <- actions :: Smooth(a)
    ensures exists n: nat :: OnTopic(Run(Init(1), actions), n, Crashes(actions))
  {
    var n := RunKeepsInv(actions);
    FirstCopiesInOrder(Run(Init(1), actions).source);
    assert OnTopic(Run(Init(1), actions), n, Crashes(actions));
  }
}
