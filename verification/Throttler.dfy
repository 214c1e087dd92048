/**
 The gateway's fixed-window throttler on one key: INCR, EXPIRE by whoever counted
 to one, then the reply.  Calls interleave, and a call may stop between its INCR
 and its EXPIRE.  Time is in milliseconds.
 */
module Throttler {
  import opened Common
  import Sums

  datatype Counter = Counter(count: nat, expires: Option<int>)

  // Math.max(Math.ceil(ttl / 1000), 1)
  function TtlSeconds(ttl: int): (s: int)
    ensures 1 <= s && ttl <= 1000 * s && (0 < ttl ==> 1000 * (s - 1) < ttl)
  {
    var seconds := CeilDiv(ttl, 1000);
    if seconds < 1 then 1 else seconds
  }

  predicate Alive(c: Option<Counter>, now: int) {
    c.Some? && (c.value.expires.Some? ==> now < c.value.expires.value)
  }

  function Incr(c: Option<Counter>, now: int): Counter {
    if Alive(c, now) then c.value.(count := c.value.count + 1) else Counter(1, None)
  }

  // EXPIRE on a key that is gone does nothing.
  function Expire(c: Option<Counter>, now: int, window: nat): Option<Counter> {
    if Alive(c, now) then Some(c.value.(expires := Some(now + window))) else None
  }

  datatype Phase = Arming | Done | Stopped // Arming: counted to one, the EXPIRE is out

  datatype Call = Call(count: nat, at: int, life: int, phase: Phase)

  // `starts` has the starting time of each lifetime of the counter, `calls` every call in INCR order.
  datatype State = State(now: int, counter: Option<Counter>, starts: seq<int>, calls: seq<Call>)

  datatype Action =
    | Tick(duration: nat)
    | Count
    | Arm(call: nat)
    | Stop(call: nat)

  function Init(now: int): State {
    State(now, None, [], [])
  }

  function CountStep(s: State): State {
    if Alive(s.counter, s.now) then
      var c := Incr(s.counter, s.now);
      s.(counter := Some(c), calls := s.calls + [Call(c.count, s.now, |s.starts| - 1, Done)])
    else
      s.(counter := Some(Counter(1, None)), starts := s.starts + [s.now],
         calls := s.calls + [Call(1, s.now, |s.starts|, Arming)])
  }

  function ArmStep(s: State, i: nat, window: nat): State {
    if i < |s.calls| && s.calls[i].phase == Arming
    then s.(counter := Expire(s.counter, s.now, window), calls := s.calls[i := s.calls[i].(phase := Done)])
    else s
  }

  function StopStep(s: State, i: nat): State {
    if i < |s.calls| && s.calls[i].phase == Arming
    then s.(calls := s.calls[i := s.calls[i].(phase := Stopped)])
    else s
  }

  function Step(s: State, a: Action, window: nat): State {
    match a
    case Tick(d) => s.(now := s.now + d)
    case Count => CountStep(s)
    case Arm(i) => ArmStep(s, i, window)
    case Stop(i) => StopStep(s, i)
  }

  function Run(s: State, actions: seq<Action>, window: nat): State {
    if actions == [] then s else Step(Run(s, actions[..|actions| - 1], window), actions[|actions| - 1], window)
  }

  /* ----- what every run keeps ----- */

  function InLife(life: int): Call -> int {
    (c: Call) => if c.life == life then 1 else 0
  }

  // A call's count is its place among the calls of its lifetime.
  ghost predicate Numbered(calls: seq<Call>) {
    forall i | 0 <= i < |calls| :: calls[i].count == Sums.Sum(InLife(calls[i].life), calls[..i]) + 1
  }

  // A call falls into its lifetime, and the one that counts to one starts it.
  predicate TimedCall(starts: seq<int>, now: int, c: Call) {
    && 1 <= c.count && 0 <= c.life < |starts| && starts[c.life] <= c.at <= now
    && (c.life + 1 < |starts| ==> c.at <= starts[c.life + 1])
    && (c.count == 1 ==> c.at == starts[c.life])
  }

  ghost predicate Timed(s: State, window: nat) {
    && (forall k | 0 <= k < |s.starts| :: s.starts[k] <= s.now)
    && (forall j, k | 0 <= j < k < |s.starts| :: s.starts[j] + window <= s.starts[k])
    && (forall c <- s.calls :: TimedCall(s.starts, s.now, c))
  }

  ghost predicate Current(s: State, window: nat) {
    && (s.starts == [] <==> s.counter.None?)
    && (s.counter.Some? ==>
          var last := |s.starts| - 1;
          && s.counter.value.count == Sums.Sum(InLife(last), s.calls) > 0
          && (s.counter.value.expires.Some? ==> s.starts[last] + window <= s.counter.value.expires.value))
    && (forall i, j | 0 <= i < |s.calls| && 0 <= j < |s.calls| ::
          s.calls[i].phase == Arming && s.calls[j].phase == Arming ==> i == j)
    && (forall i | 0 <= i < |s.calls| && s.calls[i].phase == Arming ::
          s.counter.Some? && s.counter.value.expires.None?)
  }

  ghost predicate Inv(s: State, window: nat) {
    Numbered(s.calls) && Timed(s, window) && Current(s, window)
  }

  lemma {:induction false} NoneYet(calls: seq<Call>, life: int)
    requires forall c <- calls :: c.life != life
    ensures Sums.Sum(InLife(life), calls) == 0
  {
    if calls != [] {
      assert forall c <- calls[..|calls| - 1] :: c in calls;
      NoneYet(calls[..|calls| - 1], life);
    }
  }

  lemma CountKeepsTimed(s: State, window: nat)
    requires Timed(s, window) && Current(s, window)
    ensures Timed(CountStep(s), window)
  {
    hide Sums.Sum;
  }

  lemma CountKeepsNumbered(s: State, window: nat)
    requires Inv(s, window)
    ensures Numbered(CountStep(s).calls)
    ensures CountStep(s).counter.value.count == Sums.Sum(InLife(|CountStep(s).starts| - 1), CountStep(s).calls)
  {
    hide Numbered, Sums.Sum;
    var call := CountStep(s).calls[|s.calls|];
    if !Alive(s.counter, s.now) { NoneYet(s.calls, call.life); }
    Sums.Push(InLife(call.life), s.calls, call);
    NumberedPush(s.calls, call);
  }

  lemma CountKeepsInv(s: State, window: nat)
    requires Inv(s, window)
    ensures Inv(CountStep(s), window)
  {
    hide Numbered, Sums.Sum, Timed;
    CountKeepsTimed(s, window);
    CountKeepsNumbered(s, window);
  }

  lemma NumberedPush(calls: seq<Call>, call: Call)
    requires Numbered(calls) && call.count == Sums.Sum(InLife(call.life), calls) + 1
    ensures Numbered(calls + [call])
  {
    var all := calls + [call];
    forall i | 0 <= i < |all| ensures all[i].count == Sums.Sum(InLife(all[i].life), all[..i]) + 1 {
      assert all[..i] == calls[..i];
      if i == |calls| { assert calls[..i] == calls; }
    }
  }

  // Changing a call's phase moves no count.
  lemma {:induction false} PhasesDoNotCount(calls: seq<Call>, i: nat, phase: Phase, life: int)
    requires i < |calls|
    ensures Sums.Sum(InLife(life), calls[i := calls[i].(phase := phase)]) == Sums.Sum(InLife(life), calls)
  {
    Sums.Set(InLife(life), calls, i, calls[i].(phase := phase));
  }

  lemma PhaseKeepsNumbers(calls: seq<Call>, i: nat, phase: Phase)
    requires i < |calls| && Numbered(calls)
    ensures Numbered(calls[i := calls[i].(phase := phase)])
  {
    var all := calls[i := calls[i].(phase := phase)];
    forall j | 0 <= j < |all| ensures all[j].count == Sums.Sum(InLife(all[j].life), all[..j]) + 1 {
      if i < j {
        assert all[..j] == calls[..j][i := calls[..j][i].(phase := phase)];
        PhasesDoNotCount(calls[..j], i, phase, all[j].life);
      } else {
        assert all[..j] == calls[..j];
      }
    }
  }

  lemma PhaseKeepsTimed(s: State, i: nat, a: Action, window: nat)
    requires Timed(s, window) && (a == Arm(i) || a == Stop(i))
    ensures Timed(Step(s, a, window), window)
  {
    var t := Step(s, a, window);
    forall c | c in t.calls ensures TimedCall(t.starts, t.now, c) {
      var j :| 0 <= j < |t.calls| && t.calls[j] == c;
      assert TimedCall(s.starts, s.now, s.calls[j]);
    }
  }

  lemma PhaseKeepsInv(s: State, i: nat, a: Action, window: nat)
    requires Inv(s, window) && (a == Arm(i) || a == Stop(i))
    ensures Inv(Step(s, a, window), window)
  {
    hide Numbered, Timed, Sums.Sum;
    PhaseKeepsTimed(s, i, a, window);
    if Step(s, a, window) != s {
      var phase := if a == Arm(i) then Done else Stopped;
      PhaseKeepsNumbers(s.calls, i, phase);
      PhasesDoNotCount(s.calls, i, phase, |s.starts| - 1);
      StartsPast(s, window);
    }
  }

  lemma StartsPast(s: State, window: nat)
    requires Timed(s, window)
    ensures forall k | 0 <= k < |s.starts| :: s.starts[k] <= s.now
  {
  }

  lemma StepKeepsInv(s: State, a: Action, window: nat)
    requires Inv(s, window)
    ensures Inv(Step(s, a, window), window)
  {
    match a
    case Tick(_) =>
    case Count => CountKeepsInv(s, window);
    case Arm(i) => PhaseKeepsInv(s, i, a, window);
    case Stop(i) => PhaseKeepsInv(s, i, a, window);
  }

  lemma {:induction false} RunKeepsInv(s: State, actions: seq<Action>, window: nat)
    requires Inv(s, window)
    ensures Inv(Run(s, actions, window), window)
  {
    if actions != [] {
      RunKeepsInv(s, actions[..|actions| - 1], window);
      StepKeepsInv(Run(s, actions[..|actions| - 1], window), actions[|actions| - 1], window);
    }
  }

  /* ----- the first calls of each lifetime ----- */

  predicate Blocked(c: Call, limit: nat) {
    c.count > limit
  }

  // Of each lifetime of the counter exactly the first `limit` calls are let through.
  lemma FirstCallsPass(now: int, actions: seq<Action>, window: nat, limit: nat, i: nat)
    requires i < |Run(Init(now), actions, window).calls|
    ensures var calls := Run(Init(now), actions, window).calls;
      !Blocked(calls[i], limit) <==> Sums.Sum(InLife(calls[i].life), calls[..i]) < limit
  {
    RunKeepsInv(Init(now), actions, window);
  }

  /* ----- any interval as long as the window ----- */

  function Passed(limit: nat, from: int, to: int): Call -> int {
    (c: Call) => if from <= c.at < to && !Blocked(c, limit) then 1 else 0
  }

  function PassedIn(life: int, limit: nat): Call -> int {
    (c: Call) => if c.life == life && !Blocked(c, limit) then 1 else 0
  }

  // Those of a lifetime that are let through after its first call.
  function PassedLater(life: int, limit: nat): Call -> int {
    (c: Call) => if c.life == life && 1 < c.count <= limit then 1 else 0
  }

  function Min(a: int, b: int): int { if a < b then a else b }

  lemma {:induction false} PassedInLife(calls: seq<Call>, life: int, limit: nat)
    requires Numbered(calls)
    ensures Sums.Sum(PassedIn(life, limit), calls) == Min(limit, Sums.Sum(InLife(life), calls))
    ensures limit > 0 ==> Sums.Sum(PassedLater(life, limit), calls) <= Min(limit, Sums.Sum(InLife(life), calls)) - 1
                          || Sums.Sum(InLife(life), calls) == Sums.Sum(PassedLater(life, limit), calls) == 0
  {
    if calls == [] {
    } else {
      var front := calls[..|calls| - 1];
      assert forall i | 0 <= i < |front| :: front[..i] == calls[..i];
      PassedInLife(front, life, limit);
    }
  }

  // The first lifetime with a call in the interval, if any.
  lemma {:induction false} EarliestLife(calls: seq<Call>, from: int, to: int) returns (life: int)
    ensures forall c <- calls | from <= c.at < to :: life <= c.life
    ensures (exists c <- calls :: from <= c.at < to && c.life == life) || forall c <- calls :: !(from <= c.at < to)
  {
    if calls == [] {
      life := 0;
    } else {
      var front, last := calls[..|calls| - 1], calls[|calls| - 1];
      assert calls == front + [last];
      life := EarliestLife(front, from, to);
      if from <= last.at < to && (last.life < life || forall c <- front :: !(from <= c.at < to)) {
        life := last.life;
      }
    }
  }

  // The interval holds calls of at most two lifetimes; with the later one there,
  // the earlier one's first call is outside.
  lemma OnlyTwoLives(s: State, window: nat, from: int, life: int)
    requires Timed(s, window)
    requires exists c <- s.calls :: from <= c.at < from + window && c.life == life
    requires forall c <- s.calls | from <= c.at < from + window :: life <= c.life
    ensures forall c <- s.calls | from <= c.at < from + window :: c.life == life || c.life == life + 1
    ensures (forall c <- s.calls | from <= c.at < from + window :: c.life == life)
         || (forall c <- s.calls | from <= c.at < from + window ::
              (c.life == life && c.count > 1) || c.life == life + 1)
  {
    var d :| d in s.calls && from <= d.at < from + window && d.life == life;
    assert TimedCall(s.starts, s.now, d);
    forall c | c in s.calls && from <= c.at < from + window ensures c.life == life || c.life == life + 1 {
      assert TimedCall(s.starts, s.now, c);
    }
  }

  function PassedInTwo(life: int, limit: nat): Call -> int {
    (c: Call) => PassedLater(life, limit)(c) + PassedIn(life + 1, limit)(c)
  }

  lemma PassedInOneLife(calls: seq<Call>, life: int, limit: nat, from: int, to: int)
    requires Numbered(calls)
    requires forall c <- calls | from <= c.at < to :: c.life == life
    ensures Sums.Sum(Passed(limit, from, to), calls) <= limit
  {
    PassedInLife(calls, life, limit);
    Sums.Monotone(Passed(limit, from, to), PassedIn(life, limit), calls);
  }

  lemma PassedInTwoLives(calls: seq<Call>, life: int, limit: nat, from: int, to: int)
    requires Numbered(calls) && limit > 0
    requires forall c <- calls | from <= c.at < to :: (c.life == life && c.count > 1) || c.life == life + 1
    requires exists c <- calls :: c.life == life
    ensures Sums.Sum(Passed(limit, from, to), calls) <= 2 * limit - 1
  {
    hide Numbered;
    var first :| first in calls && first.life == life;
    assert InLife(life)(first) == 1;
    Sums.NonNegative(InLife(life), calls);
    Sums.Zero(InLife(life), calls);
    PassedInLife(calls, life, limit);
    PassedInLife(calls, life + 1, limit);
    Sums.Monotone(Passed(limit, from, to), PassedInTwo(life, limit), calls);
    Sums.Combine(PassedInTwo(life, limit), PassedLater(life, limit), PassedIn(life + 1, limit), calls);
  }

  lemma PassedInWindow(s: State, window: nat, limit: nat, from: int)
    requires Inv(s, window)
    ensures Sums.Sum(Passed(limit, from, from + window), s.calls) <= if limit == 0 then 0 else 2 * limit - 1
  {
    hide Numbered, Current, Sums.Sum;
    var calls, to := s.calls, from + window;
    var life := EarliestLife(calls, from, to);
    if limit == 0 || forall c <- calls :: !(from <= c.at < to) {
      hide Timed;
      NonePassed(s, window, limit, from, to);
    } else {
      OnlyTwoLives(s, window, from, life);
      hide Timed;
      if forall c <- calls | from <= c.at < to :: c.life == life {
        PassedInOneLife(calls, life, limit, from, to);
      } else {
        PassedInTwoLives(calls, life, limit, from, to);
      }
    }
  }

  lemma NonePassed(s: State, window: nat, limit: nat, from: int, to: int)
    requires Timed(s, window) && (limit == 0 || forall c <- s.calls :: !(from <= c.at < to))
    ensures Sums.Sum(Passed(limit, from, to), s.calls) == 0
  {
    forall c | c in s.calls ensures Passed(limit, from, to)(c) == 0 {
      assert TimedCall(s.starts, s.now, c);
    }
    Sums.Zero(Passed(limit, from, to), s.calls);
  }

  // In any half-open interval as long as the window fewer than 2 * limit calls
  // are let through, in every interleaving and wherever calls stop.
  lemma AtMostTwiceTheLimit(now: int, actions: seq<Action>, window: nat, limit: nat, from: int)
    ensures Sums.Sum(Passed(limit, from, from + window), Run(Init(now), actions, window).calls)
         <= if limit == 0 then 0 else 2 * limit - 1
  {
    RunKeepsInv(Init(now), actions, window);
    PassedInWindow(Run(Init(now), actions, window), window, limit, from);
  }

  /* ----- a call that stops before its EXPIRE ----- */

  // The counter has no expiry and nobody is about to give it one.
  predicate Forever(s: State) {
    && s.counter.Some? && s.counter.value.expires.None?
    && forall c <- s.calls :: c.phase != Arming
  }

  lemma {:induction false} ForeverLasts(s: State, actions: seq<Action>, window: nat)
    requires Forever(s) && s.counter.value.count > 0
    ensures var t := Run(s, actions, window);
      && Forever(t) && t.starts == s.starts && |s.calls| <= |t.calls|
      && s.counter.value.count <= t.counter.value.count
      && forall i | |s.calls| <= i < |t.calls| :: s.counter.value.count < t.calls[i].count
  {
    if actions != [] {
      ForeverLasts(s, actions[..|actions| - 1], window);
    }
  }

  lemma RunPush(s: State, actions: seq<Action>, a: Action, window: nat)
    ensures Run(s, actions + [a], window) == Step(Run(s, actions, window), a, window)
  {
    assert (actions + [a])[..|actions|] == actions;
  }

  lemma ResetAfterExpiry(s: State, window: nat) returns (actions: seq<Action>)
    requires s.counter.Some? && s.counter.value.expires.Some?
    ensures |Run(s, actions, window).starts| == |s.starts| + 1
  {
    var e := s.counter.value.expires.value;
    var d := if s.now < e then e - s.now else 0;
    RunPush(s, [], Tick(d), window);
    RunPush(s, [] + [Tick(d)], Count, window);
    actions := [] + [Tick(d)] + [Count];
  }

  lemma ResetAfterArming(s: State, window: nat, i: nat) returns (actions: seq<Action>)
    requires s.counter.Some? && s.counter.value.expires.None? && i < |s.calls| && s.calls[i].phase == Arming
    ensures |Run(s, actions, window).starts| == |s.starts| + 1
  {
    RunPush(s, [], Arm(i), window);
    RunPush(s, [] + [Arm(i)], Tick(window), window);
    RunPush(s, [] + [Arm(i)] + [Tick(window)], Count, window);
    actions := [] + [Arm(i)] + [Tick(window)] + [Count];
  }

  // The counter can start again exactly unless the call that counted to one
  // stopped before its EXPIRE; then every later call over the limit is blocked for good.
  lemma ResetsIff(s: State, window: nat)
    requires Inv(s, window)
    ensures (exists actions: seq<Action> :: |Run(s, actions, window).starts| > |s.starts|) <==> !Forever(s)
  {
    if Forever(s) {
      forall actions: seq<Action> ensures |Run(s, actions, window).starts| == |s.starts| {
        ForeverLasts(s, actions, window);
      }
    } else if s.counter.None? {
      RunPush(s, [], Count, window);
      assert |Run(s, [] + [Count], window).starts| > |s.starts|;
    } else if s.counter.value.expires.Some? {
      var actions := ResetAfterExpiry(s, window);
      assert |Run(s, actions, window).starts| > |s.starts|;
    } else {
      var c :| c in s.calls && c.phase == Arming;
      var i :| 0 <= i < |s.calls| && s.calls[i] == c;
      var actions := ResetAfterArming(s, window, i);
      assert |Run(s, actions, window).starts| > |s.starts|;
    }
  }

  /* ----- the bound is reached ----- */

  function Counts(n: nat): seq<Action> {
    seq(n, _ => Count)
  }

  // n further calls of a lifetime, made at one moment.
  function Burst(count: nat, at: int, life: int, n: nat): seq<Call> {
    seq(n, k requires 0 <= k < n => Call(count + k + 1, at, life, Done))
  }

  lemma {:induction false} RunConcat(s: State, first: seq<Action>, rest: seq<Action>, window: nat)
    ensures Run(s, first + rest, window) == Run(Run(s, first, window), rest, window)
  {
    if rest == [] {
      assert first + rest == first;
    } else {
      assert (first + rest)[..|first + rest| - 1] == first + rest[..|rest| - 1];
      RunConcat(s, first, rest[..|rest| - 1], window);
    }
  }

  lemma {:induction false} BurstOfCalls(s: State, n: nat, window: nat)
    requires Alive(s.counter, s.now)
    ensures Run(s, Counts(n), window) ==
            s.(counter := Some(s.counter.value.(count := s.counter.value.count + n)),
               calls := s.calls + Burst(s.counter.value.count, s.now, |s.starts| - 1, n))
    decreases n
  {
    var count, life := s.counter.value.count, |s.starts| - 1;
    if n > 0 {
      BurstOfCalls(s, n - 1, window);
      assert Counts(n)[..n - 1] == Counts(n - 1);
      assert Burst(count, s.now, life, n) == Burst(count, s.now, life, n - 1) + [Call(count + n, s.now, life, Done)];
    }
  }

  lemma {:induction false} BurstPasses(count: nat, at: int, life: int, n: nat, limit: nat, from: int, to: int)
    requires count + n <= limit && from <= at < to
    ensures Sums.Sum(Passed(limit, from, to), Burst(count, at, life, n)) == n
    decreases n
  {
    if n > 0 {
      assert Burst(count, at, life, n)[..n - 1] == Burst(count, at, life, n - 1);
      BurstPasses(count, at, life, n - 1, limit, from, to);
    }
  }

  // One call opens a lifetime, the rest of its calls come at its very end and a
  // whole limit right after it.
  function TwoBursts(limit: nat, window: nat): seq<Action>
    requires limit > 0 && window > 1
  {
    [Count, Arm(0), Tick(window - 1)] + Counts(limit - 1) + [Tick(1), Count] + Counts(limit - 1)
  }

  const OPENING_CALL: Call := Call(1, 0, 0, Done)

  lemma Opening(window: nat)
    requires window > 1
    ensures Run(Init(0), [Count, Arm(0), Tick(window - 1)], window)
         == State(window - 1, Some(Counter(1, Some(window))), [0], [OPENING_CALL])
  {
    var s0 := Init(0);
    assert [Count, Arm(0), Tick(window - 1)] == [] + [Count] + [Arm(0)] + [Tick(window - 1)];
    RunPush(s0, [], Count, window);
    RunPush(s0, [] + [Count], Arm(0), window);
    RunPush(s0, [] + [Count] + [Arm(0)], Tick(window - 1), window);
  }

  lemma Reopening(s: State, window: nat)
    requires s.counter.Some? && s.counter.value.expires == Some(s.now + 1)
    ensures Run(s, [Tick(1), Count], window)
         == State(s.now + 1, Some(Counter(1, None)), s.starts + [s.now + 1],
                  s.calls + [Call(1, s.now + 1, |s.starts|, Arming)])
  {
    assert [Tick(1), Count] == [] + [Tick(1)] + [Count];
    RunPush(s, [], Tick(1), window);
    RunPush(s, [] + [Tick(1)], Count, window);
  }

  lemma TwoBurstsCalls(limit: nat, window: nat)
    requires limit > 0 && window > 1
    ensures Run(Init(0), TwoBursts(limit, window), window).calls ==
            [OPENING_CALL] + Burst(1, window - 1, 0, limit - 1)
            + [Call(1, window, 1, Arming)] + Burst(1, window, 1, limit - 1)
  {
    hide Run, Step, Burst, Counts;
    var s0, opening, second := Init(0), [Count, Arm(0), Tick(window - 1)], [Tick(1), Count];
    Opening(window);
    var s1 := Run(s0, opening, window);
    RunConcat(s0, opening, Counts(limit - 1), window);
    BurstOfCalls(s1, limit - 1, window);
    var s2 := Run(s1, Counts(limit - 1), window);
    RunConcat(s0, opening + Counts(limit - 1), second, window);
    Reopening(s2, window);
    RunConcat(s0, opening + Counts(limit - 1) + second, Counts(limit - 1), window);
    BurstOfCalls(Run(s2, second, window), limit - 1, window);
  }

  // So no smaller bound holds, for any limit.
  lemma BoundIsReached(limit: nat, window: nat)
    requires limit > 0 && window > 1
    ensures Sums.Sum(Passed(limit, window - 1, 2 * window - 1), Run(Init(0), TwoBursts(limit, window), window).calls)
         == 2 * limit - 1
  {
    hide Run, Burst, TwoBursts;
    TwoBurstsCalls(limit, window);
    var f := Passed(limit, window - 1, 2 * window - 1);
    var a, b := [OPENING_CALL], Burst(1, window - 1, 0, limit - 1);
    var c, d := [Call(1, window, 1, Arming)], Burst(1, window, 1, limit - 1);
    Sums.Concat(f, a + b + c, d);
    Sums.Concat(f, a + b, c);
    Sums.Concat(f, a, b);
    Sums.Push(f, [], a[0]);
    Sums.Push(f, [], c[0]);
    assert [] + [a[0]] == a && [] + [c[0]] == c;
    BurstPasses(1, window - 1, 0, limit - 1, limit, window - 1, 2 * window - 1);
    BurstPasses(1, window, 1, limit - 1, limit, window - 1, 2 * window - 1);
  }

  /* ----- the storage ----- */

  // One call that nothing overlaps.
  function Called(c: Option<Counter>, now: int, window: nat): Option<Counter> {
    var counted := Some(Incr(c, now));
    if counted.value.count == 1 then Expire(counted, now, window) else counted
  }

  lemma CalledIsRun(s: State, window: nat)
    requires Inv(s, window)
    ensures Run(s, [Count, Arm(|s.calls|)], window).counter == Called(s.counter, s.now, window)
  {
    RunPush(s, [], Count, window);
    RunPush(s, [] + [Count], Arm(|s.calls|), window);
    assert [] + [Count] + [Arm(|s.calls|)] == [Count, Arm(|s.calls|)];
  }

  function Lookup(counters: map<string, Counter>, key: string): Option<Counter> {
    if key in counters then Some(counters[key]) else None
  }

  datatype Record = Record(totalHits: nat, timeToExpire: int, isBlocked: bool, timeToBlockExpire: int)

  class RedisThrottlerStorage {
    var counters: map<string, Counter>
    var blocks: map<string, int> // block keys with the time they expire
    var now: int

    constructor (start: int)
      ensures counters == map[] && blocks == map[] && now == start
    {
      counters, blocks, now := map[], map[], start;
    }

    method Increment(key: string, ttl: int, limit: int, blockDuration: int) returns (record: Record)
      modifies this`counters, this`blocks
      ensures Lookup(counters, key) == Called(Lookup(old(counters), key), now, 1000 * TtlSeconds(ttl))
      ensures forall k | k != key :: Lookup(counters, k) == Lookup(old(counters), k)
      // A live counter goes on with its expiry, a new one starts at one; whoever
      // counts to one lets it expire after the ttl in whole seconds, at least one.
      ensures
        var alive := key in old(counters)
                     && (old(counters)[key].expires == None || now < old(counters)[key].expires.value);
        var hits := if alive then old(counters)[key].count + 1 else 1;
        && record.totalHits == hits && key in counters && counters[key].count == hits
        && (hits > 1 ==> counters[key].expires == old(counters)[key].expires)
        && (hits == 1 ==> counters[key].expires == Some(now + 1000 * TtlSeconds(ttl)))
      // The block key plays no part in the decision.
      ensures record.isBlocked <==> record.totalHits > limit
      ensures key in counters && record.timeToExpire ==
        if counters[key].expires.Some? then Max(counters[key].expires.value - now, 0) else 0
      ensures var held := key in old(blocks) && now < old(blocks)[key];
        var seconds := CeilDiv(blockDuration, 1000);
        if !record.isBlocked || seconds <= 0 then blocks == old(blocks) && record.timeToBlockExpire == 0
        else if held then blocks == old(blocks) && record.timeToBlockExpire == blocks[key] - now
        else blocks == old(blocks)[key := now + 1000 * seconds] && record.timeToBlockExpire == blockDuration
    {
      var ttlSeconds := TtlSeconds(ttl);
      var blockDurationSeconds := CeilDiv(blockDuration, 1000);
      var counter := Incr(Lookup(counters, key), now);
      var current := counter.count;
      counters := counters[key := counter];
      if current == 1 {
        counter := counter.(expires := Some(now + 1000 * ttlSeconds));
        counters := counters[key := counter];
      }
      var ttlRemaining := if counter.expires.Some? then counter.expires.value - now else -1;
      var isBlocked := current > limit;
      var timeToBlockExpire := 0;
      if isBlocked && blockDurationSeconds > 0 {
        if key !in blocks || blocks[key] <= now {
          blocks := blocks[key := now + 1000 * blockDurationSeconds];
          timeToBlockExpire := blockDuration;
        } else {
          timeToBlockExpire := blocks[key] - now;
        }
      }
      record := Record(current, Max(ttlRemaining, 0), isBlocked, Max(timeToBlockExpire, 0));
    }
  }

  function Max(a: int, b: int): int { if a < b then b else a }
}
