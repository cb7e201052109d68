/** GoalPacer (pacer.py): a producer thread queues goals while the pacing thread sends one every period, and repeats the
last one when the queue is dry.

A tick takes the lock twice, to pop a goal and to take the toggle, so the machine below has a step for each, and the
producer may run between them. `queue`, `last`, `toggle`, `published` and `held` are the class's fields;
`enqueued`, `fates`, `sent` and `raised` tell what the run has done so far.
*/
module Pacer {

  datatype Option<T> = None | Some(value: T)

  // A message sent: the goal it is a copy of, its stamps, and whether the toggle was put on it. T is what tells goals
  // apart: an object, below.
  datatype Sent<T> = Sent(goal: T, hold: bool, toggled: bool, targetTime: real, timestamp: real)

  // What became of a goal that left the queue.
  datatype Fate = Popped | Dropped

  // The pacing thread is between ticks, or inside one with a goal in hand.
  datatype Pc<T> = Between | Holding(goal: T, hold: bool)

  datatype State<T> = State(
    queue: seq<T>, last: Option<T>, toggle: bool, published: nat, held: nat, pc: Pc<T>,
    enqueued: seq<T>, fates: seq<Fate>, sent: seq<Sent<T>>, raised: nat)

  datatype Event<T> =
    | Extend(goals: seq<T>)
    | RequestToggle
    | DropQueued
    | NextGoal
    | Send(now: real)

  function Boot<T>(): State<T> {
    State([], None, false, 0, 0, Between, [], [], [], 0)
  }

  function AllDropped(n: nat): seq<Fate> {
    if n == 0 then [] else AllDropped(n - 1) + [Dropped]
  }

  // Half a tick out of turn changes nothing.
  function After<T>(period: real, s: State<T>, e: Event<T>): State<T> {
    match e
    case Extend(goals) => s.(queue := s.queue + goals, enqueued := s.enqueued + goals)
    case RequestToggle => s.(toggle := true, raised := if s.toggle then s.raised else s.raised + 1)
    case DropQueued => s.(queue := [], fates := s.fates + AllDropped(|s.queue|))
    case NextGoal =>
      if s.pc.Holding? then s
      else if s.queue != [] then
        s.(queue := s.queue[1..], last := Some(s.queue[0]), pc := Holding(s.queue[0], false),
            fates := s.fates + [Popped])
      else if s.last.Some? then s.(pc := Holding(s.last.value, true))
      else s
    case Send(now) =>
      if s.pc.Between? then s
      else
        s.(toggle := false, published := s.published + 1, held := if s.pc.hold then s.held + 1 else s.held,
            pc := Between,
           sent := s.sent + [Sent(s.pc.goal, s.pc.hold, s.toggle, now + period, now)])
  }

  // The state after any interleaving of the two threads.
  function Run<T>(period: real, es: seq<Event<T>>): State<T> {
    if es == [] then Boot() else After(period, Run(period, es[..|es| - 1]), es[|es| - 1])
  }

  // --- The class ------------------------------------------------------------------------------------------

  // A goal is a dictionary the producer built; a message is a copy of one.
  datatype Value = Number(r: real) | Flag(b: bool) | Vector(v: seq<real>)

  const TARGET_TIME := "target_time"
  const TIMESTAMP := "timestamp"
  const TOGGLE := "toggle_policy_action"

  class Dict {
    var entries: map<string, Value>

    constructor (entries: map<string, Value>)
      ensures this.entries == entries
    {
      this.entries := entries;
    }

    method Set(key: string, value: Value)
      modifies this
      ensures entries == old(entries)[key := value]
    {
      entries := entries[key := value];
    }
  }

  // What a message of m says, copied from a goal that says entries.
  function Stamped<T>(entries: map<string, Value>, m: Sent<T>): map<string, Value> {
    var stamped := entries[TARGET_TIME := Number(m.targetTime)][TIMESTAMP := Number(m.timestamp)];
    if m.toggled then stamped[TOGGLE := Flag(true)] else stamped
  }

  class GoalPacer {
    const period: real
    var queue: seq<Dict>
    var last: Option<Dict>
    var toggle: bool
    var published: nat
    var held: nat
    ghost var enqueued: seq<Dict>
    ghost var fates: seq<Fate>
    ghost var sent: seq<Sent<Dict>>
    ghost var raised: nat

    constructor (period: real)
      ensures this.period == period && View(Between) == Boot()
    {
      this.period := period;
      queue, last, toggle, published, held := [], None, false, 0, 0;
      enqueued, fates, sent, raised := [], [], [], 0;
    }

    // The machine's state, with the pacing thread at pc.
    ghost function View(pc: Pc<Dict>): State<Dict>
      reads this
    {
      State(queue, last, toggle, published, held, pc, enqueued, fates, sent, raised)
    }

    method ExtendQueue(goals: seq<Dict>, ghost pc: Pc<Dict>)
      modifies this
      ensures View(pc) == After(period, old(View(pc)), Extend(goals))
    {
      queue := queue + goals;
      enqueued := enqueued + goals;
    }

    method AskToggle(ghost pc: Pc<Dict>)
      modifies this
      ensures View(pc) == After(period, old(View(pc)), RequestToggle)
    {
      if !toggle {
        raised := raised + 1;
      }
      toggle := true;
    }

    method ClearQueue(ghost pc: Pc<Dict>)
      modifies this
      ensures View(pc) == After(period, old(View(pc)), DropQueued)
    {
      fates := fates + AllDropped(|queue|);
      queue := [];
    }

    // _next_goal.
    method PopNext() returns (goal: Option<Dict>, isHold: bool)
      modifies this
      ensures View(if goal.Some? then Holding(goal.value, isHold) else Between)
           == After(period, old(View(Between)), NextGoal)
    {
      if queue != [] {
        last := Some(queue[0]);
        queue := queue[1..];
        fates := fates + [Popped];
        return last, false;
      }
      return last, true;
    }

    // The rest of _tick: a copy of the goal is stamped, takes the toggle and goes out. The goal itself, which may go
    // out again, is not written.
    method SendCopy(goal: Dict, isHold: bool, now: real) returns (message: Dict)
      modifies this
      ensures View(Between) == After(period, old(View(Holding(goal, isHold))), Send(now))
      ensures fresh(message) && message.entries == Stamped(old(goal.entries), sent[|sent| - 1])
      ensures unchanged(goal)
    {
      message := new Dict(goal.entries);
      message.Set(TARGET_TIME, Number(now + period));
      message.Set(TIMESTAMP, Number(now));
      var taken := toggle;
      toggle := false;
      if taken {
        message.Set(TOGGLE, Flag(true));
      }
      sent := sent + [Sent(goal, isHold, taken, now + period, now)];
      published := published + 1;
      if isHold {
        held := held + 1;
      }
    }

    // Any interleaving of the two threads' steps, carried out on the object: no goal's contents ever change, however
    // often it is repeated, and every message is an object of its own that says what its goal says, stamped.
    method Interleave(es: seq<Event<Dict>>) returns (outbox: seq<Dict>, ghost pc: Pc<Dict>)
      requires View(Between) == Boot()
      modifies this
      ensures View(pc) == Run(period, es) && pc == Run(period, es).pc
      ensures |outbox| == |sent|
      ensures forall k :: 0 <= k < |outbox| ==>
                fresh(outbox[k]) && outbox[k].entries == Stamped(sent[k].goal.entries, sent[k])
      ensures forall i, d :: 0 <= i < |es| && es[i].Extend? && d in es[i].goals ==> unchanged(d)
    {
      outbox, pc := [], Between;
      var inHand: Option<Dict>, isHold := None, false;
      for n := 0 to |es|
        invariant View(pc) == Run(period, es[..n])
        invariant pc == if inHand.Some? then Holding(inHand.value, isHold) else Between
        invariant |outbox| == |sent|
        invariant forall k :: 0 <= k < |outbox| ==>
          fresh(outbox[k]) && outbox[k].entries == Stamped(sent[k].goal.entries, sent[k])
      {
        assert es[..n + 1][..n] == es[..n];
        match es[n]
        case Extend(goals) => ExtendQueue(goals, pc);
        case RequestToggle => AskToggle(pc);
        case DropQueued => ClearQueue(pc);
        case NextGoal =>
          if inHand.None? {
            inHand, isHold := PopNext();
            pc := if inHand.Some? then Holding(inHand.value, isHold) else Between;
          }
        case Send(now) =>
          if inHand.Some? {
            var message := SendCopy(inHand.value, isHold, now);
            outbox, inHand, pc := outbox + [message], None, Between;
          }
      }
      assert es[..|es|] == es;
    }
  }

  // --- Conservation ----------------------------------------------------------------------------------------

  // The goals popped, in order.
  function Taken<T>(gs: seq<T>, fs: seq<Fate>): seq<T>
    requires |fs| <= |gs|
  {
    if fs == [] then []
    else
      var n := |fs| - 1;
      Taken(gs, fs[..n]) + (if fs[n] == Popped then [gs[n]] else [])
  }

  // The goals sent that were no repeats, in order.
  function Fresh<T>(ms: seq<Sent<T>>): seq<T> {
    if ms == [] then []
    else
      var n := |ms| - 1;
      Fresh(ms[..n]) + (if ms[n].hold then [] else [ms[n].goal])
  }

  function Holds<T>(ms: seq<Sent<T>>): nat {
    if ms == [] then 0 else Holds(ms[..|ms| - 1]) + (if ms[|ms| - 1].hold then 1 else 0)
  }

  function Toggled<T>(ms: seq<Sent<T>>): nat {
    if ms == [] then 0 else Toggled(ms[..|ms| - 1]) + (if ms[|ms| - 1].toggled then 1 else 0)
  }

  function InHand<T>(pc: Pc<T>): seq<T> {
    if pc.Holding? && !pc.hold then [pc.goal] else []
  }

  function LastOf<T>(gs: seq<T>): Option<T> {
    if gs == [] then None else Some(gs[|gs| - 1])
  }

  // Message k repeats the last goal that was sent for the first time before it.
  ghost predicate Repeats<T>(ms: seq<Sent<T>>, k: nat)
    requires k < |ms|
  {
    ms[k].hold ==> LastOf(Fresh(ms[..k])) == Some(ms[k].goal)
  }

  ghost predicate AllRepeat<T>(ms: seq<Sent<T>>) {
    forall k: nat :: k < |ms| ==> Repeats(ms, k)
  }

  ghost predicate Conserved<T>(s: State<T>) {
    // Every goal queued is still queued, or was popped or dropped, each once and in order.
    && |s.enqueued| == |s.fates| + |s.queue|
    && s.enqueued[|s.fates|..] == s.queue
    // The popped ones went out, in that order, but for the one in hand.
    && Taken(s.enqueued, s.fates) == Fresh(s.sent) + InHand(s.pc)
    && s.last == LastOf(Taken(s.enqueued, s.fates))
    // Everything else sent repeats the last of them.
    && AllRepeat(s.sent)
    && (s.pc.Holding? ==> s.last == Some(s.pc.goal))
    // The counters count, and every toggle raised was put on one message or is still pending.
    && s.published == |s.sent| && s.held == Holds(s.sent)
    && s.raised == Toggled(s.sent) + (if s.toggle then 1 else 0)
  }

  lemma {:induction false} TakenIgnoresRest<T>(gs: seq<T>, more: seq<T>, fs: seq<Fate>)
    requires |fs| <= |gs|
    ensures Taken(gs + more, fs) == Taken(gs, fs)
    decreases |fs|
  {
    if fs != [] {
      TakenIgnoresRest(gs, more, fs[..|fs| - 1]);
    }
  }

  lemma {:induction false} DroppedAreNotTaken<T>(gs: seq<T>, fs: seq<Fate>, n: nat)
    requires |fs| + n <= |gs|
    ensures |AllDropped(n)| == n && Taken(gs, fs + AllDropped(n)) == Taken(gs, fs)
  {
    if n == 0 {
      assert fs + AllDropped(0) == fs;
    } else {
      DroppedAreNotTaken(gs, fs, n - 1);
      var longer := fs + AllDropped(n);
      assert longer[..|longer| - 1] == fs + AllDropped(n - 1);
    }
  }

  lemma TakenOne<T>(gs: seq<T>, fs: seq<Fate>)
    requires |fs| < |gs|
    ensures Taken(gs, fs + [Popped]) == Taken(gs, fs) + [gs[|fs|]]
  {
    assert (fs + [Popped])[..|fs|] == fs;
  }

  lemma SentOne<T>(ms: seq<Sent<T>>, m: Sent<T>)
    ensures Fresh(ms + [m]) == Fresh(ms) + (if m.hold then [] else [m.goal])
    ensures Holds(ms + [m]) == Holds(ms) + (if m.hold then 1 else 0)
    ensures Toggled(ms + [m]) == Toggled(ms) + (if m.toggled then 1 else 0)
  {
    assert (ms + [m])[..|ms|] == ms;
  }

  lemma RepeatsGrow<T>(ms: seq<Sent<T>>, m: Sent<T>)
    requires AllRepeat(ms) && (m.hold ==> LastOf(Fresh(ms)) == Some(m.goal))
    ensures AllRepeat(ms + [m])
  {
    forall k: nat | k < |ms + [m]|
      ensures Repeats(ms + [m], k)
    {
      assert (ms + [m])[..k] == ms[..k];
      if k < |ms| {
        assert Repeats(ms, k);
      } else {
        assert ms[..k] == ms;
      }
    }
  }

  lemma PopConserves<T>(period: real, s: State<T>)
    requires Conserved(s)
    ensures Conserved(After(period, s, NextGoal))
  {
    if s.pc.Between? && s.queue != [] {
      TakenOne(s.enqueued, s.fates);
      assert s.enqueued[|s.fates|] == s.queue[0];
      assert s.enqueued[|s.fates| + 1..] == s.queue[1..];
    }
  }

  lemma SendConserves<T>(period: real, s: State<T>, now: real)
    requires Conserved(s) && s.pc.Holding?
    ensures Conserved(After(period, s, Send(now)))
  {
    var m := Sent(s.pc.goal, s.pc.hold, s.toggle, now + period, now);
    SentOne(s.sent, m);
    assert s.pc.hold ==> Fresh(s.sent) + InHand(s.pc) == Fresh(s.sent);
    RepeatsGrow(s.sent, m);
    assert Fresh(s.sent + [m]) + [] == Fresh(s.sent) + InHand(s.pc);
  }

  lemma StepConserves<T>(period: real, s: State<T>, e: Event<T>)
    requires Conserved(s)
    ensures Conserved(After(period, s, e))
  {
    match e {
      case Extend(goals) => TakenIgnoresRest(s.enqueued, goals, s.fates);
      case RequestToggle =>
      case DropQueued => DroppedAreNotTaken(s.enqueued, s.fates, |s.queue|);
      case NextGoal => PopConserves(period, s);
      case Send(now) =>
        if s.pc.Holding? {
          SendConserves(period, s, now);
        }
    }
  }

  // However the threads interleave: no goal is lost, doubled or reordered, a repeat is of the last goal sent, and no
  // toggle is lost or doubled.
  lemma {:induction false} AlwaysConserved<T>(period: real, es: seq<Event<T>>)
    ensures Conserved(Run(period, es))
  {
    if es != [] {
      AlwaysConserved(period, es[..|es| - 1]);
      StepConserves(period, Run(period, es[..|es| - 1]), es[|es| - 1]);
    }
  }

  // With nothing dropped, what went out is exactly what was queued, in order, but for what is in hand or still queued.
  lemma {:induction false} NothingDropped<T>(period: real, es: seq<Event<T>>)
    requires forall i :: 0 <= i < |es| ==> !es[i].DropQueued?
    ensures var s := Run(period, es); s.enqueued == Fresh(s.sent) + InHand(s.pc) + s.queue
  {
    AlwaysConserved(period, es);
    var s := Run(period, es);
    AllPopped(period, es);
    TakenAll(s.enqueued, s.fates);
    assert s.enqueued == s.enqueued[..|s.fates|] + s.enqueued[|s.fates|..];
  }

  lemma {:induction false} AllPopped<T>(period: real, es: seq<Event<T>>)
    requires forall i :: 0 <= i < |es| ==> !es[i].DropQueued?
    ensures forall k :: 0 <= k < |Run(period, es).fates| ==> Run(period, es).fates[k] == Popped
  {
    if es != [] {
      AllPopped(period, es[..|es| - 1]);
    }
  }

  lemma {:induction false} TakenAll<T>(gs: seq<T>, fs: seq<Fate>)
    requires |fs| <= |gs| && forall k :: 0 <= k < |fs| ==> fs[k] == Popped
    ensures Taken(gs, fs) == gs[..|fs|]
    decreases |fs|
  {
    if fs != [] {
      TakenAll(gs, fs[..|fs| - 1]);
    }
  }

  // A message stamped at the moment some step of the run sent it.
  ghost predicate StampedBy<T>(period: real, es: seq<Event<T>>, m: Sent<T>) {
    m.targetTime == m.timestamp + period && exists i :: 0 <= i < |es| && es[i] == Event.Send(m.timestamp)
  }

  lemma SentStep<T>(period: real, s: State<T>, e: Event<T>)
    ensures var sent := After(period, s, e).sent;
      sent == s.sent || (e.Send? && |sent| == |s.sent| + 1 && sent[..|s.sent|] == s.sent &&
                         sent[|s.sent|].timestamp == e.now && sent[|s.sent|].targetTime == e.now + period)
  {}

  lemma StampedEarlier<T>(period: real, es: seq<Event<T>>, e: Event<T>, m: Sent<T>)
    requires StampedBy(period, es, m)
    ensures StampedBy(period, es + [e], m)
  {
    var i :| 0 <= i < |es| && es[i] == Event.Send(m.timestamp);
    assert (es + [e])[i] == Event.Send(m.timestamp);
  }

  // Every message is stamped as it goes out: its target time is one period after that moment, never a queueing time.
  lemma {:induction false} StampedOnTheWayOut<T>(period: real, es: seq<Event<T>>, k: nat)
    requires k < |Run(period, es).sent|
    ensures StampedBy(period, es, Run(period, es).sent[k])
    decreases |es|
  {
    var n := |es| - 1;
    var before := Run(period, es[..n]).sent;
    SentStep(period, Run(period, es[..n]), es[n]);
    assert es == es[..n] + [es[n]];
    if k < |before| {
      StampedOnTheWayOut(period, es[..n], k);
      StampedEarlier(period, es[..n], es[n], before[k]);
      assert Run(period, es).sent[k] == before[k];
    } else {
      assert es[n] == Event.Send(Run(period, es).sent[k].timestamp);
    }
  }

  // --- The toggle --------------------------------------------------------------------------------------------

  // Event i of the run sends a message.
  predicate SendsAt<T>(period: real, es: seq<Event<T>>, i: nat)
    requires i < |es|
  {
    es[i].Send? && Run(period, es[..i]).pc.Holding?
  }

  // A toggle was asked for at i, and nothing was sent since.
  ghost predicate AskedAt<T>(period: real, es: seq<Event<T>>, i: nat)
    requires i < |es|
  {
    es[i].RequestToggle? && forall k: nat :: i < k < |es| ==> !SendsAt(period, es, k)
  }

  lemma SendsAtEarlier<T>(period: real, es: seq<Event<T>>, n: nat, k: nat)
    requires k < n <= |es|
    ensures SendsAt(period, es[..n], k) == SendsAt(period, es, k)
  {
    assert es[..n][..k] == es[..k];
  }

  // The next message carries the toggle exactly when one was asked for since the last message: so a request rides one
  // message, and no repeat of that message's goal carries it again.
  lemma {:induction false} TogglePendingIff<T>(period: real, es: seq<Event<T>>)
    ensures Run(period, es).toggle <==> exists i: nat :: i < |es| && AskedAt(period, es, i)
  {
    if es != [] {
      var n := |es| - 1;
      TogglePendingIff(period, es[..n]);
      forall k: nat | k < n {
        SendsAtEarlier(period, es, n, k);
      }
      assert forall i: nat :: i < n && !SendsAt(period, es, n) ==>
        (AskedAt(period, es, i) <==> AskedAt(period, es[..n], i));
      assert SendsAt(period, es, n) ==> forall i: nat :: i < |es| ==> !AskedAt(period, es, i);
      if es[n].RequestToggle? {
        assert AskedAt(period, es, n);
      }
    }
  }

  lemma CarriesToggleIff<T>(period: real, es: seq<Event<T>>)
    requires es != [] && SendsAt(period, es, |es| - 1)
    ensures var s, before := Run(period, es), es[..|es| - 1];
      s.sent != [] && (s.sent[|s.sent| - 1].toggled <==> exists i: nat :: i < |before| && AskedAt(period, before, i))
  {
    TogglePendingIff(period, es[..|es| - 1]);
  }

  // What a message says: its goal's entries, its own two stamps, and the toggle if it took one.
  lemma MessageSays<T>(entries: map<string, Value>, m: Sent<T>, key: string)
    ensures var says := Stamped(entries, m);
      && "target_time" in says && says["target_time"] == Number(m.targetTime)
      && "timestamp" in says && says["timestamp"] == Number(m.timestamp)
      && (m.toggled ==> "toggle_policy_action" in says && says["toggle_policy_action"] == Flag(true))
      && (key !in {"target_time", "timestamp"} && (key != "toggle_policy_action" || !m.toggled) ==>
            (key in says <==> key in entries) && (key in entries ==> says[key] == entries[key]))
  {}

  // Every goal queued or repeated is one the producer queued, and no message: with Interleave, what is stored keeps its
  // contents.
  lemma StoredGoalsUntouched<T>(period: real, es: seq<Event<T>>, g: T)
    requires var s := Run(period, es); g in s.queue || s.last == Some(g)
    ensures g in Run(period, es).enqueued
  {
    AlwaysConserved(period, es);
    var s := Run(period, es);
    if g !in s.queue {
      TakenFromQueue(s.enqueued, s.fates, g);
    }
  }

  lemma {:induction false} TakenFromQueue<T>(gs: seq<T>, fs: seq<Fate>, g: T)
    requires |fs| <= |gs| && g in Taken(gs, fs)
    ensures g in gs
    decreases |fs|
  {
    if fs != [] && g in Taken(gs, fs[..|fs| - 1]) {
      TakenFromQueue(gs, fs[..|fs| - 1], g);
    }
  }
}
