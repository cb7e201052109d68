/** The robot link watch (estop.cpp, LinkWatch): gaps between /lowstate samples and the robot's
tick, which tell a link drop from a reboot.

The run lemmas take a list of calls and say what `restarted()` means in terms of the samples
alone, wherever the `poll` and `clear` calls fall between them.
*/
module LinkWatching {

  const STATE_LOSS_S := 0.2

  datatype Link = Link(
    ticks: bool, seen: bool, lost: bool, back: bool, restarted: bool,
    lastState: real, lostShown: real, gap: real, tick: nat)

  // What describe() prints; %.1f of the age is left to the printer.
  datatype LinkText = Ok | Lost(age: real) | Restarted(gap: real) | BackNoRestart(gap: real) | BackNoTick(gap: real)

  function Fresh(ticks: bool): Link {
    Link(ticks, false, false, false, false, 0.0, 0.0, 0.0, 0)
  }

  function Describe(l: Link): LinkText {
    if l.lost then Lost(l.lostShown)
    else if l.restarted then Restarted(l.gap)
    else if l.back then (if l.ticks then BackNoRestart(l.gap) else BackNoTick(l.gap))
    else Ok
  }

  // --- What each call makes of the watch ----------------------------------------------------

  predicate Returns(l: Link, now: real) {
    l.seen && (l.lost || now - l.lastState > STATE_LOSS_S)
  }

  function AfterState(l: Link, now: real, tick: nat): Link {
    var l' := l.(seen := true, lastState := now, tick := tick);
    if Returns(l, now) then
      l'.(lost := false, back := true, gap := now - l.lastState,
          restarted := l.restarted || (l.ticks && tick <= l.tick))
    else l'
  }

  predicate PollReports(l: Link, now: real) {
    var age := now - l.lastState;
    l.seen && age > STATE_LOSS_S && (!l.lost || age.Floor > l.lostShown.Floor)
  }

  function AfterPoll(l: Link, now: real): Link {
    if PollReports(l, now) then l.(lost := true, lostShown := now - l.lastState) else l
  }

  predicate ClearReports(l: Link) {
    l.back && !l.lost && !l.restarted
  }

  function AfterClear(l: Link): Link {
    if ClearReports(l) then l.(back := false) else l
  }

  // --- The class ------------------------------------------------------------------------------

  class LinkWatch {
    const ticks: bool
    var seen: bool
    var lost: bool
    var back: bool
    var restarted: bool   // for the bridge's lifetime
    var lastState: real
    var lostShown: real
    var gap: real
    var tick: nat

    function View(): Link
      reads this
    {
      Link(ticks, seen, lost, back, restarted, lastState, lostShown, gap, tick)
    }

    constructor (ticks: bool)
      ensures View() == Fresh(ticks)
    {
      this.ticks := ticks;
      seen, lost, back, restarted := false, false, false, false;
      lastState, lostShown, gap, tick := 0.0, 0.0, 0.0, 0;
    }

    method OnState(now: real, newTick: nat) returns (changed: bool)
      modifies this
      ensures View() == AfterState(old(View()), now, newTick)
      ensures changed <==> Returns(old(View()), now)
      ensures !changed ==> Describe(View()) == Describe(old(View()))
    {
      var age := now - lastState;
      var lastTick := tick;
      var first := !seen;
      seen := true;
      lastState := now;
      tick := newTick;
      if first || (!lost && age <= STATE_LOSS_S) {
        return false;
      }
      lost := false;
      back := true;
      gap := age;
      restarted := restarted || (ticks && tick <= lastTick);
      return true;
    }

    method Poll(now: real) returns (changed: bool)
      modifies this
      ensures View() == AfterPoll(old(View()), now)
      ensures changed <==> PollReports(old(View()), now)
      ensures !changed ==> Describe(View()) == Describe(old(View()))
    {
      var age := now - lastState;
      if !seen || age <= STATE_LOSS_S || (lost && age.Floor <= lostShown.Floor) {
        return false;
      }
      lost := true;
      lostShown := age;
      return true;
    }

    method Clear() returns (changed: bool)
      modifies this
      ensures View() == AfterClear(old(View()))
      ensures changed <==> ClearReports(old(View()))
      ensures !changed ==> Describe(View()) == Describe(old(View()))
    {
      if lost || restarted || !back {
        return false;
      }
      back := false;
      return true;
    }
  }

  // --- Runs -----------------------------------------------------------------------------------

  datatype Call = State(now: real, tick: nat) | Poll(now: real) | Clear

  function Step(l: Link, c: Call): Link {
    match c
    case State(now, tick) => AfterState(l, now, tick)
    case Poll(now) => AfterPoll(l, now)
    case Clear => AfterClear(l)
  }

  function Run(l: Link, cs: seq<Call>): Link {
    if cs == [] then l else Step(Run(l, cs[..|cs| - 1]), cs[|cs| - 1])
  }

  // The samples of a run, in order.
  function Samples(cs: seq<Call>): seq<Call> {
    if cs == [] then []
    else
      var c := cs[|cs| - 1];
      Samples(cs[..|cs| - 1]) + if c.State? then [c] else []
  }

  // The steady clock: no timed call is earlier than one before it.
  ghost predicate Monotone(cs: seq<Call>) {
    forall i, j :: 0 <= i < j < |cs| && !cs[i].Clear? && !cs[j].Clear? ==> cs[i].now <= cs[j].now
  }

  // A pair of neighbouring samples that looks like a reboot.
  predicate Reboot(a: Call, b: Call) {
    a.State? && b.State? && b.now - a.now > 0.2 && b.tick <= a.tick
  }

  ghost predicate SomeReboot(ss: seq<Call>) {
    exists k :: 0 < k < |ss| && Reboot(ss[k - 1], ss[k])
  }

  // The watch remembers exactly the last sample; LOST only once a poll saw it too old.
  lemma {:induction false} RunRemembers(ticks: bool, cs: seq<Call>)
    requires Monotone(cs)
    ensures var l, ss := Run(Fresh(ticks), cs), Samples(cs);
      && l.ticks == ticks
      && l.seen == (ss != [])
      && (ss != [] ==> ss[|ss| - 1].State? && l.lastState == ss[|ss| - 1].now && l.tick == ss[|ss| - 1].tick)
      && (l.lost ==> l.seen &&
                     exists i :: 0 <= i < |cs| && cs[i].Poll? && cs[i].now - l.lastState > 0.2)
  {
    if cs != [] {
      var n := |cs| - 1;
      RunRemembers(ticks, cs[..n]);
      var before, after := Run(Fresh(ticks), cs[..n]), Run(Fresh(ticks), cs);
      if after.lost && before.lost {
        var i :| 0 <= i < n && cs[..n][i].Poll? && cs[..n][i].now - before.lastState > 0.2;
        assert cs[i].Poll? && cs[i].now - after.lastState > 0.2;
      } else if after.lost {
        assert cs[n].Poll? && cs[n].now - after.lastState > 0.2;
      }
    }
  }

  lemma SomeRebootSnoc(ss: seq<Call>, s: Call)
    ensures SomeReboot(ss + [s]) <==> SomeReboot(ss) || (ss != [] && Reboot(ss[|ss| - 1], s))
  {
    var ss' := ss + [s];
    if SomeReboot(ss) {
      var k :| 0 < k < |ss| && Reboot(ss[k - 1], ss[k]);
      assert Reboot(ss'[k - 1], ss'[k]);
    }
    if ss != [] && Reboot(ss[|ss| - 1], s) {
      assert Reboot(ss'[|ss| - 1], ss'[|ss|]);
    }
    if SomeReboot(ss') {
      var k :| 0 < k < |ss'| && Reboot(ss'[k - 1], ss'[k]);
      if k < |ss| {
        assert Reboot(ss[k - 1], ss[k]);
      }
    }
  }

  // A sample counts as back after a gap exactly when the last one is over 0.2 s old: under a
  // steady clock a LOST shown in between never shortens or adds a gap.
  lemma GapIsAge(ticks: bool, cs: seq<Call>, now: real)
    requires Monotone(cs)
    requires forall i :: 0 <= i < |cs| && !cs[i].Clear? ==> cs[i].now <= now
    ensures var l := Run(Fresh(ticks), cs);
      Returns(l, now) <==> Samples(cs) != [] && now - l.lastState > 0.2
  {
    RunRemembers(ticks, cs);
  }

  // restarted() is true exactly when two neighbouring samples are over 0.2 s apart with a tick
  // that did not move on: no placement of polls and clears can hide or invent a restart.
  lemma {:induction false} RestartedExactly(ticks: bool, cs: seq<Call>)
    requires Monotone(cs)
    ensures Run(Fresh(ticks), cs).restarted <==> ticks && SomeReboot(Samples(cs))
  {
    if cs != [] {
      var n := |cs| - 1;
      var ss := Samples(cs[..n]);
      RestartedExactly(ticks, cs[..n]);
      if cs[n].State? {
        GapIsAge(ticks, cs[..n], cs[n].now);
        RunRemembers(ticks, cs[..n]);
        SomeRebootSnoc(ss, cs[n]);
      } else {
        assert Samples(cs) == ss;
      }
    }
  }

  // For a whole bridge lifetime: nothing clears a restart.
  lemma {:induction false} RestartedForEver(l: Link, cs: seq<Call>)
    requires l.restarted
    ensures Run(l, cs).restarted
  {
    if cs != [] {
      RestartedForEver(l, cs[..|cs| - 1]);
    }
  }

  // --- One report a second ---------------------------------------------------------------------

  predicate Reports(l: Link, cs: seq<Call>, i: nat)
    requires i < |cs|
  {
    cs[i].Poll? && PollReports(Run(l, cs[..i]), cs[i].now)
  }

  function Age(l: Link, cs: seq<Call>, i: nat): real
    requires i < |cs| && cs[i].Poll?
  {
    cs[i].now - Run(l, cs[..i]).lastState
  }

  // While no sample arrives, LOST stays and the last second shown only grows.
  lemma {:induction false} LostLasts(l: Link, cs: seq<Call>, i: nat, j: nat)
    requires i < j <= |cs| && Reports(l, cs, i)
    requires forall k :: i < k < j ==> !cs[k].State?
    ensures var m := Run(l, cs[..j]);
      m.seen && m.lost && m.lastState == Run(l, cs[..i]).lastState && m.lostShown.Floor >= Age(l, cs, i).Floor
    decreases j
  {
    assert cs[..j][..j - 1] == cs[..j - 1];
    if j > i + 1 {
      LostLasts(l, cs, i, j - 1);
    }
  }

  // Two reports of one gap fall in different whole seconds of it, in order.
  lemma OneReportASecond(l: Link, cs: seq<Call>, i: nat, j: nat)
    requires i < j < |cs| && Reports(l, cs, i) && Reports(l, cs, j)
    requires forall k :: i < k < j ==> !cs[k].State?
    ensures Age(l, cs, i).Floor < Age(l, cs, j).Floor
  {
    LostLasts(l, cs, i, j);
  }

  // A poll of the watch reports a loss if and only if the last sample is over 0.2 s old and no report of that loss
  // fell in this whole second of it, or a later one.
  lemma PollReportsIff(ticks: bool, cs: seq<Call>, a: nat, i: nat)
    requires a < i < |cs| && cs[a].State? && cs[i].Poll? && forall k :: a < k < i ==> !cs[k].State?
    ensures Reports(Fresh(ticks), cs, i) <==>
            && cs[i].now - cs[a].now > 0.2
            && forall k :: a < k < i && Reports(Fresh(ticks), cs, k) ==>
                 (cs[k].now - cs[a].now).Floor < (cs[i].now - cs[a].now).Floor
  {
    SinceSample(ticks, cs, a, i);
  }

  // What the watch remembers of a loss: its last report, if any.
  lemma {:induction false} SinceSample(ticks: bool, cs: seq<Call>, a: nat, i: nat)
    requires a < i <= |cs| && cs[a].State? && forall k :: a < k < i ==> !cs[k].State?
    ensures var l := Run(Fresh(ticks), cs[..i]);
      && l.seen && l.lastState == cs[a].now
      && (forall k :: a < k < i && Reports(Fresh(ticks), cs, k) ==>
            l.lost && (cs[k].now - cs[a].now).Floor <= l.lostShown.Floor)
      && (l.lost ==> exists k :: a < k < i && Reports(Fresh(ticks), cs, k) && l.lostShown == cs[k].now - cs[a].now)
    decreases i
  {
    var n := i - 1;
    assert cs[..i][..n] == cs[..n];
    if n > a {
      SinceSample(ticks, cs, a, n);
      if Reports(Fresh(ticks), cs, n) {
        assert cs[n].now - cs[a].now == Run(Fresh(ticks), cs[..i]).lostShown;
      }
    } else {
      LostIsSeen(ticks, cs[..n]);
    }
  }

  lemma {:induction false} LostIsSeen(ticks: bool, cs: seq<Call>)
    ensures Run(Fresh(ticks), cs).lost ==> Run(Fresh(ticks), cs).seen
  {
    if cs != [] {
      LostIsSeen(ticks, cs[..|cs| - 1]);
    }
  }

  // A sample that ends a gap shows it, and no loss; BACK goes at the next clear that no loss or restart overrides, and
  // nothing else goes with it.
  lemma BackOutcome(l: Link, now: real, tick: nat)
    ensures Returns(l, now) ==>
      var b := AfterState(l, now, tick);
      b.back && !b.lost && b.gap == now - l.lastState && b.lastState == now && b.tick == tick
    ensures AfterClear(l) == l.(back := l.back && (l.lost || l.restarted))
  {}

  // --- The published text ---------------------------------------------------------------------

  predicate Changed(l: Link, c: Call) {
    match c
    case State(now, _) => Returns(l, now)
    case Poll(now) => PollReports(l, now)
    case Clear => ClearReports(l)
  }

  // /robot_link after a run whose caller publishes describe() after every call that returns true.
  function LastText(ticks: bool, cs: seq<Call>): LinkText {
    if cs == [] then Describe(Fresh(ticks))
    else
      var l := Run(Fresh(ticks), cs[..|cs| - 1]);
      var c := cs[|cs| - 1];
      if Changed(l, c) then Describe(Step(l, c)) else LastText(ticks, cs[..|cs| - 1])
  }

  // The last text published is the current one: a false return hides no change.
  lemma {:induction false} TextNeverStale(ticks: bool, cs: seq<Call>)
    ensures LastText(ticks, cs) == Describe(Run(Fresh(ticks), cs))
  {
    if cs != [] {
      TextNeverStale(ticks, cs[..|cs| - 1]);
    }
  }
}
