/** Supervised tasks (crates/core/src/supervise.rs): the retry delay, the watcher
    loop, and the shutdown flag under interleaving. Times are in milliseconds. */
module Supervisor {
  import opened Prelude

  const BASE_BACKOFF: nat := 100
  const MAX_BACKOFF: nat := 30_000
  const HEALTHY_WINDOW: nat := 30_000
  const U32_MAX: nat := 0xffff_ffff
  const DURATION_MAX: nat := 0xffff_ffff_ffff_ffff * 1000 + 999

  type u32 = x: nat | x <= U32_MAX

  // ---- the delay -----------------------------------------------------------------

  function Min(a: nat, b: nat): nat {
    if a <= b then a else b
  }

  function Pow2(n: nat): (p: nat)
    ensures p > 0
  {
    if n == 0 then 1 else 2 * Pow2(n - 1)
  }

  /** The shift is clamped to 20 and the product saturates. */
  function BackoffDelay(failures: u32): nat {
    var shift := Min(if failures == 0 then 0 else failures - 1, 20);
    Min(Min(BASE_BACKOFF * Pow2(shift), DURATION_MAX), MAX_BACKOFF)
  }

  lemma {:induction false} Pow2Monotone(a: nat, b: nat)
    requires a <= b
    ensures Pow2(a) <= Pow2(b)
  {
    if a < b {
      Pow2Monotone(a, b - 1);
    }
  }

  /** What the delay is meant to be: doubling from the base, up to the cap. */
  function Doubling(failures: nat): nat {
    Min(MAX_BACKOFF, BASE_BACKOFF * Pow2(if failures == 0 then 0 else failures - 1))
  }

  lemma PowersReached()
    ensures Pow2(9) == 512 && Pow2(20) == 0x10_0000
  {
    assert Pow2(3) == 8 && Pow2(6) == 64 && Pow2(9) == 512 && Pow2(12) == 4096;
    assert Pow2(15) == 0x8000 && Pow2(18) == 0x4_0000 && Pow2(20) == 0x10_0000;
  }

  /** Neither the clamp, nor the saturation, nor the width of the counter shows. */
  lemma BackoffClosedForm(streak: nat)
    ensures BackoffDelay(Min(streak, U32_MAX)) == Doubling(streak)
  {
    PowersReached();
    var failures := Min(streak, U32_MAX);
    if failures <= 21 {
      Pow2Monotone(if failures == 0 then 0 else failures - 1, 20);
    } else {
      Pow2Monotone(20, streak - 1);
    }
  }

  lemma BackoffMonotone(a: u32, b: u32)
    requires a <= b
    ensures BASE_BACKOFF <= BackoffDelay(a) <= BackoffDelay(b) <= MAX_BACKOFF
    ensures BackoffDelay(a) == MAX_BACKOFF <==> a >= 10
  {
    PowersReached();
    var i, j := Min(if a == 0 then 0 else a - 1, 20), Min(if b == 0 then 0 else b - 1, 20);
    Pow2Monotone(0, i);
    Pow2Monotone(i, j);
    if a >= 10 {
      Pow2Monotone(9, i);
    } else {
      assert Pow2(8) == 256;
      Pow2Monotone(i, 8);
    }
  }

  // ---- the watcher loop --------------------------------------------------------------

  datatype Ending = Clean | Failed | Panicked | Cancelled

  /** What one turn of the loop meets: the flag at the top, a slot emptied by a
      shutdown, how and when the child ended, the flag afterwards. */
  datatype Turn = Turn(down: bool, drained: bool, ending: Ending, elapsed: nat, downAfter: bool)

  predicate Crashed(t: Turn) {
    !t.down && !t.drained && (t.ending.Failed? || t.ending.Panicked?)
  }

  predicate Retried(t: Turn) {
    Crashed(t) && !t.downAfter
  }

  /** How many quick crashes in a row end with the i-th turn. */
  function Streak(turns: seq<Turn>, i: nat): nat
    requires i < |turns|
  {
    if turns[i].elapsed >= HEALTHY_WINDOW then 0
    else 1 + if i == 0 then 0 else Streak(turns, i - 1)
  }

  datatype Log = Crash(task: string, panicked: bool) | Restarting(task: string, count: nat, delay: nat)

  class Inner {
    var restarts: map<string, nat>
    var bus: seq<Log>

    constructor ()
      ensures restarts == map[] && bus == []
    {
      restarts, bus := map[], [];
    }

    function RestartCount(name: string): nat
      reads this
    {
      if name in restarts then restarts[name] else 0
    }

    method ReportCrash(name: string, panicked: bool)
      modifies this`bus
      ensures bus == old(bus) + [Crash(name, panicked)]
    {
      bus := bus + [Crash(name, panicked)];
    }

    method BumpRestarts(name: string) returns (n: nat)
      modifies this`restarts
      ensures n == old(RestartCount(name)) + 1
      ensures restarts == old(restarts)[name := n]
    {
      n := RestartCount(name) + 1;
      restarts := restarts[name := n];
    }

    /** Counts the crash and picks the delay, `streak` being the quick crashes before. */
    method ScheduleRetry(name: string, elapsed: nat, failures: u32, ghost streak: nat) returns (now: u32, delay: nat)
      requires failures == Min(streak, U32_MAX)
      modifies this
      ensures var streak' := if elapsed >= HEALTHY_WINDOW then 0 else streak + 1;
        && now == Min(streak', U32_MAX) && delay == Doubling(streak')
      ensures restarts == old(restarts)[name := old(RestartCount(name)) + 1]
      ensures bus == old(bus) + [Restarting(name, old(RestartCount(name)) + 1, delay)]
    {
      var count := BumpRestarts(name);
      if elapsed >= HEALTHY_WINDOW {
        now := 0;
      } else {
        now := if failures < U32_MAX then failures + 1 else failures;
      }
      delay := BackoffDelay(now);
      BackoffClosedForm(if elapsed >= HEALTHY_WINDOW then 0 else streak + 1);
      bus := bus + [Restarting(name, count, delay)];
    }
  }

  /** What the first `n` turns, all retried, leave on the bus. */
  function Story(name: string, base: nat, turns: seq<Turn>, n: nat): seq<Log>
    requires n <= |turns|
  {
    if n == 0 then []
    else
      var i := n - 1;
      Story(name, base, turns, i)
      + [Crash(name, turns[i].ending.Panicked?), Restarting(name, base + n, Doubling(Streak(turns, i)))]
  }

  lemma Extend(bus: seq<Log>, name: string, base: nat, turns: seq<Turn>, i: nat)
    requires i < |turns|
    ensures bus + Story(name, base, turns, i)
            + [Crash(name, turns[i].ending.Panicked?)] + [Restarting(name, base + i + 1, Doubling(Streak(turns, i)))]
         == bus + Story(name, base, turns, i + 1)
  {
  }

  /** A crash met with the flag up is reported, not retried. */
  function Epilogue(name: string, turns: seq<Turn>, n: nat): seq<Log> {
    if n < |turns| && Crashed(turns[n]) then [Crash(name, turns[n].ending.Panicked?)] else []
  }

  /** The delays of the first `n` turns, all retried. */
  function Delays(turns: seq<Turn>, n: nat): (d: seq<nat>)
    requires n <= |turns|
    ensures |d| == n
  {
    if n == 0 then [] else Delays(turns, n - 1) + [Doubling(Streak(turns, n - 1))]
  }

  /** The quick crashes in a row just before the i-th turn. */
  function Before(turns: seq<Turn>, i: nat): nat
    requires i <= |turns|
  {
    if i == 0 then 0 else Streak(turns, i - 1)
  }

  /** One turn past the loop head: the child, its end, and the retry if there is one. */
  method OneTurn(inner: Inner, name: string, turns: seq<Turn>, i: nat, failures: u32)
      returns (again: bool, now: u32, delay: nat)
    requires i < |turns| && !turns[i].down && failures == Min(Before(turns, i), U32_MAX)
    modifies inner
    ensures again <==> !turns[i].drained && !turns[i].downAfter && (turns[i].ending == Failed || turns[i].ending == Panicked)
    ensures again ==> now == Min(Streak(turns, i), U32_MAX) && delay == Doubling(Streak(turns, i))
    ensures inner.restarts == if again then old(inner.restarts)[name := old(inner.RestartCount(name)) + 1] else old(inner.restarts)
    ensures again ==> inner.bus == old(inner.bus) + [Crash(name, turns[i].ending.Panicked?)]
                                   + [Restarting(name, old(inner.RestartCount(name)) + 1, delay)]
    ensures !again ==> inner.bus == old(inner.bus) + Epilogue(name, turns, i)
  {
    var t := turns[i];
    again, now, delay := false, failures, 0;
    if t.drained || t.ending.Clean? || t.ending.Cancelled? {
      assert inner.bus + [] == inner.bus;
      return;
    }
    inner.ReportCrash(name, t.ending.Panicked?);
    if t.downAfter {
      return;
    }
    again := true;
    now, delay := inner.ScheduleRetry(name, t.elapsed, failures, Before(turns, i));
  }

  /** Runs until a turn ends the supervision or no turn is left. Returns the delays
      slept and the number of children started. */
  method WatchLoop(inner: Inner, name: string, turns: seq<Turn>) returns (slept: seq<nat>, started: nat)
    modifies inner
    ensures |slept| <= |turns| && (forall i :: 0 <= i < |slept| ==> Retried(turns[i]))
    ensures |slept| < |turns| ==>
      var t := turns[|slept|];
      t.down || t.drained || t.ending == Clean || t.ending == Cancelled || t.downAfter
    ensures slept == Delays(turns, |slept|)
    ensures started == |slept| + if |slept| < |turns| && !turns[|slept|].down then 1 else 0
    ensures inner.RestartCount(name) == old(inner.RestartCount(name)) + |slept|
    ensures inner.restarts - {name} == old(inner.restarts) - {name}
    ensures inner.bus == old(inner.bus) + Story(name, old(inner.RestartCount(name)), turns, |slept|) + Epilogue(name, turns, |slept|)
  {
    slept, started := [], 0;
    var failures: u32 := 0;
    ghost var base, bus := inner.RestartCount(name), inner.bus;
    assert bus + [] == bus;
    var again := true;
    while again && |slept| < |turns| && !turns[|slept|].down
      invariant |slept| <= |turns| && (!again ==> |slept| < |turns|)
      invariant started == |slept| + if again then 0 else 1
      invariant forall k :: 0 <= k < |slept| ==> Retried(turns[k])
      invariant slept == Delays(turns, |slept|)
      invariant again ==> failures == Min(Before(turns, |slept|), U32_MAX)
      invariant inner.RestartCount(name) == base + |slept|
      invariant inner.restarts - {name} == old(inner.restarts) - {name}
      invariant inner.bus == bus + Story(name, base, turns, |slept|) + if again then [] else Epilogue(name, turns, |slept|)
      invariant !again ==> !turns[|slept|].down && !Retried(turns[|slept|])
      decreases again, |turns| - |slept|
    {
      var delay;
      assert inner.bus == bus + Story(name, base, turns, |slept|);
      started := started + 1;
      again, failures, delay := OneTurn(inner, name, turns, |slept|, failures);
      if again {
        Extend(bus, name, base, turns, |slept|);
        slept := slept + [delay];
      }
    }
  }

  lemma {:induction false} DelaysAt(turns: seq<Turn>, n: nat, i: nat)
    requires i < n <= |turns|
    ensures Delays(turns, n)[i] == Doubling(Streak(turns, i))
  {
    if i < n - 1 {
      DelaysAt(turns, n - 1, i);
    }
  }

  lemma {:induction false} StreakCounts(turns: seq<Turn>, from: nat, m: nat)
    requires from + m < |turns| && (from == 0 || turns[from - 1].elapsed >= HEALTHY_WINDOW)
    requires forall i :: from <= i <= from + m ==> turns[i].elapsed < HEALTHY_WINDOW
    ensures Streak(turns, from + m) == m + 1
  {
    if m > 0 {
      StreakCounts(turns, from, m - 1);
    }
  }

  /** The (m+1)-th quick crash in a row, counted from the start or from a healthy
      turn, sleeps min(30000, 100 * 2^m); a crash after a healthy turn sleeps 100. */
  lemma DelayOfStreak(turns: seq<Turn>, n: nat, from: nat, m: nat)
    requires from + m < n <= |turns| && (from == 0 || turns[from - 1].elapsed >= 30_000)
    requires forall i :: from <= i <= from + m ==> turns[i].elapsed < 30_000
    ensures Delays(turns, n)[from + m] == Min(30_000, 100 * Pow2(m))
    ensures from > 0 ==> Delays(turns, n)[from - 1] == 100
  {
    StreakCounts(turns, from, m);
    DelaysAt(turns, n, from + m);
    if from > 0 {
      DelaysAt(turns, n, from - 1);
    }
  }

  // ---- the shutdown flag ------------------------------------------------------------

  datatype At = Top | Armed | Awaiting | Reporting | Sleeping | Gone

  /** `late` counts the children started once the flag was up. */
  datatype Watcher = Watcher(at: At, late: nat)

  /** `entering` callers of spawn have read a lowered flag and not yet started their
      watcher; `armed` are the watchers past the loop head when the flag went up. */
  datatype Tree = Tree(flag: bool, watchers: seq<Watcher>, entering: nat, armed: set<nat>)

  datatype Move =
    | RaiseFlag
    | EnterSpawn
    | StartWatcher
    | CheckTop(w: nat)
    | StartChild(w: nat)
    | ChildEnds(w: nat, crashed: bool)
    | CheckAgain(w: nat)
    | Wake(w: nat)
    | AbortWatcher(w: nat)

  function Put(t: Tree, w: nat, at: At): Tree
    requires w < |t.watchers|
  {
    t.(watchers := t.watchers[w := t.watchers[w].(at := at)])
  }

  predicate AtPoint(t: Tree, w: nat, at: At) {
    w < |t.watchers| && t.watchers[w].at == at
  }

  /** Abort lands only where a watcher awaits, or before its first poll. */
  function Next(t: Tree, move: Move): Option<Tree> {
    match move
    case RaiseFlag =>
      Some(if t.flag then t else t.(flag := true, armed := set w | 0 <= w < |t.watchers| && t.watchers[w].at == Armed))
    case EnterSpawn => Some(if t.flag then t else t.(entering := t.entering + 1))
    case StartWatcher =>
      if t.entering > 0 then Some(t.(entering := t.entering - 1, watchers := t.watchers + [Watcher(Top, 0)])) else None
    case CheckTop(w) => if AtPoint(t, w, Top) then Some(Put(t, w, if t.flag then Gone else Armed)) else None
    case StartChild(w) =>
      if AtPoint(t, w, Armed) then
        Some(t.(watchers := t.watchers[w := Watcher(Awaiting, t.watchers[w].late + if t.flag then 1 else 0)]))
      else None
    case ChildEnds(w, crashed) => if AtPoint(t, w, Awaiting) then Some(Put(t, w, if crashed then Reporting else Gone)) else None
    case CheckAgain(w) => if AtPoint(t, w, Reporting) then Some(Put(t, w, if t.flag then Gone else Sleeping)) else None
    case Wake(w) => if AtPoint(t, w, Sleeping) then Some(Put(t, w, Top)) else None
    case AbortWatcher(w) =>
      if AtPoint(t, w, Top) || AtPoint(t, w, Awaiting) || AtPoint(t, w, Sleeping) then Some(Put(t, w, Gone)) else None
  }

  function Run(moves: seq<Move>): Option<Tree> {
    if moves == [] then Some(Tree(false, [], 0, {}))
    else match Run(moves[..|moves| - 1])
      case None => None
      case Some(t) => Next(t, moves[|moves| - 1])
  }

  predicate WatcherOk(t: Tree, w: nat) {
    w < |t.watchers| ==>
      t.watchers[w].late + (if t.flag && t.watchers[w].at == Armed then 1 else 0) <= if w in t.armed then 1 else 0
  }

  lemma MoveKeeps(t: Tree, move: Move)
    requires forall w: nat :: WatcherOk(t, w)
    requires Next(t, move).Some? && (!t.flag ==> t.armed == {}) && forall w :: w in t.armed ==> w < |t.watchers|
    ensures var t' := Next(t, move).value;
      && (forall w: nat :: WatcherOk(t', w)) && (!t'.flag ==> t'.armed == {})
      && forall w :: w in t'.armed ==> w < |t'.watchers|
  {
    var t' := Next(t, move).value;
    forall w: nat
      ensures WatcherOk(t', w)
    {
      assert WatcherOk(t, w);
    }
  }

  lemma {:induction false} RunKeeps(moves: seq<Move>)
    requires Run(moves).Some?
    ensures var t := Run(moves).value;
      && (forall w: nat :: WatcherOk(t, w)) && (!t.flag ==> t.armed == {})
      && forall w :: w in t.armed ==> w < |t.watchers|
  {
    if moves != [] {
      RunKeeps(moves[..|moves| - 1]);
      MoveKeeps(Run(moves[..|moves| - 1]).value, moves[|moves| - 1]);
    }
  }

  function Then(o: Option<Tree>, move: Move): Option<Tree> {
    if o.Some? then Next(o.value, move) else None
  }

  /** While the flag is down a watcher whose child crashes starts another: it reports,
      sleeps, wakes, and passes the loop head again. */
  lemma KeepsRestarting(t: Tree, w: nat)
    requires !t.flag && AtPoint(t, w, Awaiting)
    ensures Then(Then(Then(Then(Next(t, ChildEnds(w, true)), CheckAgain(w)), Wake(w)), CheckTop(w)), StartChild(w)) == Some(t)
  {
    var ws, x := t.watchers, t.watchers[w];
    assert ws[w := x.(at := Reporting)][w := x.(at := Sleeping)] == ws[w := x.(at := Sleeping)];
    assert ws[w := x.(at := Sleeping)][w := x.(at := Top)] == ws[w := x.(at := Top)];
    assert ws[w := x.(at := Top)][w := x.(at := Armed)] == ws[w := x.(at := Armed)];
    assert ws[w := x.(at := Armed)][w := Watcher(Awaiting, x.late)] == ws;
  }

  /** A watcher whose child ended cleanly is gone, and stays so. */
  lemma CleanEndIsFinal(t: Tree, move: Move, w: nat)
    requires Next(t, move).Some? && (AtPoint(t, w, Gone) || (AtPoint(t, w, Awaiting) && move == ChildEnds(w, false)))
    ensures AtPoint(Next(t, move).value, w, Gone)
  {
  }

  /** Once the flag is up a watcher starts at most one further child, and only one
      that had already passed the loop head does. */
  lemma LateChildren(moves: seq<Move>, w: nat)
    requires Run(moves).Some? && w < |Run(moves).value.watchers|
    ensures Run(moves).value.watchers[w].late <= 1
    ensures Run(moves).value.watchers[w].late == 1 ==> w in Run(moves).value.armed
  {
    RunKeeps(moves);
    assert WatcherOk(Run(moves).value, w);
  }

  /** The bound is met: the flag may go up between the loop head and the start. */
  lemma LateChildExists()
    ensures var moves := [EnterSpawn, StartWatcher, CheckTop(0), RaiseFlag, StartChild(0)];
            Run(moves).Some? && Run(moves).value.watchers == [Watcher(Awaiting, 1)]
  {
    var m5 := [EnterSpawn, StartWatcher, CheckTop(0), RaiseFlag, StartChild(0)];
    var m4 := [EnterSpawn, StartWatcher, CheckTop(0), RaiseFlag];
    var m3 := [EnterSpawn, StartWatcher, CheckTop(0)];
    var m2, m1 := [EnterSpawn, StartWatcher], [EnterSpawn];
    assert m5[..4] == m4 && m4[..3] == m3 && m3[..2] == m2 && m2[..1] == m1 && m1[..0] == [];
    assert Run(m1) == Some(Tree(false, [], 1, {}));
    assert [] + [Watcher(Top, 0)] == [Watcher(Top, 0)];
    assert Run(m2) == Some(Tree(false, [Watcher(Top, 0)], 0, {}));
    assert [Watcher(Top, 0)][0 := Watcher(Armed, 0)] == [Watcher(Armed, 0)];
    assert Run(m3) == Some(Tree(false, [Watcher(Armed, 0)], 0, {}));
    assert Run(m4).value.flag;
  }

  /** How many more steps a watcher can take once the flag is up. */
  function StepsLeft(at: At): nat {
    match at
    case Gone => 0
    case Top => 1
    case Reporting => 1
    case Sleeping => 2
    case Awaiting => 2
    case Armed => 3
  }

  predicate IsBy(move: Move, w: nat) {
    !move.RaiseFlag? && !move.EnterSpawn? && !move.StartWatcher? && move.w == w
  }

  function RunFrom(t: Tree, moves: seq<Move>): Option<Tree> {
    if moves == [] then Some(t)
    else match RunFrom(t, moves[..|moves| - 1])
      case None => None
      case Some(u) => Next(u, moves[|moves| - 1])
  }

  function MovesBy(moves: seq<Move>, w: nat): nat {
    if moves == [] then 0
    else MovesBy(moves[..|moves| - 1], w) + if IsBy(moves[|moves| - 1], w) then 1 else 0
  }

  /** Whatever the others do, a watcher alive when the flag goes up takes at most
      three more steps, and no more callers get in. */
  lemma {:induction false} WatchersDrain(t: Tree, moves: seq<Move>, w: nat)
    requires t.flag && w < |t.watchers| && RunFrom(t, moves).Some?
    ensures var u := RunFrom(t, moves).value;
      && u.flag && u.entering <= t.entering && |u.watchers| + u.entering == |t.watchers| + t.entering
      && w < |u.watchers|
      && MovesBy(moves, w) + StepsLeft(u.watchers[w].at) <= StepsLeft(t.watchers[w].at) <= 3
  {
    if moves != [] {
      WatchersDrain(t, moves[..|moves| - 1], w);
    }
  }
}
