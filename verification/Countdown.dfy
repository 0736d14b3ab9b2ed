/**
 The dialog's clock: `DialogController` counts 100 ms ticks in `i32` fields, opens
 Allow after the minimum display time and denies when the timeout is reached. The
 PAM module waits for it with a limit of its own.
 */
module Countdown {
  import opened Common
  import opened VerdictWire

  const I32_MAX: int := 0x7FFF_FFFF
  const TICK_MS: int := 100
  const GRACE_SECS: int := 5

  /** Release builds wrap on `i32` overflow. */
  function Wrap32(n: int): int {
    (n + 0x8000_0000) % 0x1_0000_0000 - 0x8000_0000
  }

  predicate FitsI32(n: int) {
    -0x8000_0000 <= n <= I32_MAX
  }

  /** `i32::try_from(n).unwrap_or(i32::MAX)`. */
  function Clamp32(n: nat): nat {
    Min(n, I32_MAX)
  }

  /** The whole seconds that cover `ms` milliseconds. */
  function CeilSecs(ms: nat): nat {
    (ms + 999) / 1000
  }

  datatype Dialog = Dialog(
    timeoutSecs: nat, minTimeMs: nat, remainingSecs: nat, elapsedMs: int, progress: real,
    allowEnabled: bool, rememberOffered: bool, rememberChecked: bool, finished: Option<Verdict>)

  datatype Event = Tick | PressAllow | PressDeny | Check(ticked: bool)

  function Opened(timeout: nat, minTime: nat, rememberSecs: u32): Dialog {
    Dialog(Clamp32(timeout), Clamp32(minTime), Clamp32(timeout), 0, 0.0, minTime == 0, rememberSecs > 0, false, None)
  }

  /** `timeout.saturating_mul(1000)`. */
  function TotalMs(timeoutSecs: nat): nat {
    Min(timeoutSecs * 1000, I32_MAX)
  }

  function Fraction(elapsed: int, total: int): real
    requires total > 0
  {
    if elapsed <= 0 then 0.0 else if elapsed >= total then 1.0 else elapsed as real / total as real
  }

  function Ticked(d: Dialog): Dialog {
    var elapsed := Wrap32(d.elapsedMs + TICK_MS);
    var d := d.(elapsedMs := elapsed, allowEnabled := d.allowEnabled || elapsed >= d.minTimeMs);
    if d.timeoutSecs == 0 then d
    else
      var total := TotalMs(d.timeoutSecs);
      var left := Wrap32(total - elapsed);
      d.(progress := Fraction(elapsed, total),
         remainingSecs := CeilSecs(if left > 0 then left else 0),
         finished := if elapsed >= total then Some(Verdict(Timeout, false)) else None)
  }

  /** One step of a dialog whose process is still there. */
  function Next(d: Dialog, e: Event): Dialog {
    if d.finished.Some? then d
    else match e
      case Tick => Ticked(d)
      case PressAllow =>
        if d.allowEnabled then d.(finished := Some(Verdict(Allow, d.rememberOffered && d.rememberChecked))) else d
      case PressDeny => d.(finished := Some(Verdict(Deny, false)))
      case Check(b) => if d.rememberOffered then d.(rememberChecked := b) else d
  }

  function Run(d: Dialog, es: seq<Event>): Dialog {
    if es == [] then d else Next(Run(d, es[..|es| - 1]), es[|es| - 1])
  }

  /** The ticks that reached a dialog still on screen. */
  function Ticks(d: Dialog, es: seq<Event>): nat {
    if es == [] then 0
    else Ticks(d, es[..|es| - 1]) + if es[|es| - 1] == Tick && Run(d, es[..|es| - 1]).finished.None? then 1 else 0
  }

  class DialogController {
    const timeoutSecs: nat
    const minTimeMs: nat
    const rememberOffered: bool
    var remainingSecs: nat
    var elapsedMs: int
    var progress: real
    var allowEnabled: bool
    var rememberChecked: bool
    /** The verdict this process wrote before it exited. */
    var finished: Option<Verdict>

    ghost function View(): Dialog
      reads this
    {
      Dialog(timeoutSecs, minTimeMs, remainingSecs, elapsedMs, progress, allowEnabled, rememberOffered,
             rememberChecked, finished)
    }

    constructor (timeout: nat, minTime: nat, rememberSecs: u32)
      ensures View() == Opened(timeout, minTime, rememberSecs)
    {
      timeoutSecs, minTimeMs := Clamp32(timeout), Clamp32(minTime);
      remainingSecs, elapsedMs, progress := Clamp32(timeout), 0, 0.0;
      allowEnabled, rememberOffered, rememberChecked := minTime == 0, rememberSecs > 0, false;
      finished := None;
    }

    method OnTick()
      requires finished.None?
      modifies this
      ensures View() == Next(old(View()), Tick)
    {
      var elapsed := Wrap32(elapsedMs + TICK_MS);
      elapsedMs := elapsed;
      if !allowEnabled && elapsed >= minTimeMs {
        allowEnabled := true;
      }
      if timeoutSecs > 0 {
        var total := TotalMs(timeoutSecs);
        progress := Fraction(elapsed, total);
        var left := Wrap32(total - elapsed);
        remainingSecs := CeilSecs(if left > 0 then left else 0);
        if elapsed >= total {
          finished := Some(Verdict(Timeout, false));
        }
      }
    }

    method OnAllow()
      requires finished.None?
      modifies this
      ensures View() == Next(old(View()), PressAllow)
      ensures finished.Some? <==> old(allowEnabled)
      ensures finished.Some? ==> finished.value.outcome == Allow
    {
      if allowEnabled {
        finished := Some(Verdict(Allow, rememberOffered && rememberChecked));
      }
    }

    method OnDeny()
      requires finished.None?
      modifies this
      ensures View() == Next(old(View()), PressDeny)
      ensures finished == Some(Verdict(Deny, false))
    {
      finished := Some(Verdict(Deny, false));
    }
  }

  // ---- what the countdown keeps

  /** The largest timeout whose milliseconds still fit. */
  const LONGEST: nat := 2147483

  /** A dialog after `n` ticks of a run in which nothing overflowed. */
  ghost predicate After(d: Dialog, n: nat) {
    && 1 <= d.timeoutSecs <= LONGEST
    && n <= 10 * d.timeoutSecs
    && d.elapsedMs == 100 * n
    && (d.allowEnabled <==> d.elapsedMs >= d.minTimeMs)
    && d.remainingSecs == CeilSecs(1000 * d.timeoutSecs - d.elapsedMs)
    && (d.finished.None? ==> n < 10 * d.timeoutSecs)
    && (d.finished.Some? && d.finished.value.outcome == Timeout ==> n == 10 * d.timeoutSecs)
    && (d.finished.Some? && d.finished.value.outcome == Allow ==> d.elapsedMs >= d.minTimeMs)
    && (d.finished.Some? ==>
          (d.finished.value.remember <==> d.finished.value.outcome == Allow && d.rememberOffered && d.rememberChecked))
  }

  /** Nothing computed by a tick leaves `i32` while a timeout of at most LONGEST runs. */
  lemma TickStaysInRange(d: Dialog, n: nat)
    requires After(d, n) && d.finished.None?
    ensures FitsI32(d.elapsedMs + TICK_MS) && FitsI32(TotalMs(d.timeoutSecs) - (d.elapsedMs + TICK_MS))
    ensures TotalMs(d.timeoutSecs) == 1000 * d.timeoutSecs
    ensures After(Next(d, Tick), n + 1)
    ensures Next(d, Tick).remainingSecs <= d.remainingSecs
    ensures Next(d, Tick).timeoutSecs == d.timeoutSecs && Next(d, Tick).minTimeMs == d.minTimeMs
  {
    var elapsed, total := d.elapsedMs + TICK_MS, TotalMs(d.timeoutSecs);
    WrapFits(elapsed);
    WrapFits(total - elapsed);
  }

  lemma WrapFits(n: int)
    requires FitsI32(n)
    ensures Wrap32(n) == n
  {
  }

  /** The user's own events leave the clock alone. */
  lemma OthersKeepTheClock(d: Dialog, n: nat, e: Event)
    requires After(d, n) && (e != Tick || d.finished.Some?)
    ensures After(Next(d, e), n)
    ensures Next(d, e).remainingSecs == d.remainingSecs && Next(d, e).timeoutSecs == d.timeoutSecs
    ensures Next(d, e).minTimeMs == d.minTimeMs
  {
  }

  lemma OpenedIsAfter(timeout: nat, minTime: nat, rememberSecs: u32)
    requires 1 <= timeout <= LONGEST
    ensures var d := Opened(timeout, minTime, rememberSecs);
      && After(d, 0) && d.timeoutSecs == timeout && d.minTimeMs == Clamp32(minTime)
      && d.finished.None? && d.progress == 0.0
  {
    assert CeilSecs(1000 * timeout) == timeout;
  }

  /**
   The whole countdown, for every run: time is counted exactly, the seconds shown
   are the exact ceiling, and a verdict is Timeout only on tick 10 * timeout, Allow
   only once the minimum display time has passed, with the opt-in only if it was
   offered and ticked.
   */
  lemma {:induction false} EveryRun(timeout: nat, minTime: nat, rememberSecs: u32, es: seq<Event>)
    requires 1 <= timeout <= LONGEST
    ensures var d0 := Opened(timeout, minTime, rememberSecs);
      && After(Run(d0, es), Ticks(d0, es)) && Run(d0, es).timeoutSecs == timeout
      && Run(d0, es).minTimeMs == Clamp32(minTime)
      && 0 <= Run(d0, es).remainingSecs <= timeout
      && (Run(d0, es).remainingSecs == 0 <==> Ticks(d0, es) == 10 * timeout)
      && 0 <= 1000 * Run(d0, es).remainingSecs - (1000 * timeout - 100 * Ticks(d0, es)) < 1000
  {
    hide Next, Opened;
    var d0 := Opened(timeout, minTime, rememberSecs);
    OpenedIsAfter(timeout, minTime, rememberSecs);
    if es != [] {
      var before := es[..|es| - 1];
      EveryRun(timeout, minTime, rememberSecs, before);
      var d := Run(d0, before);
      if es[|es| - 1] == Tick && d.finished.None? {
        TickStaysInRange(d, Ticks(d0, before));
      } else {
        OthersKeepTheClock(d, Ticks(d0, before), es[|es| - 1]);
      }
    }
  }

  /** The progress shown is the exact share of the time that has passed. */
  lemma ProgressIsExact(timeout: nat, minTime: nat, rememberSecs: u32, es: seq<Event>)
    requires 1 <= timeout <= LONGEST
    ensures var d0 := Opened(timeout, minTime, rememberSecs);
      Run(d0, es).progress == (100 * Ticks(d0, es)) as real / (1000 * timeout) as real
  {
    hide Run, Ticks, Next;
    var n := Ticks(Opened(timeout, minTime, rememberSecs), es);
    ProgressIsFraction(timeout, minTime, rememberSecs, es);
    EveryRun(timeout, minTime, rememberSecs, es);
    ShareOf(100 * n, 1000 * timeout);
  }

  lemma ShareOf(part: nat, whole: nat)
    requires 0 < whole && part <= whole
    ensures Fraction(part, whole) == part as real / whole as real
  {
    if part == whole {
      assert whole as real / whole as real == 1.0;
    }
  }

  lemma {:induction false} ProgressIsFraction(timeout: nat, minTime: nat, rememberSecs: u32, es: seq<Event>)
    requires 1 <= timeout <= LONGEST
    ensures var d0 := Opened(timeout, minTime, rememberSecs);
      Run(d0, es).progress == Fraction(100 * Ticks(d0, es), 1000 * timeout)
  {
    if es != [] {
      ProgressIsFraction(timeout, minTime, rememberSecs, es[..|es| - 1]);
      EveryRun(timeout, minTime, rememberSecs, es[..|es| - 1]);
      var d := Run(Opened(timeout, minTime, rememberSecs), es[..|es| - 1]);
      TickProgress(d, es[|es| - 1], Ticks(Opened(timeout, minTime, rememberSecs), es[..|es| - 1]));
    }
  }

  lemma TickProgress(d: Dialog, e: Event, n: nat)
    requires After(d, n)
    ensures Next(d, e).progress ==
      if e == Tick && d.finished.None? then Fraction(100 * (n + 1), 1000 * d.timeoutSecs) else d.progress
  {
    hide Wrap32, CeilSecs, Fraction;
    if e == Tick && d.finished.None? {
      TickStaysInRange(d, n);
      WrapFits(d.elapsedMs + TICK_MS);
    }
  }

  /** The seconds shown never go up. */
  lemma RemainingOnlyFalls(timeout: nat, minTime: nat, rememberSecs: u32, es: seq<Event>, e: Event)
    requires 1 <= timeout <= LONGEST
    ensures var d0 := Opened(timeout, minTime, rememberSecs);
      Run(d0, es + [e]).remainingSecs <= Run(d0, es).remainingSecs
  {
    var d0 := Opened(timeout, minTime, rememberSecs);
    assert (es + [e])[..|es|] == es;
    EveryRun(timeout, minTime, rememberSecs, es);
    if e == Tick && Run(d0, es).finished.None? {
      TickStaysInRange(Run(d0, es), Ticks(d0, es));
    } else {
      OthersKeepTheClock(Run(d0, es), Ticks(d0, es), e);
    }
  }

  /** `n` ticks and nothing else. */
  function OnlyTicks(n: nat): (es: seq<Event>)
    ensures |es| == n
  {
    if n == 0 then [] else OnlyTicks(n - 1) + [Tick]
  }

  function TickedTimes(d: Dialog, n: nat): Dialog {
    if n == 0 then d else Next(TickedTimes(d, n - 1), Tick)
  }

  lemma {:induction false} OnlyTicksRun(d: Dialog, n: nat)
    requires forall m :: 0 <= m < n ==> TickedTimes(d, m).finished.None?
    ensures Run(d, OnlyTicks(n)) == TickedTimes(d, n) && Ticks(d, OnlyTicks(n)) == n
  {
    if n > 0 {
      OnlyTicksRun(d, n - 1);
      assert OnlyTicks(n)[..n - 1] == OnlyTicks(n - 1);
      assert TickedTimes(d, n - 1).finished.None?;
    }
  }

  lemma TickDecides(d: Dialog, n: nat)
    requires After(d, n) && d.finished.None?
    ensures After(Next(d, Tick), n + 1) && Next(d, Tick).timeoutSecs == d.timeoutSecs
    ensures Next(d, Tick).finished == if n + 1 == 10 * d.timeoutSecs then Some(Verdict(Timeout, false)) else None
  {
    TickStaysInRange(d, n);
  }

  lemma {:induction false} LeftAloneFrom(d: Dialog, n: nat)
    requires After(d, 0) && d.finished.None? && n <= 10 * d.timeoutSecs
    ensures After(TickedTimes(d, n), n) && TickedTimes(d, n).timeoutSecs == d.timeoutSecs
    ensures TickedTimes(d, n).finished == if n == 10 * d.timeoutSecs then Some(Verdict(Timeout, false)) else None
  {
    if n > 0 {
      LeftAloneFrom(d, n - 1);
      TickDecides(TickedTimes(d, n - 1), n - 1);
    }
  }

  /** Left alone, the dialog denies on exactly the tick 10 * timeout. */
  lemma LeftAlone(timeout: nat, minTime: nat, rememberSecs: u32, n: nat)
    requires 1 <= timeout <= LONGEST && n <= 10 * timeout
    ensures var d0 := Opened(timeout, minTime, rememberSecs);
      var d := Run(d0, OnlyTicks(n));
      && Ticks(d0, OnlyTicks(n)) == n
      && d.finished == if n == 10 * timeout then Some(Verdict(Timeout, false)) else None
  {
    var d0 := Opened(timeout, minTime, rememberSecs);
    forall m | 0 <= m <= n ensures m < n ==> TickedTimes(d0, m).finished.None? { LeftAloneFrom(d0, m); }
    OnlyTicksRun(d0, n);
    LeftAloneFrom(d0, n);
  }

  /** No limit, or a total that has saturated. */
  predicate NeverReached(timeoutSecs: nat) {
    timeoutSecs == 0 || timeoutSecs > LONGEST
  }

  lemma LongTick(d: Dialog, n: nat)
    requires NeverReached(d.timeoutSecs) && d.finished.None? && d.elapsedMs == 100 * n && n < 21474836
    ensures var e := Next(d, Tick); e.timeoutSecs == d.timeoutSecs && e.finished.None? && e.elapsedMs == 100 * (n + 1)
  {
    assert d.timeoutSecs > LONGEST ==> TotalMs(d.timeoutSecs) == I32_MAX;
    WrapFits(d.elapsedMs + TICK_MS);
  }

  lemma {:induction false} LongTicks(d: Dialog, n: nat)
    requires NeverReached(d.timeoutSecs) && d.finished.None? && d.elapsedMs == 0 && n <= 21474836
    ensures var e := TickedTimes(d, n); e.timeoutSecs == d.timeoutSecs && e.finished.None? && e.elapsedMs == 100 * n
  {
    if n > 0 {
      LongTicks(d, n - 1);
      LongTick(TickedTimes(d, n - 1), n - 1);
    }
  }

  /** Without a limit, and beyond LONGEST where the total saturates, the elapsed count overflows on tick 21474837. */
  lemma TooLongOverflows(timeout: nat, minTime: nat, rememberSecs: u32, n: nat)
    requires NeverReached(timeout) && n <= 21474836
    ensures var d0 := Opened(timeout, minTime, rememberSecs);
      var d := Run(d0, OnlyTicks(n));
      && d.finished.None? && d.elapsedMs == 100 * n
      && (n == 21474836 ==> !FitsI32(d.elapsedMs + TICK_MS))
  {
    var d0 := Opened(timeout, minTime, rememberSecs);
    forall m | 0 <= m < n ensures TickedTimes(d0, m).finished.None? { LongTicks(d0, m); }
    OnlyTicksRun(d0, n);
    LongTicks(d0, n);
  }

  /** What keeps the elapsed count off the saturated total for ever: it is even. */
  lemma StaysEven(d: Dialog, e: Event)
    requires NeverReached(d.timeoutSecs) && d.elapsedMs % 2 == 0
    requires d.finished.Some? ==> d.finished.value.outcome != Timeout
    ensures var t := Next(d, e);
      t.timeoutSecs == d.timeoutSecs && t.elapsedMs % 2 == 0
        && (t.finished.Some? ==> t.finished.value.outcome != Timeout)
  {
    hide Wrap32, CeilSecs, Fraction;
    WrapKeepsEven(d.elapsedMs + TICK_MS);
    assert d.timeoutSecs > LONGEST ==> TotalMs(d.timeoutSecs) == I32_MAX;
  }

  /** A remainder is what is left between 0 and the divisor. */
  lemma RemainderIs(a: int, q: int, r: int)
    requires a == 0x1_0000_0000 * q + r && 0 <= r < 0x1_0000_0000
    ensures a % 0x1_0000_0000 == r
  {
  }

  lemma WrapKeepsEven(n: int)
    requires n % 2 == 0
    ensures Wrap32(n) % 2 == 0 && FitsI32(Wrap32(n))
  {
    var half := n / 2 + 0x4000_0000;
    var q, r := half / 0x8000_0000, half % 0x8000_0000;
    assert n + 0x8000_0000 == 0x1_0000_0000 * q + 2 * r;
    RemainderIs(n + 0x8000_0000, q, 2 * r);
  }

  /** So neither without a limit nor beyond LONGEST does any run, of whatever length, end in Timeout. */
  lemma {:induction false} NeverTimesOut(timeout: nat, minTime: nat, rememberSecs: u32, es: seq<Event>)
    requires NeverReached(timeout)
    ensures var d := Run(Opened(timeout, minTime, rememberSecs), es);
      && NeverReached(d.timeoutSecs) && d.elapsedMs % 2 == 0
      && (d.finished.Some? ==> d.finished.value.outcome != Timeout)
  {
    hide Next;
    if es != [] {
      NeverTimesOut(timeout, minTime, rememberSecs, es[..|es| - 1]);
      StaysEven(Run(Opened(timeout, minTime, rememberSecs), es[..|es| - 1]), es[|es| - 1]);
    }
  }

  // ---- what the user and the clock did, and what comes of it

  /** The ticks among the events. */
  function TickCount(es: seq<Event>): nat {
    if es == [] then 0 else TickCount(es[..|es| - 1]) + if es[|es| - 1] == Tick then 1 else 0
  }

  /** Whether the box was left ticked; at first it is not. */
  predicate LeftTicked(es: seq<Event>) {
    es != [] && if es[|es| - 1].Check? then es[|es| - 1].ticked else LeftTicked(es[..|es| - 1])
  }

  /** On some of the first `n` ticks the minimum time was over, as `i32` counts it. */
  ghost predicate MayAllow(minTime: nat, n: nat) {
    exists m: nat :: m <= n && Wrap32(100 * m) >= Clamp32(minTime)
  }

  /** What ends a dialog that is still on screen after `es`: Deny, Allow once it may be pressed, the last tick. */
  ghost predicate Decides(timeout: nat, minTime: nat, es: seq<Event>, e: Event) {
    match e
    case PressDeny => true
    case PressAllow => MayAllow(minTime, TickCount(es))
    case Tick => 1 <= timeout <= LONGEST && TickCount(es) + 1 == 10 * timeout
    case Check(_) => false
  }

  /** The `i`-th event is the first that decides. */
  ghost predicate FirstDecision(timeout: nat, minTime: nat, es: seq<Event>, i: nat) {
    && i < |es| && Decides(timeout, minTime, es[..i], es[i])
    && forall j :: 0 <= j < i ==> !Decides(timeout, minTime, es[..j], es[j])
  }

  /** Nothing has decided so far. */
  ghost predicate Undecided(timeout: nat, minTime: nat, es: seq<Event>) {
    forall i :: 0 <= i < |es| ==> !Decides(timeout, minTime, es[..i], es[i])
  }

  /** Up to the wrap-around, and so for every timeout of at most LONGEST, the time is what the ticks say. */
  lemma MayAllowExactlyWhen(minTime: nat, n: nat)
    requires n <= 21474836 || minTime <= 2147483600
    ensures MayAllow(minTime, n) <==> 100 * n >= minTime
  {
    var k := if n <= 21474836 then n else 21474836;
    WrapFits(100 * k);
    if 100 * n >= minTime {
      assert Wrap32(100 * k) >= Clamp32(minTime);
    } else {
      forall m: nat | m <= n ensures Wrap32(100 * m) < Clamp32(minTime) { WrapFits(100 * m); }
    }
  }

  /** A dialog on screen knows the time as `i32` counts it, whether Allow may be pressed, and the box. */
  ghost predicate OnScreen(d: Dialog, timeout: nat, minTime: nat, rememberSecs: u32, es: seq<Event>) {
    && d.finished.None? && d.timeoutSecs == Clamp32(timeout) && d.minTimeMs == Clamp32(minTime)
    && d.elapsedMs == Wrap32(100 * TickCount(es)) && (d.allowEnabled <==> MayAllow(minTime, TickCount(es)))
    && (d.rememberOffered <==> rememberSecs > 0) && (d.rememberChecked <==> rememberSecs > 0 && LeftTicked(es))
    && (1 <= timeout <= LONGEST ==> TickCount(es) < 10 * timeout)
  }

  lemma WrapAgain(n: nat)
    ensures Wrap32(Wrap32(100 * n) + TICK_MS) == Wrap32(100 * (n + 1))
  {
    var a, m := 100 * n + 0x8000_0000, 0x1_0000_0000;
    var q := a / m;
    assert Wrap32(100 * n) == 100 * n - m * q;
    WrapShifts(100 * (n + 1), q);
  }

  lemma MayAllowNext(minTime: nat, n: nat)
    ensures MayAllow(minTime, n + 1) <==> MayAllow(minTime, n) || Wrap32(100 * (n + 1)) >= Clamp32(minTime)
  {
    hide Wrap32, Clamp32;
    if m: nat :| m <= n + 1 && Wrap32(100 * m) >= Clamp32(minTime) {
      if m == n + 1 {
        assert Wrap32(100 * (n + 1)) >= Clamp32(minTime);
      } else {
        assert MayAllow(minTime, n);
      }
    }
    if Wrap32(100 * (n + 1)) >= Clamp32(minTime) {
      var m := n + 1;
      assert m <= n + 1 && Wrap32(100 * m) >= Clamp32(minTime);
    }
  }

  /** The total is met on the last tick of a timeout that fits, and never otherwise. */
  lemma TotalIsMet(timeout: nat, n: nat)
    requires timeout > 0 && (timeout <= LONGEST ==> n <= 10 * timeout)
    ensures Wrap32(100 * n) >= TotalMs(Clamp32(timeout)) <==> timeout <= LONGEST && n == 10 * timeout
  {
    if timeout <= LONGEST {
      WrapFits(100 * n);
    } else {
      WrapKeepsEven(100 * n);
    }
  }

  lemma TickOnScreen(d: Dialog, timeout: nat, minTime: nat, rememberSecs: u32, es: seq<Event>)
    requires OnScreen(d, timeout, minTime, rememberSecs, es)
    ensures Decides(timeout, minTime, es, Tick) ==> Next(d, Tick).finished == Some(Verdict(Timeout, false))
    ensures !Decides(timeout, minTime, es, Tick) ==>
      OnScreen(Next(d, Tick), timeout, minTime, rememberSecs, es + [Tick])
  {
    hide CeilSecs, Fraction, Wrap32, MayAllow, TotalMs, Clamp32;
    var n := TickCount(es);
    assert (es + [Tick])[..|es|] == es;
    WrapAgain(n);
    MayAllowNext(minTime, n);
    ClampKeepsZero(timeout);
    if timeout > 0 {
      TotalIsMet(timeout, n + 1);
    }
  }

  lemma ClampKeepsZero(n: nat)
    ensures Clamp32(n) == 0 <==> n == 0
  {
  }

  lemma StepOnScreen(d: Dialog, timeout: nat, minTime: nat, rememberSecs: u32, es: seq<Event>, e: Event)
    requires OnScreen(d, timeout, minTime, rememberSecs, es)
    ensures Decides(timeout, minTime, es, e) ==> Next(d, e).finished == Some(VerdictOf(rememberSecs, es, e))
    ensures !Decides(timeout, minTime, es, e) ==> OnScreen(Next(d, e), timeout, minTime, rememberSecs, es + [e])
  {
    hide Ticked, MayAllow, Wrap32, Clamp32;
    assert (es + [e])[..|es|] == es;
    if e == Tick {
      TickOnScreen(d, timeout, minTime, rememberSecs, es);
    }
  }

  function VerdictOf(rememberSecs: u32, es: seq<Event>, e: Event): Verdict {
    match e
    case PressAllow => Verdict(Allow, rememberSecs > 0 && LeftTicked(es))
    case Tick => Verdict(Timeout, false)
    case _ => Verdict(Deny, false)
  }

  /**
   The verdict of every run, from its events alone. It is that of the first event that
   decides: Deny of a Deny press, Timeout of tick 10 * timeout, Allow of an Allow press
   once the minimum display time is over; an earlier one does nothing. The opt-in is the
   state in which the box was left before an Allow press, if it was offered at all.
   */
  lemma VerdictIsTheFirstDecision(timeout: nat, minTime: nat, rememberSecs: u32, es: seq<Event>)
    ensures var verdict := Run(Opened(timeout, minTime, rememberSecs), es).finished;
      && (verdict.None? <==> Undecided(timeout, minTime, es))
      && forall i: nat :: FirstDecision(timeout, minTime, es, i) ==>
           match es[i]
           case PressAllow => verdict == Some(Verdict(Allow, rememberSecs > 0 && LeftTicked(es[..i])))
           case PressDeny => verdict == Some(Verdict(Deny, false))
           case Tick => verdict == Some(Verdict(Timeout, false))
           case Check(_) => false
  {
    hide Run, Next, Decides, LeftTicked, TickCount, OnScreen, Undecided;
    DecidedOrOnScreen(timeout, minTime, rememberSecs, es);
    forall i: nat | FirstDecision(timeout, minTime, es, i) ensures !es[i].Check? {
      NeverByABox(timeout, minTime, es[..i], es[i]);
    }
    if Undecided(timeout, minTime, es) {
      StillUp(Run(Opened(timeout, minTime, rememberSecs), es), timeout, minTime, rememberSecs, es);
    }
  }

  lemma NeverByABox(timeout: nat, minTime: nat, es: seq<Event>, e: Event)
    requires Decides(timeout, minTime, es, e)
    ensures !e.Check?
  {
  }

  lemma StillUp(d: Dialog, timeout: nat, minTime: nat, rememberSecs: u32, es: seq<Event>)
    requires OnScreen(d, timeout, minTime, rememberSecs, es)
    ensures d.finished.None?
  {
  }

  lemma {:induction false} DecidedOrOnScreen(timeout: nat, minTime: nat, rememberSecs: u32, es: seq<Event>)
    ensures var d := Run(Opened(timeout, minTime, rememberSecs), es);
      && (Undecided(timeout, minTime, es) ==> OnScreen(d, timeout, minTime, rememberSecs, es))
      && (!Undecided(timeout, minTime, es) ==> d.finished.Some?)
      && (forall i: nat :: FirstDecision(timeout, minTime, es, i) ==>
            d.finished == Some(VerdictOf(rememberSecs, es[..i], es[i])))
  {
    hide Next, Decides, OnScreen, LeftTicked, TickCount, Undecided, FirstDecision, VerdictOf, Opened;
    if es == [] {
      NothingDecides(timeout, minTime);
      OpenedIsOnScreen(timeout, minTime, rememberSecs);
    } else {
      var front, e := es[..|es| - 1], es[|es| - 1];
      var d := Run(Opened(timeout, minTime, rememberSecs), front);
      assert front + [e] == es;
      DecidedOrOnScreen(timeout, minTime, rememberSecs, front);
      OneMoreEvent(timeout, minTime, es);
      if Undecided(timeout, minTime, front) {
        StepOnScreen(d, timeout, minTime, rememberSecs, front, e);
      } else {
        FinishedStays(d, e);
      }
    }
  }

  lemma NothingDecides(timeout: nat, minTime: nat)
    ensures Undecided(timeout, minTime, []) && forall i: nat :: !FirstDecision(timeout, minTime, [], i)
  {
  }

  lemma OpenedIsOnScreen(timeout: nat, minTime: nat, rememberSecs: u32)
    ensures OnScreen(Opened(timeout, minTime, rememberSecs), timeout, minTime, rememberSecs, [])
  {
    MayAllowExactlyWhen(minTime, 0);
  }

  lemma FinishedStays(d: Dialog, e: Event)
    requires d.finished.Some?
    ensures Next(d, e) == d
  {
  }

  /** One more event is the first decision only where there was none, and moves none there was. */
  lemma OneMoreEvent(timeout: nat, minTime: nat, es: seq<Event>)
    requires es != []
    ensures var front, e := es[..|es| - 1], es[|es| - 1];
      && (Undecided(timeout, minTime, es) <==>
            Undecided(timeout, minTime, front) && !Decides(timeout, minTime, front, e))
      && (forall i: nat :: FirstDecision(timeout, minTime, es, i) ==>
            if Undecided(timeout, minTime, front) then i == |front| && Decides(timeout, minTime, front, e)
            else FirstDecision(timeout, minTime, front, i) && es[..i] == front[..i] && es[i] == front[i])
  {
    hide Decides;
    var front := es[..|es| - 1];
    assert forall i :: 0 <= i < |front| ==> front[..i] == es[..i] && front[i] == es[i];
    if !Undecided(timeout, minTime, front) {
      var j :| 0 <= j < |front| && Decides(timeout, minTime, front[..j], front[j]);
      assert Decides(timeout, minTime, es[..j], es[j]);
    }
  }

  /** So without an Allow press, late enough, nothing is ever allowed. */
  lemma NoPressNoAllow(timeout: nat, minTime: nat, rememberSecs: u32, es: seq<Event>)
    requires forall i :: 0 <= i < |es| && es[i] == PressAllow ==> !MayAllow(minTime, TickCount(es[..i]))
    ensures var verdict := Run(Opened(timeout, minTime, rememberSecs), es).finished;
      verdict.Some? ==> verdict.value.outcome != Allow
  {
    hide Run, Next, OnScreen, LeftTicked, TickCount, MayAllow;
    VerdictIsTheFirstDecision(timeout, minTime, rememberSecs, es);
    if i :| 0 <= i < |es| && Decides(timeout, minTime, es[..i], es[i]) {
      var k := FirstOf(timeout, minTime, es, i);
      assert es[k] != PressAllow;
    }
  }

  lemma {:induction false} FirstOf(timeout: nat, minTime: nat, es: seq<Event>, i: nat) returns (k: nat)
    requires i < |es| && Decides(timeout, minTime, es[..i], es[i])
    ensures FirstDecision(timeout, minTime, es, k)
    decreases i
  {
    hide Decides;
    if j :| 0 <= j < i && Decides(timeout, minTime, es[..j], es[j]) {
      k := FirstOf(timeout, minTime, es, j);
    } else {
      k := i;
    }
  }

  // ---- `parent_poll_timeout`

  /** `i32::try_from(n).unwrap_or(30)`. */
  function ParentSecs(timeoutSecs: u32): int {
    if timeoutSecs as int <= I32_MAX then timeoutSecs as int else 30
  }

  /** The product the module computes, before it wraps. */
  function ParentProduct(timeoutSecs: u32): int {
    (ParentSecs(timeoutSecs) + GRACE_SECS) * 1000
  }

  /** What the module hands to `poll`: no limit, or milliseconds; a negative product becomes the largest limit. */
  function PollLimitMs(timeoutSecs: u32): Option<int> {
    if timeoutSecs == 0 then None
    else
      var ms := Wrap32(Wrap32(ParentSecs(timeoutSecs) + GRACE_SECS) * 1000);
      if ms < -1 then Some(I32_MAX) else if ms == -1 then None else Some(ms)
  }

  /** How long the dialog is to last, in milliseconds. */
  function DialogMs(timeoutSecs: u32): int {
    TotalMs(Clamp32(timeoutSecs as nat))
  }

  /** Wrapping the sum first makes no difference, and a product of 1000 stays a multiple of 8. */
  lemma WrappedProduct(timeout: u32)
    ensures Wrap32(Wrap32(ParentSecs(timeout) + GRACE_SECS) * 1000) == Wrap32(ParentProduct(timeout))
    ensures Wrap32(ParentProduct(timeout)) % 8 == 0 && FitsI32(Wrap32(ParentProduct(timeout)))
  {
    var n := ParentSecs(timeout) + GRACE_SECS;
    WrapShifts(n * 1000, if FitsI32(n) then 0 else 1000);
    if !FitsI32(n) {
      assert Wrap32(n) == n - 0x1_0000_0000;
    } else {
      WrapFits(n);
    }
    WrapKeepsEighths(n * 1000);
  }

  lemma WrapShifts(n: int, k: int)
    ensures Wrap32(n - 0x1_0000_0000 * k) == Wrap32(n)
  {
    var a, m := n + 0x8000_0000, 0x1_0000_0000;
    var q := a / m;
    assert a - m * k == m * (q - k) + a % m;
  }

  lemma WrapKeepsEighths(n: int)
    requires n % 8 == 0
    ensures Wrap32(n) % 8 == 0 && FitsI32(Wrap32(n))
  {
    var eighth := n / 8 + 0x1000_0000;
    var q, r := eighth / 0x2000_0000, eighth % 0x2000_0000;
    assert n + 0x8000_0000 == 0x1_0000_0000 * q + 8 * r;
    RemainderIs(n + 0x8000_0000, q, 8 * r);
  }

  /** The limit in each range of timeouts. */
  lemma LimitIs(timeout: u32)
    requires timeout > 0
    ensures PollLimitMs(timeout).Some?
    ensures PollLimitMs(timeout).value ==
      if timeout as int > I32_MAX then 35000
      else if timeout as int <= 2147478 then 1000 * timeout as int + 5000
      else if Wrap32(ParentProduct(timeout)) < 0 then I32_MAX
      else Wrap32(ParentProduct(timeout))
  {
    WrappedProduct(timeout);
    if FitsI32(ParentProduct(timeout)) {
      WrapFits(ParentProduct(timeout));
    }
  }

  /** Just above 2147478 s the product wraps to a negative number. */
  lemma FirstWraps(timeout: u32)
    requires 2147478 < timeout as int <= LONGEST
    ensures Wrap32(ParentProduct(timeout)) < 0
  {
    WrapShifts(ParentProduct(timeout), 1);
    WrapFits(ParentProduct(timeout) - 0x1_0000_0000);
  }

  /**
   For every timeout: the parent polls without limit exactly for 0. Otherwise it gives the
   dialog its five seconds of slack if and only if the timeout is at most 2147478 s, and it
   does not give up before the dialog if and only if, besides, the product is negative
   once it has wrapped.
   */
  lemma ParentOutlastsTheDialog(timeout: u32)
    ensures PollLimitMs(timeout).None? <==> timeout == 0
    ensures timeout > 0 ==>
      var limit := PollLimitMs(timeout).value;
      && (limit == DialogMs(timeout) + 5000 <==> timeout as int <= 2147478)
      && (limit >= DialogMs(timeout) <==>
            timeout as int <= 2147478 || (timeout as int <= I32_MAX && Wrap32(ParentProduct(timeout)) < 0))
  {
    if timeout > 0 {
      LimitIs(timeout);
      WrappedProduct(timeout);
      if 2147478 < timeout as int <= LONGEST {
        FirstWraps(timeout);
      }
    }
  }

  /** Three timeouts at which the slack is lost: too little, killed at once, killed after 35 seconds. */
  lemma SlackIsLost()
    ensures PollLimitMs(2147480) == Some(I32_MAX) && I32_MAX - DialogMs(2147480) == 3647
    ensures PollLimitMs(4294963) == Some(704) && DialogMs(4294963) == I32_MAX
    ensures PollLimitMs(2147483648) == Some(35000) && DialogMs(2147483648) == I32_MAX
  {
    LimitIs(2147480);
    LimitIs(4294963);
    LimitIs(2147483648);
  }
}
