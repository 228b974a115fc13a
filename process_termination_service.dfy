/**
  * Stopping a process by escalation: ask its main window to close, then send
  * Ctrl+C, then kill the whole process tree, waiting for the exit after each
  * step and stopping at the first step after which the process is gone.
  * The process itself is an oracle: the answers it gives to each call are
  * fixed in advance by a `Behaviour`, and the handle records which signals
  * and which waits were issued.
  */
module Termination {

  /** The exceptions the escalator tells apart: `InvalidOperationException` and any other. */
  datatype Failure = InvalidOperation | OtherFailure

  /** How a call on the process ends: with a value, or by throwing. */
  datatype Step<T> = Done(value: T) | Raised(failure: Failure)

  /** What is sent to the process, in the order the escalator may send it. */
  datatype Signal = CloseWindow | CtrlC | KillTree

  /** `process.WaitForExit(timeoutMs)`: whether the process exited in time, or a throw. */
  datatype WaitAnswer = Exited(exited: bool) | WaitThrew

  /** One wait for the exit: the signals sent before it and its timeout in milliseconds. */
  datatype Wait = Wait(after: seq<Signal>, timeoutMs: int)

  /**
    * How the process answers. Each of the first five calls is made at most once
    * per escalation, so a fixed answer loses nothing; the waits and the
    * `HasExited` fallback may happen several times and answer according to the
    * signals sent so far (and the timeout).
    */
  datatype Behaviour = Behaviour(
    found: bool,
    hasWindow: Step<bool>,
    closeWindow: Step<bool>,
    ctrlC: Step<bool>,
    kill: Step<()>,
    waitForExit: (seq<Signal>, int) -> WaitAnswer,
    hasExited: seq<Signal> -> Step<bool>)

  /** `gracefulTimeoutMs = 5000`. */
  const DefaultGracefulTimeoutMs := 5000

  /** The wait after the kill. */
  const KillWaitMs := 2000

  /** C#'s `/` on `int`: the quotient truncated toward zero. */
  function CDiv(a: int, b: int): (q: int)
    requires b > 0
    ensures a >= 0 ==> 0 <= q && q * b <= a < q * b + b
    ensures a < 0 ==> q <= 0 && q * b - b < a <= q * b
  {
    if a >= 0 then a / b else -((-a) / b)
  }

  /** Each graceful step waits for half the graceful timeout. */
  function Half(gracefulTimeoutMs: int): (h: int)
    ensures gracefulTimeoutMs >= 0 ==> 0 <= 2 * h <= gracefulTimeoutMs
  {
    CDiv(gracefulTimeoutMs, 2)
  }

  /** `catch (InvalidOperationException) { return true; } catch { return false; }` */
  function Caught(f: Failure): bool {
    f == InvalidOperation
  }

  /**
    * `WaitForExitAsync`: the wait's own answer, or `HasExited` when the wait
    * throws (an exception of `HasExited` itself escapes).
    */
  function WaitOutcome(b: Behaviour, sent: seq<Signal>, timeoutMs: int): Step<bool> {
    match b.waitForExit(sent, timeoutMs)
    case Exited(e) => Done(e)
    case WaitThrew => b.hasExited(sent)
  }

  // ---------------------------------------------------------------------------
  // The escalation as a specification

  /** How an escalation ended. */
  datatype Ending =
    | NotFound      // `GetProcessById` threw `ArgumentException`
    | ExitSeen      // a wait reported the exit
    | KillTimedOut  // the wait after the kill reported no exit
    | Threw(failure: Failure)

  /** The result, the signals sent and the waits made by one escalation. */
  datatype Run = Run(terminated: bool, sent: seq<Signal>, waits: seq<Wait>, ending: Ending)

  function Stopped(sent: seq<Signal>, waits: seq<Wait>, f: Failure): Run {
    Run(Caught(f), sent, waits, Threw(f))
  }

  /** Step 3: kill the tree and report whether it exits within two seconds. */
  function KillStage(b: Behaviour, sent: seq<Signal>, waits: seq<Wait>): Run {
    var s := sent + [KillTree];
    match b.kill
    case Raised(f) => Stopped(s, waits, f)
    case Done(_) =>
      var w := waits + [Wait(s, KillWaitMs)];
      match WaitOutcome(b, s, KillWaitMs)
      case Raised(f) => Stopped(s, w, f)
      case Done(e) => Run(e, s, w, if e then ExitSeen else KillTimedOut)
  }

  /** Step 2: Ctrl+C, and its wait only when it was delivered. */
  function CtrlCStage(b: Behaviour, t: int, sent: seq<Signal>, waits: seq<Wait>): Run {
    var s := sent + [CtrlC];
    match b.ctrlC
    case Raised(f) => Stopped(s, waits, f)
    case Done(delivered) =>
      if !delivered then KillStage(b, s, waits)
      else
        var w := waits + [Wait(s, Half(t))];
        match WaitOutcome(b, s, Half(t))
        case Raised(f) => Stopped(s, w, f)
        case Done(e) => if e then Run(true, s, w, ExitSeen) else KillStage(b, s, w)
  }

  /** Step 1: close the main window, when there is one. */
  function WindowStage(b: Behaviour, t: int): Run {
    match b.hasWindow
    case Raised(f) => Stopped([], [], f)
    case Done(hasWindow) =>
      if !hasWindow then CtrlCStage(b, t, [], [])
      else
        match b.closeWindow
        case Raised(f) => Stopped([CloseWindow], [], f)
        case Done(_) =>
          var w := [Wait([CloseWindow], Half(t))];
          match WaitOutcome(b, [CloseWindow], Half(t))
          case Raised(f) => Stopped([CloseWindow], w, f)
          case Done(e) => if e then Run(true, [CloseWindow], w, ExitSeen) else CtrlCStage(b, t, [CloseWindow], w)
  }

  /** `TerminateProcessAsync(processId, t)` against a process behaving as `b`. */
  function Escalation(b: Behaviour, t: int): Run {
    if !b.found then Run(true, [], [], NotFound) else WindowStage(b, t)
  }

  // ---------------------------------------------------------------------------
  // What the escalation promises

  function Rank(s: Signal): nat {
    match s
    case CloseWindow => 0
    case CtrlC => 1
    case KillTree => 2
  }

  /** Signals go out in escalation order, each at most once. */
  predicate InOrder(sent: seq<Signal>) {
    forall i, j :: 0 <= i < j < |sent| ==> Rank(sent[i]) < Rank(sent[j])
  }

  /** A wait made after the signals `w.after`, all of them sent, with the timeout the last one calls for. */
  predicate WaitFits(w: Wait, sent: seq<Signal>, t: int) {
    && w.after != [] && w.after <= sent
    && w.timeoutMs == (if w.after[|w.after| - 1] == KillTree then KillWaitMs else Half(t))
  }

  /**
    * Every wait follows the last signal sent before it, and waits half the
    * graceful timeout after a graceful signal and two seconds after the kill;
    * between two waits at least one more signal went out.
    */
  predicate WaitsFollow(sent: seq<Signal>, waits: seq<Wait>, t: int) {
    && (forall k :: 0 <= k < |waits| ==> WaitFits(waits[k], sent, t))
    && (forall k :: 0 < k < |waits| ==> |waits[k - 1].after| < |waits[k].after|)
  }

  function TotalWait(waits: seq<Wait>): int {
    if waits == [] then 0 else TotalWait(waits[..|waits| - 1]) + waits[|waits| - 1].timeoutMs
  }

  /** What every partial escalation keeps: the signals so far, in order, and their waits. */
  ghost predicate Wellformed(sent: seq<Signal>, waits: seq<Wait>, t: int) {
    && InOrder(sent)
    && WaitsFollow(sent, waits, t)
  }

  lemma InOrderSnoc(sent: seq<Signal>, s: Signal)
    requires InOrder(sent) && (sent != [] ==> Rank(sent[|sent| - 1]) < Rank(s))
    ensures InOrder(sent + [s])
  {
    var n := sent + [s];
    forall i, j | 0 <= i < j < |n| ensures Rank(n[i]) < Rank(n[j]) {
      if j == |sent| && i < |sent| - 1 {
        assert Rank(sent[i]) < Rank(sent[|sent| - 1]);
      }
    }
  }

  /** Sending a later signal keeps a partial escalation well formed. */
  lemma SendKeeps(sent: seq<Signal>, waits: seq<Wait>, t: int, s: Signal)
    requires Wellformed(sent, waits, t) && (sent != [] ==> Rank(sent[|sent| - 1]) < Rank(s))
    ensures InOrder(sent + [s]) && WaitsFollow(sent + [s], waits, t)
  {
    InOrderSnoc(sent, s);
    forall k | 0 <= k < |waits| ensures waits[k].after <= sent + [s] {
      assert waits[k].after <= sent;
    }
  }

  /** Waiting after the last signal, with the timeout that signal calls for, keeps it well formed. */
  lemma WaitKeeps(sent: seq<Signal>, waits: seq<Wait>, t: int, ms: int)
    requires InOrder(sent) && WaitsFollow(sent, waits, t)
    requires sent != [] && (waits != [] ==> |waits[|waits| - 1].after| < |sent|)
    requires ms == (if sent[|sent| - 1] == KillTree then KillWaitMs else Half(t))
    ensures Wellformed(sent, waits + [Wait(sent, ms)], t)
  {
    var w := waits + [Wait(sent, ms)];
    forall k | 0 <= k < |w|
      ensures w[k].after != [] && w[k].after <= sent
      ensures w[k].timeoutMs == (if w[k].after[|w[k].after| - 1] == KillTree then KillWaitMs else Half(t))
      ensures k > 0 ==> |w[k - 1].after| < |w[k].after|
    {
      if k < |waits| {
        assert w[k] == waits[k];
        if k > 0 {
          assert w[k - 1] == waits[k - 1];
        }
      } else if k > 0 {
        assert w[k - 1] == waits[k - 1];
      }
    }
  }

  /** The kill step ends every branch that reaches it well formed. */
  lemma KillStageWellformed(b: Behaviour, sent: seq<Signal>, waits: seq<Wait>, t: int)
    requires Wellformed(sent, waits, t) && KillTree !in sent
    ensures var r := KillStage(b, sent, waits);
      InOrder(r.sent) && WaitsFollow(r.sent, r.waits, t) && r.sent == sent + [KillTree]
  {
    if sent != [] {
      assert sent[|sent| - 1] in sent;
      assert Rank(sent[|sent| - 1]) < Rank(KillTree);
    }
    var s := sent + [KillTree];
    SendKeeps(sent, waits, t, KillTree);
    if b.kill.Done? {
      WaitKeeps(s, waits, t, KillWaitMs);
    }
  }

  /** The Ctrl+C step and whatever follows it stay well formed. */
  lemma CtrlCStageWellformed(b: Behaviour, t: int, sent: seq<Signal>, waits: seq<Wait>)
    requires Wellformed(sent, waits, t) && (sent == [] || sent == [CloseWindow])
    ensures var r := CtrlCStage(b, t, sent, waits);
      InOrder(r.sent) && WaitsFollow(r.sent, r.waits, t) && r.sent[..|sent| + 1] == sent + [CtrlC]
  {
    var s := sent + [CtrlC];
    SendKeeps(sent, waits, t, CtrlC);
    if b.ctrlC == Done(false) {
      KillStageWellformed(b, s, waits, t);
      assert (s + [KillTree])[..|s|] == s;
    } else if b.ctrlC == Done(true) {
      WaitKeeps(s, waits, t, Half(t));
      var w := waits + [Wait(s, Half(t))];
      if WaitOutcome(b, s, Half(t)) == Done(false) {
        KillStageWellformed(b, s, w, t);
        assert (s + [KillTree])[..|s|] == s;
      }
    }
  }

  /**
    * The escalation never repeats a step and never goes back: the signals are
    * an ordered selection of close, Ctrl+C, kill, and each wait follows the
    * signal just sent with that signal's timeout.
    */
  lemma EscalationIsOrdered(b: Behaviour, t: int)
    ensures InOrder(Escalation(b, t).sent)
    ensures WaitsFollow(Escalation(b, t).sent, Escalation(b, t).waits, t)
  {
    if b.found && b.hasWindow.Done? {
      if !b.hasWindow.value {
        CtrlCStageWellformed(b, t, [], []);
      } else if b.closeWindow.Done? {
        var w := [Wait([CloseWindow], Half(t))];
        WaitKeeps([CloseWindow], [], t, Half(t));
        if WaitOutcome(b, [CloseWindow], Half(t)) == Done(false) {
          CtrlCStageWellformed(b, t, [CloseWindow], w);
        }
      }
    }
  }

  /** The result is false exactly when the kill did not end the process in time or an unexpected exception struck. */
  lemma ResultMeansGoneOrStopped(b: Behaviour, t: int)
    ensures var r := Escalation(b, t);
      r.terminated <==> !(r.ending == KillTimedOut || r.ending == Threw(OtherFailure))
    ensures var r := Escalation(b, t); r.ending == KillTimedOut ==> r.sent != [] && r.sent[|r.sent| - 1] == KillTree
  {
    if b.found && b.hasWindow.Done? {
      if b.hasWindow.value && b.closeWindow.Done? && WaitOutcome(b, [CloseWindow], Half(t)) == Done(false) {
        CtrlCEnding(b, t, [CloseWindow], [Wait([CloseWindow], Half(t))]);
      } else if !b.hasWindow.value {
        CtrlCEnding(b, t, [], []);
      }
    }
  }

  lemma CtrlCEnding(b: Behaviour, t: int, sent: seq<Signal>, waits: seq<Wait>)
    ensures var r := CtrlCStage(b, t, sent, waits);
      && (r.terminated <==> !(r.ending == KillTimedOut || r.ending == Threw(OtherFailure)))
      && (r.ending == KillTimedOut ==> r.sent != [] && r.sent[|r.sent| - 1] == KillTree)
      && r.ending != NotFound
  {
  }

  /** An id that resolves to no process counts as terminated, and nothing is sent or awaited. */
  lemma UnknownProcessIsTerminated(b: Behaviour, t: int)
    requires !b.found
    ensures Escalation(b, t) == Run(true, [], [], NotFound)
  {
  }

  /** An exit after the window is closed ends the escalation: no Ctrl+C and no kill. */
  lemma WindowCloseSuffices(b: Behaviour, t: int)
    requires b.found && b.hasWindow == Done(true) && b.closeWindow.Done?
    requires WaitOutcome(b, [CloseWindow], Half(t)) == Done(true)
    ensures Escalation(b, t) == Run(true, [CloseWindow], [Wait([CloseWindow], Half(t))], ExitSeen)
  {
  }

  /** Without a main window the escalation starts with Ctrl+C. */
  lemma NoWindowNoClose(b: Behaviour, t: int)
    requires b.found && b.hasWindow == Done(false)
    ensures CloseWindow !in Escalation(b, t).sent
    ensures Escalation(b, t).sent != [] ==> Escalation(b, t).sent[0] == CtrlC
  {
    EscalationIsOrdered(b, t);
    CtrlCStageWellformed(b, t, [], []);
    var r := Escalation(b, t);
    assert r.sent[..1] == [CtrlC];
    forall i | 0 <= i < |r.sent| ensures r.sent[i] != CloseWindow {
      if i > 0 {
        assert Rank(r.sent[0]) < Rank(r.sent[i]);
      }
    }
  }

  /** The Ctrl+C wait happens only when `SendCtrlC` reported delivery. */
  lemma CtrlCWaitNeedsDelivery(b: Behaviour, t: int)
    requires b.ctrlC != Done(true)
    ensures forall w :: w in Escalation(b, t).waits ==> w.after != [] && w.after[|w.after| - 1] != CtrlC
  {
    EscalationIsOrdered(b, t);
    if b.found && b.hasWindow.Done? {
      if !b.hasWindow.value {
        CtrlCNoWait(b, t, [], []);
      } else if b.closeWindow.Done? && WaitOutcome(b, [CloseWindow], Half(t)) == Done(false) {
        CtrlCNoWait(b, t, [CloseWindow], [Wait([CloseWindow], Half(t))]);
      }
    }
  }

  lemma CtrlCNoWait(b: Behaviour, t: int, sent: seq<Signal>, waits: seq<Wait>)
    requires b.ctrlC != Done(true)
    ensures var r := CtrlCStage(b, t, sent, waits);
      |r.waits| <= |waits| + 1
      && r.waits[..|waits|] == waits
      && (|r.waits| > |waits| ==> r.waits[|waits|] == Wait(sent + [CtrlC, KillTree], KillWaitMs))
  {
    if b.ctrlC == Done(false) {
      assert sent + [CtrlC] + [KillTree] == sent + [CtrlC, KillTree];
    }
  }

  /** An exit after a delivered Ctrl+C ends step 2 with success and without a kill, whatever came before. */
  lemma CtrlCSufficesWithoutKill(b: Behaviour, t: int, sent: seq<Signal>, waits: seq<Wait>)
    requires b.ctrlC == Done(true) && WaitOutcome(b, sent + [CtrlC], Half(t)) == Done(true)
    ensures CtrlCStage(b, t, sent, waits) ==
      Run(true, sent + [CtrlC], waits + [Wait(sent + [CtrlC], Half(t))], ExitSeen)
  {
  }

  /**
    * The two ways Ctrl+C ends the escalation: without a window, or after the
    * window was closed and the process outlived the first wait. Nothing is killed.
    */
  lemma CtrlCEndsEscalation(b: Behaviour, t: int)
    requires b.found && b.ctrlC == Done(true)
    ensures b.hasWindow == Done(false) && WaitOutcome(b, [CtrlC], Half(t)) == Done(true) ==>
      Escalation(b, t) == Run(true, [CtrlC], [Wait([CtrlC], Half(t))], ExitSeen)
    ensures (&& b.hasWindow == Done(true) && b.closeWindow.Done?
             && WaitOutcome(b, [CloseWindow], Half(t)) == Done(false)
             && WaitOutcome(b, [CloseWindow, CtrlC], Half(t)) == Done(true)) ==>
      Escalation(b, t) == Run(true, [CloseWindow, CtrlC],
        [Wait([CloseWindow], Half(t)), Wait([CloseWindow, CtrlC], Half(t))], ExitSeen)
  {
    if b.hasWindow == Done(false) && WaitOutcome(b, [CtrlC], Half(t)) == Done(true) {
      assert [] + [CtrlC] == [CtrlC];
      CtrlCSufficesWithoutKill(b, t, [], []);
    }
    if b.hasWindow == Done(true) && b.closeWindow.Done? && WaitOutcome(b, [CloseWindow], Half(t)) == Done(false)
      && WaitOutcome(b, [CloseWindow, CtrlC], Half(t)) == Done(true) {
      assert [CloseWindow] + [CtrlC] == [CloseWindow, CtrlC];
      CtrlCSufficesWithoutKill(b, t, [CloseWindow], [Wait([CloseWindow], Half(t))]);
    }
  }

  /** After the kill there is exactly one more wait, two seconds long, and its answer is the result. */
  lemma KillIsFinal(b: Behaviour, t: int, sent: seq<Signal>, waits: seq<Wait>)
    requires b.kill.Done?
    ensures var r := KillStage(b, sent, waits);
      && r.waits == waits + [Wait(sent + [KillTree], KillWaitMs)]
      && (WaitOutcome(b, sent + [KillTree], KillWaitMs).Done? ==>
            r.terminated == WaitOutcome(b, sent + [KillTree], KillWaitMs).value)
  {
  }

  /** An `InvalidOperationException` at the first step counts as success; any other exception as failure. */
  lemma FirstStepExceptions(b: Behaviour, t: int, f: Failure)
    requires b.found && b.hasWindow == Raised(f)
    ensures Escalation(b, t) == Run(f == InvalidOperation, [], [], Threw(f))
  {
  }

  lemma {:induction false} TotalWaitSnoc(waits: seq<Wait>, w: Wait)
    ensures TotalWait(waits + [w]) == TotalWait(waits) + w.timeoutMs
  {
    assert (waits + [w])[..|waits|] == waits;
  }

  lemma {:induction false} TotalWaitOfThree(a: Wait, c: Wait, d: Wait)
    ensures TotalWait([a, c, d]) == a.timeoutMs + c.timeoutMs + d.timeoutMs
  {
    assert [a, c, d] == [a, c] + [d] && [a, c] == [a] + [c] && [a] == [] + [a];
    TotalWaitSnoc([], a);
    TotalWaitSnoc([a], c);
    TotalWaitSnoc([a, c], d);
  }

  /**
    * With a non-negative graceful timeout, the waits add up to at most
    * 2 * (t / 2) + 2000 milliseconds: at most one wait per signal, at most one
    * of them after the kill.
    */
  lemma WaitIsBounded(b: Behaviour, t: int)
    requires t >= 0
    ensures TotalWait(Escalation(b, t).waits) <= 2 * Half(t) + KillWaitMs
  {
    var r := Escalation(b, t);
    EscalationIsOrdered(b, t);
    OrderedWaitsBounded(r, t);
  }

  lemma OrderedWaitsBounded(r: Run, t: int)
    requires t >= 0 && InOrder(r.sent) && WaitsFollow(r.sent, r.waits, t)
    ensures TotalWait(r.waits) <= 2 * Half(t) + KillWaitMs
  {
    WaitsAtMostThree(r, t);
    ShortWaitsBounded(r.waits, Half(t));
  }

  /** At most three waits, all but a final kill wait lasting `h`: together at most `2 * h + 2000`. */
  lemma ShortWaitsBounded(ws: seq<Wait>, h: int)
    requires h >= 0 && |ws| <= 3
    requires forall k :: 0 <= k < |ws| ==> ws[k].timeoutMs == h || ws[k].timeoutMs == KillWaitMs
    requires forall k :: 0 <= k < |ws| - 1 ==> ws[k].timeoutMs == h
    requires |ws| == 3 ==> ws[2].timeoutMs == KillWaitMs
    ensures TotalWait(ws) <= 2 * h + KillWaitMs
  {
    if |ws| == 3 {
      assert ws == [ws[0], ws[1], ws[2]];
      TotalWaitOfThree(ws[0], ws[1], ws[2]);
    } else if |ws| == 2 {
      assert ws == [ws[0]] + [ws[1]];
      assert [ws[0]] == [] + [ws[0]];
      TotalWaitSnoc([], ws[0]);
      TotalWaitSnoc([ws[0]], ws[1]);
    } else if |ws| == 1 {
      assert ws == [] + [ws[0]];
      TotalWaitSnoc([], ws[0]);
    }
  }


  /**
    * Ordered signals allow three waits at most; each lasts half the graceful
    * timeout or two seconds, and with three waits the last one follows the kill.
    */
  lemma WaitsAtMostThree(r: Run, t: int)
    requires InOrder(r.sent) && WaitsFollow(r.sent, r.waits, t)
    ensures |r.waits| <= 3
    ensures forall k :: 0 <= k < |r.waits| ==> r.waits[k].timeoutMs == Half(t) || r.waits[k].timeoutMs == KillWaitMs
    ensures forall k :: 0 <= k < |r.waits| - 1 ==> r.waits[k].timeoutMs == Half(t)
    ensures |r.waits| == 3 ==> r.waits[2].timeoutMs == KillWaitMs
  {
    var ws := r.waits;
    if r.sent != [] {
      RankAtLeastIndex(r.sent, |r.sent| - 1);
    }
    forall k | 0 <= k < |ws| ensures k + 1 <= |ws[k].after| <= |r.sent| {
      LengthsGrow(ws, k);
      assert ws[k].after <= r.sent;
    }
    if ws != [] {
      assert |ws| <= |ws[|ws| - 1].after|;
    }
    forall k | 0 <= k < |ws| - 1
      ensures ws[k].timeoutMs == Half(t)
    {
      assert WaitFits(ws[k], r.sent, t);
      var a := ws[k].after;
      var c := ws[k + 1].after;
      assert a <= r.sent && c <= r.sent && |a| < |c|;
      assert a[|a| - 1] == r.sent[|a| - 1];
      assert c[|c| - 1] == r.sent[|c| - 1];
      assert Rank(r.sent[|a| - 1]) < Rank(r.sent[|c| - 1]);
    }
    if |ws| == 3 {
      var a := ws[2].after;
      assert |a| == 3 == |r.sent|;
      assert a == r.sent;
      assert Rank(r.sent[0]) < Rank(r.sent[1]) < Rank(r.sent[2]);
    }
  }

  lemma {:induction false} RankAtLeastIndex(sent: seq<Signal>, i: int)
    requires InOrder(sent) && 0 <= i < |sent|
    ensures i <= Rank(sent[i])
  {
    if i > 0 {
      RankAtLeastIndex(sent, i - 1);
    }
  }

  lemma {:induction false} LengthsGrow(ws: seq<Wait>, k: int)
    requires 0 <= k < |ws|
    requires forall j :: 0 <= j < |ws| ==> ws[j].after != []
    requires forall j :: 0 < j < |ws| ==> |ws[j - 1].after| < |ws[j].after|
    ensures |ws[k].after| >= k + 1
  {
    if k > 0 {
      LengthsGrow(ws, k - 1);
    }
  }

  /** The doc comment of the interface calls an already gone process a failure; the code reports it as terminated. */
  lemma GoneProcessCountsAsTerminated(b: Behaviour, t: int)
    requires !b.found || b.hasWindow == Raised(InvalidOperation)
    ensures Escalation(b, t).terminated
  {
  }

  // ---------------------------------------------------------------------------
  // The process handle and the escalator

  /**
    * The `Process` object returned by `GetProcessById`, with `Kernel32.SendCtrlC`
    * aimed at the same process. It answers as `behaviour` says and records the
    * signals sent, the waits made and whether it was disposed.
    */
  class ProcessHandle {
    const behaviour: Behaviour
    var sent: seq<Signal>
    var waits: seq<Wait>
    var disposed: bool

    constructor (behaviour: Behaviour)
      ensures this.behaviour == behaviour && sent == [] && waits == [] && !disposed
    {
      this.behaviour := behaviour;
      sent := [];
      waits := [];
      disposed := false;
    }

    /** `process.MainWindowHandle != IntPtr.Zero`. */
    method HasMainWindow() returns (r: Step<bool>)
      ensures r == behaviour.hasWindow
    {
      r := behaviour.hasWindow;
    }

    method CloseMainWindow() returns (r: Step<bool>)
      modifies this`sent
      ensures r == behaviour.closeWindow && sent == old(sent) + [CloseWindow]
    {
      sent := sent + [CloseWindow];
      r := behaviour.closeWindow;
    }

    /** `Kernel32.SendCtrlC(processId)`: whether the console accepted the event. */
    method SendCtrlC() returns (r: Step<bool>)
      modifies this`sent
      ensures r == behaviour.ctrlC && sent == old(sent) + [CtrlC]
    {
      sent := sent + [CtrlC];
      r := behaviour.ctrlC;
    }

    /** `process.Kill(entireProcessTree: true)`. */
    method Kill() returns (r: Step<()>)
      modifies this`sent
      ensures r == behaviour.kill && sent == old(sent) + [KillTree]
    {
      sent := sent + [KillTree];
      r := behaviour.kill;
    }

    method WaitForExit(timeoutMs: int) returns (r: WaitAnswer)
      modifies this`waits
      ensures r == behaviour.waitForExit(sent, timeoutMs) && waits == old(waits) + [Wait(sent, timeoutMs)]
    {
      waits := waits + [Wait(sent, timeoutMs)];
      r := behaviour.waitForExit(sent, timeoutMs);
    }

    method HasExited() returns (r: Step<bool>)
      ensures r == behaviour.hasExited(sent)
    {
      r := behaviour.hasExited(sent);
    }

    method Dispose()
      modifies this`disposed
      ensures disposed
    {
      disposed := true;
    }
  }

  /** `Process.GetProcessById`: a fresh handle, or none when no process has the id. */
  method GetProcessById(b: Behaviour) returns (p: ProcessHandle?)
    ensures b.found <==> p != null
    ensures p != null ==> fresh(p) && p.behaviour == b && p.sent == [] && p.waits == [] && !p.disposed
  {
    if b.found {
      p := new ProcessHandle(b);
    } else {
      p := null;
    }
  }

  /** `WaitForExitAsync`: wait, and read `HasExited` if the wait throws. */
  method WaitForExitAsync(p: ProcessHandle, timeoutMs: int) returns (r: Step<bool>)
    modifies p`waits
    ensures r == WaitOutcome(p.behaviour, p.sent, timeoutMs)
    ensures p.waits == old(p.waits) + [Wait(p.sent, timeoutMs)]
  {
    var answer := p.WaitForExit(timeoutMs);
    match answer {
      case Exited(e) => r := Done(e);
      case WaitThrew => r := p.HasExited();
    }
  }

  /**
    * `TerminateProcessAsync(processId, gracefulTimeoutMs)`, for the process the
    * id resolves to. Also returns the handle so that what was sent to it can be
    * observed; it is disposed whenever it was obtained.
    */
  method TerminateProcess(b: Behaviour, gracefulTimeoutMs: int) returns (terminated: bool, p: ProcessHandle?)
    ensures terminated == Escalation(b, gracefulTimeoutMs).terminated
    ensures b.found <==> p != null
    ensures p != null ==>
      && fresh(p) && p.disposed
      && p.sent == Escalation(b, gracefulTimeoutMs).sent
      && p.waits == Escalation(b, gracefulTimeoutMs).waits
  {
    p := GetProcessById(b);
    if p == null {
      return true, null;
    }
    terminated := Escalate(p, gracefulTimeoutMs);
    p.Dispose();
  }

  /** The `try` block of `TerminateProcessAsync` with its two `catch` clauses. */
  method Escalate(p: ProcessHandle, t: int) returns (terminated: bool)
    requires p.behaviour.found && p.sent == [] && p.waits == []
    modifies p`sent, p`waits
    ensures terminated == WindowStage(p.behaviour, t).terminated
    ensures p.sent == WindowStage(p.behaviour, t).sent && p.waits == WindowStage(p.behaviour, t).waits
  {
    var hasWindow := p.HasMainWindow();
    if hasWindow.Raised? {
      return Caught(hasWindow.failure);
    }
    if hasWindow.value {
      var closed := p.CloseMainWindow();
      if closed.Raised? {
        return Caught(closed.failure);
      }
      assert p.sent == [CloseWindow];
      var exited := WaitForExitAsync(p, Half(t));
      assert p.waits == [Wait([CloseWindow], Half(t))];
      assert exited == WaitOutcome(p.behaviour, [CloseWindow], Half(t));
      if exited.Raised? {
        return Caught(exited.failure);
      }
      if exited.value {
        return true;
      }
    }
    terminated := TryCtrlC(p, t);
  }

  /** Step 2 and, if it does not end the process, step 3. */
  method TryCtrlC(p: ProcessHandle, t: int) returns (terminated: bool)
    modifies p`sent, p`waits
    ensures var r := CtrlCStage(p.behaviour, t, old(p.sent), old(p.waits));
      terminated == r.terminated && p.sent == r.sent && p.waits == r.waits
  {
    var delivered := p.SendCtrlC();
    if delivered.Raised? {
      return Caught(delivered.failure);
    }
    if delivered.value {
      var exited := WaitForExitAsync(p, Half(t));
      if exited.Raised? {
        return Caught(exited.failure);
      }
      if exited.value {
        return true;
      }
    }
    terminated := ForceKill(p);
  }

  /** Step 3: kill the tree and wait two seconds for the exit. */
  method ForceKill(p: ProcessHandle) returns (terminated: bool)
    modifies p`sent, p`waits
    ensures var r := KillStage(p.behaviour, old(p.sent), old(p.waits));
      terminated == r.terminated && p.sent == r.sent && p.waits == r.waits
  {
    var killed := p.Kill();
    if killed.Raised? {
      return Caught(killed.failure);
    }
    var exited := WaitForExitAsync(p, KillWaitMs);
    if exited.Raised? {
      return Caught(exited.failure);
    }
    terminated := exited.value;
  }
}
