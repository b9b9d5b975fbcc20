/** The per-tick squelch and signal-meter task of the RT-890 receive path.

    Once per scheduler tick, when the task is due and the radio is neither
    transmitting nor quiet nor in power save, the task classifies the tone
    status, keeps two hysteresis counters while searching, refreshes the
    signal meter, and chooses one call into the radio chain (EndRX,
    EndAudio, StartAudio, StartRX) or, in a NOAA build, starts reception of
    the weather channel itself.

    `State` and `Step` describe one tick on values; the class `RssiTask`
    holds the same globals as fields and its methods are proved against
    them.
 */
module RssiTask {
  import opened ToneDetect
  import opened SignalMeter

  /** Build-time options of the firmware. */
  datatype Config = Config(enableNoaa: bool, slowerRssiTimer: bool)

  /** Ticks until the signal meter may run again after it has run. */
  function RssiTimerReload(cfg: Config): (t: uint16)
    ensures t == 100 || t == 500
  {
    if cfg.slowerRssiTimer then 500 else 100
  }

  type Vfo = x: int | 0 <= x < 2

  /** Last meter reading of each of the two VFOs. */
  type RssiSlots = s: seq<nat> | |s| == 2 witness [0, 0]

  datatype ScreenMode = MainScreen | OtherScreen

  /** Firmware state this task reads but never writes. */
  datatype Env = Env(
    radioMode: RadioMode,
    saveMode: bool,
    monitorMode: bool,
    codeType: CodeType,        // of the current VFO
    muteEnabled: bool,         // of the main VFO
    modulationType: nat,       // of the main VFO
    currentVfo: Vfo,
    dataDisplay: bool,
    dtmfInputMode: bool,
    frequencyDetectMode: bool,
    fskDataReceived: bool,
    screenMode: ScreenMode)

  /** What the chip returns during one tick: the status register, the
      status register read again after a receiver check, and the RSSI. */
  datatype Readings = Readings(status: Word, statusAfterCheck: Word, rssi: uint16)

  /** The globals this task writes. */
  datatype State = State(
    taskDue: bool,
    tailToneCounter: uint16,
    noToneCounter: uint16,
    voxRssiUpdateTimer: uint16,
    currentRssi: RssiSlots,
    receptionMode: bool,
    noaaMode: bool,
    noaaChannelNow: nat,
    noaaChannelNext: nat,
    receivingAudio: bool)

  /** Which radio-chain routine the tick called, if any. `StartNoaaAudio`
      is the NOAA branch that switches channel and starts audio itself. */
  datatype Action = NoAction | EndRx | EndAudio | StartAudio | StartRx | StartNoaaAudio

  datatype Outcome = Outcome(next: State, action: Action, receiverChecked: bool)

  /** Increment of a 16-bit unsigned counter. */
  function Inc16(c: uint16): (r: uint16)
    ensures c < 0xFFFF ==> r == c + 1
    ensures c == 0xFFFF ==> r == 0
  {
    (c + 1) % 0x1_0000
  }

  predicate NoaaActive(cfg: Config, s: State) {
    cfg.enableNoaa && s.noaaMode
  }

  function ToneContextOf(cfg: Config, s: State, env: Env): (ctx: ToneContext) {
    ToneContext(NoaaActive(cfg, s), env.radioMode, env.monitorMode, env.codeType, env.muteEnabled)
  }

  function TickTone(cfg: Config, s: State, env: Env, hw: Readings): (status: ToneStatus) {
    GetToneStatus(ToneContextOf(cfg, s, env), StatusReads(hw.status, hw.statusAfterCheck))
  }

  /** The entry gate of the task. */
  predicate TaskRuns(s: State, env: Env) {
    env.radioMode != Tx && env.radioMode != Quiet && !env.saveMode && s.taskDue
  }

  /** The gate of the signal meter. */
  predicate MeterRuns(s: State, env: Env) {
    s.voxRssiUpdateTimer == 0 && !env.dataDisplay && !env.dtmfInputMode && !env.frequencyDetectMode
    && !s.receptionMode && !env.fskDataReceived && env.screenMode == MainScreen
  }

  /** The signal meter: when its gate is open, restart its timer and cache
      the power of the RSSI for the current VFO. */
  function MeterUpdate(cfg: Config, s: State, env: Env, raw: uint16): (r: State)
    ensures r.currentRssi[1 - env.currentVfo] == s.currentRssi[1 - env.currentVfo]
    ensures r.currentRssi[env.currentVfo] <= 100 || r.currentRssi == s.currentRssi
    ensures r.(voxRssiUpdateTimer := s.voxRssiUpdateTimer, currentRssi := s.currentRssi) == s
  {
    if MeterRuns(s, env) then
      s.(voxRssiUpdateTimer := RssiTimerReload(cfg),
         currentRssi := s.currentRssi[env.currentVfo := RssiToPower(raw)])
    else s
  }

  /** The searching half of a running tick (the radio is not in the
      Incoming state): hysteresis, then the meter or a teardown. */
  function SearchStep(cfg: Config, s: State, env: Env, status: ToneStatus, raw: uint16): (r: (State, Action))
    ensures r.1 in {NoAction, EndRx, EndAudio}
    ensures r.0.taskDue == s.taskDue && r.0.receptionMode == s.receptionMode && r.0.noaaMode == s.noaaMode
  {
    var tail := if status == TailTone then Inc16(s.tailToneCounter) else 0;
    var noTone := if status == NoTone then Inc16(s.noToneCounter) else s.noToneCounter;
    if tail <= 10 && noTone <= 1000 then
      (MeterUpdate(cfg, s.(tailToneCounter := tail, noToneCounter := 0), env, raw), NoAction)
    else
      (s.(tailToneCounter := tail, noToneCounter := noTone), if !s.receptionMode then EndRx else EndAudio)
  }

  /** The Incoming half of a running tick. */
  function IncomingStep(cfg: Config, s: State, env: Env, status: ToneStatus): (r: (State, Action))
    ensures r.1 in {NoAction, StartAudio, StartRx, StartNoaaAudio}
    ensures r.0.(receptionMode := s.receptionMode, noaaMode := s.noaaMode,
                 noaaChannelNow := s.noaaChannelNow, receivingAudio := s.receivingAudio) == s
  {
    if !NoaaActive(cfg, s) then
      var action :=
        if s.receptionMode then StartAudio
        else if (env.codeType == Off && !env.muteEnabled) || env.modulationType > 0 || status == GotTone then StartRx
        else NoAction;
      (s, action)
    else if status == GotTone then
      (s.(receptionMode := true, noaaMode := false, noaaChannelNow := s.noaaChannelNext, receivingAudio := true),
       StartNoaaAudio)
    else
      (s, NoAction)
  }

  /** One tick of the task. */
  function Step(cfg: Config, s: State, env: Env, hw: Readings): (o: Outcome)
    ensures o.next.noaaChannelNext == s.noaaChannelNext
    ensures env.radioMode != Incoming ==> o.action in {NoAction, EndRx, EndAudio}
    ensures env.radioMode == Incoming ==> o.action in {NoAction, StartAudio, StartRx, StartNoaaAudio}
    ensures o.receiverChecked <==>
      TaskRuns(s, env) && env.radioMode == Rx && !NoaaActive(cfg, s) && Has(hw.status, IRQ_PENDING)
  {
    if !TaskRuns(s, env) then Outcome(s, NoAction, false)
    else
      var s1 := s.(taskDue := false);
      var status := TickTone(cfg, s, env, hw);
      var checked := ReceiverCheckCalled(ToneContextOf(cfg, s, env), hw.status);
      var r := if env.radioMode != Incoming then SearchStep(cfg, s1, env, status, hw.rssi)
               else IncomingStep(cfg, s1, env, status);
      Outcome(r.0, r.1, checked)
  }

  /** The globals at power-on (C zero-initialisation). */
  const PowerOn := State(false, 0, 0, 0, [0, 0], false, false, 0, 0, false)

  class RssiTask {
    const config: Config
    const currentRssi: array<nat>
    var taskDue: bool
    var tailToneCounter: uint16
    var noToneCounter: uint16
    var voxRssiUpdateTimer: uint16
    var receptionMode: bool
    var noaaMode: bool
    var noaaChannelNow: nat
    var noaaChannelNext: nat
    var receivingAudio: bool

    ghost predicate Valid()
      reads this
    {
      currentRssi.Length == 2
    }

    /** The fields as a `State` value. */
    ghost function Globals(): State
      reads this, currentRssi
      requires Valid()
    {
      State(taskDue, tailToneCounter, noToneCounter, voxRssiUpdateTimer, currentRssi[..],
            receptionMode, noaaMode, noaaChannelNow, noaaChannelNext, receivingAudio)
    }

    constructor (cfg: Config)
      ensures Valid() && fresh(currentRssi)
      ensures config == cfg && Globals() == PowerOn
    {
      config := cfg;
      currentRssi := new nat[2](_ => 0);
      taskDue, tailToneCounter, noToneCounter, voxRssiUpdateTimer := false, 0, 0, 0;
      receptionMode, noaaMode, noaaChannelNow, noaaChannelNext, receivingAudio := false, false, 0, 0, false;
      new;
      assert currentRssi[..] == [0, 0];
    }

    /** The signal meter, given the RSSI the chip reports. */
    method CheckRssi(env: Env, raw: uint16)
      requires Valid()
      modifies this, currentRssi
      ensures Valid()
      ensures Globals() == MeterUpdate(config, old(Globals()), env, raw)
    {
      if voxRssiUpdateTimer == 0 && !env.dataDisplay && !env.dtmfInputMode && !env.frequencyDetectMode
         && !receptionMode && !env.fskDataReceived && env.screenMode == MainScreen
      {
        voxRssiUpdateTimer := if config.slowerRssiTimer then 500 else 100;
        var power := if raw < 72 then 0 else if raw > 330 then 100 else (raw - 72) * 100 / 258;
        assert power == RssiToPower(raw);
        currentRssi[env.currentVfo] := power;
      }
    }

    /** One scheduler tick, given what the chip returns; reports the
        radio-chain call made and whether a receiver check was made. */
    method Tick(env: Env, hw: Readings) returns (action: Action, receiverChecked: bool)
      requires Valid()
      modifies this, currentRssi
      ensures Valid()
      ensures var o := Step(config, old(Globals()), env, hw);
        Globals() == o.next && action == o.action && receiverChecked == o.receiverChecked
    {
      action, receiverChecked := NoAction, false;
      if env.radioMode != Tx && env.radioMode != Quiet && !env.saveMode && taskDue {
        taskDue := false;
        var ctx := ToneContext(config.enableNoaa && noaaMode, env.radioMode, env.monitorMode, env.codeType, env.muteEnabled);
        var status := GetToneStatus(ctx, StatusReads(hw.status, hw.statusAfterCheck));
        receiverChecked := ReceiverCheckCalled(ctx, hw.status);
        if env.radioMode != Incoming {
          action := Search(env, status, hw.rssi);
        } else {
          action := HandleIncoming(env, status);
        }
      }
    }

    /** The searching half of a running tick. */
    method Search(env: Env, status: ToneStatus, raw: uint16) returns (action: Action)
      requires Valid()
      modifies this, currentRssi
      ensures Valid()
      ensures var r := SearchStep(config, old(Globals()), env, status, raw);
        Globals() == r.0 && action == r.1
    {
      action := NoAction;
      if status == TailTone {
        tailToneCounter := Inc16(tailToneCounter);
      } else {
        tailToneCounter := 0;
      }
      if status == NoTone {
        noToneCounter := Inc16(noToneCounter);
      }
      if tailToneCounter <= 10 && noToneCounter <= 1000 {
        noToneCounter := 0;
        CheckRssi(env, raw);
      } else if !receptionMode {
        action := EndRx;
      } else {
        action := EndAudio;
      }
    }

    /** The Incoming half of a running tick. */
    method HandleIncoming(env: Env, status: ToneStatus) returns (action: Action)
      requires Valid()
      modifies this
      ensures Valid()
      ensures var r := IncomingStep(config, old(Globals()), env, status);
        Globals() == r.0 && action == r.1
    {
      action := NoAction;
      if !(config.enableNoaa && noaaMode) {
        if receptionMode {
          action := StartAudio;
        } else if (env.codeType == Off && !env.muteEnabled) || env.modulationType > 0 || status == GotTone {
          action := StartRx;
        }
      } else if status == GotTone {
        receptionMode := true;
        noaaMode := false;
        noaaChannelNow := noaaChannelNext;
        receivingAudio := true;
        action := StartNoaaAudio;
      }
    }
  }

  // ---------------------------------------------------------------------
  // Properties of one tick

  /** A tick that is not due, or in TX, QUIET or power save, does nothing. */
  lemma GateClosedIsNoOp(cfg: Config, s: State, env: Env, hw: Readings)
    requires !TaskRuns(s, env)
    ensures Step(cfg, s, env, hw) == Outcome(s, NoAction, false)
  {
  }

  /** A tick that runs always acknowledges the scheduler. */
  lemma RunningTickClearsDueFlag(cfg: Config, s: State, env: Env, hw: Readings)
    requires TaskRuns(s, env)
    ensures !Step(cfg, s, env, hw).next.taskDue
  {
  }

  /** While searching: the tail counter counts consecutive tail tones, the
      no-tone counter counts no-tone ticks and is cleared by every tick
      that keeps reception going, and the tick tears down exactly when a
      counter passes its threshold. */
  lemma SearchHysteresis(cfg: Config, s: State, env: Env, hw: Readings)
    requires TaskRuns(s, env) && env.radioMode != Incoming
    ensures var o := Step(cfg, s, env, hw);
      var status := TickTone(cfg, s, env, hw);
      var tail := if status == TailTone then Inc16(s.tailToneCounter) else 0;
      var noTone := if status == NoTone then Inc16(s.noToneCounter) else s.noToneCounter;
      var healthy := tail <= 10 && noTone <= 1000;
      && o.next.tailToneCounter == tail
      && o.next.noToneCounter == (if healthy then 0 else noTone)
      && (o.action == NoAction <==> healthy)
      && (!healthy ==> o.action == (if s.receptionMode then EndAudio else EndRx))
      && (!healthy ==> o.next == s.(taskDue := false, tailToneCounter := tail, noToneCounter := noTone))
  {
  }

  /** A searching tick that keeps reception going runs the signal meter and
      changes nothing else but the counters and the due flag. */
  lemma HealthyTickRunsMeter(cfg: Config, s: State, env: Env, hw: Readings)
    requires TaskRuns(s, env) && env.radioMode != Incoming
    requires Step(cfg, s, env, hw).action == NoAction
    ensures var n := Step(cfg, s, env, hw).next;
      n == MeterUpdate(cfg, s.(taskDue := false, tailToneCounter := n.tailToneCounter, noToneCounter := 0), env, hw.rssi)
  {
  }

  /** Incoming, outside NOAA: StartAudio if reception is on, else StartRX
      when squelch is open, modulation is not the default or the tone is
      there; counters and all other globals except the due flag stay. */
  lemma IncomingChoosesStart(cfg: Config, s: State, env: Env, hw: Readings)
    requires TaskRuns(s, env) && env.radioMode == Incoming && !NoaaActive(cfg, s)
    ensures var o := Step(cfg, s, env, hw);
      && o.next == s.(taskDue := false)
      && (s.receptionMode ==> o.action == StartAudio)
      && (!s.receptionMode ==>
            (o.action == StartRx <==>
              (env.codeType == Off && !env.muteEnabled) || env.modulationType > 0 || TickTone(cfg, s, env, hw) == GotTone))
      && (!s.receptionMode && o.action != StartRx ==> o.action == NoAction)
  {
  }

  /** Incoming in NOAA mode: the CTC1 bit alone decides; with it the task
      enters reception on the next weather channel and starts audio. */
  lemma NoaaIncomingStart(cfg: Config, s: State, env: Env, hw: Readings)
    requires TaskRuns(s, env) && env.radioMode == Incoming && NoaaActive(cfg, s)
    ensures var o := Step(cfg, s, env, hw);
      && !o.receiverChecked
      && (Has(hw.status, CTC1_FOUND) ==>
            o.action == StartNoaaAudio &&
            o.next == s.(taskDue := false, receptionMode := true, noaaMode := false,
                         noaaChannelNow := s.noaaChannelNext, receivingAudio := true))
      && (!Has(hw.status, CTC1_FOUND) ==> o.action == NoAction && o.next == s.(taskDue := false))
  {
    NoaaUsesCtc1Only(ToneContextOf(cfg, s, env), StatusReads(hw.status, hw.statusAfterCheck));
  }

  /** The meter changes nothing unless its gate is open; when it runs it
      restarts the timer and writes only the current VFO's slot, with a
      value in 0..100. */
  lemma MeterUpdateEffect(cfg: Config, s: State, env: Env, raw: uint16)
    ensures var r := MeterUpdate(cfg, s, env, raw);
      && (!MeterRuns(s, env) ==> r == s)
      && (MeterRuns(s, env) ==>
            r.voxRssiUpdateTimer == RssiTimerReload(cfg) &&
            r.currentRssi[env.currentVfo] == RssiToPower(raw) &&
            r.currentRssi[env.currentVfo] <= 100 &&
            r.currentRssi[1 - env.currentVfo] == s.currentRssi[1 - env.currentVfo] &&
            r.(voxRssiUpdateTimer := s.voxRssiUpdateTimer, currentRssi := s.currentRssi) == s)
  {
  }

  /** From a no-tone counter of at most 1, no tick takes it above 1. */
  lemma NoToneCounterStaysSmall(cfg: Config, s: State, env: Env, hw: Readings)
    requires s.noToneCounter <= 1
    ensures Step(cfg, s, env, hw).next.noToneCounter <= 1
  {
  }

  // ---------------------------------------------------------------------
  // Runs of ticks

  /** Ticks in sequence, one per reading, with the scheduler marking the
      task due before each; returns the final globals and the actions. */
  function ScheduledRun(cfg: Config, s: State, env: Env, hws: seq<Readings>): (r: (State, seq<Action>))
    ensures |r.1| == |hws|
    decreases |hws|
  {
    if hws == [] then (s, [])
    else
      var o := Step(cfg, s.(taskDue := true), env, hws[0]);
      var rest := ScheduledRun(cfg, o.next, env, hws[1..]);
      (rest.0, [o.action] + rest.1)
  }

  lemma {:induction false} ScheduledRunAppend(cfg: Config, s: State, env: Env, a: seq<Readings>, b: seq<Readings>)
    ensures var ra := ScheduledRun(cfg, s, env, a);
      var rb := ScheduledRun(cfg, ra.0, env, b);
      ScheduledRun(cfg, s, env, a + b) == (rb.0, ra.1 + rb.1)
    decreases |a|
  {
    if a == [] {
      assert a + b == b;
      assert [] + ScheduledRun(cfg, s, env, b).1 == ScheduledRun(cfg, s, env, b).1;
    } else {
      var o := Step(cfg, s.(taskDue := true), env, a[0]);
      assert (a + b)[0] == a[0];
      assert (a + b)[1..] == a[1..] + b;
      ScheduledRunAppend(cfg, o.next, env, a[1..], b);
      var ra' := ScheduledRun(cfg, o.next, env, a[1..]);
      var rb := ScheduledRun(cfg, ra'.0, env, b);
      assert ScheduledRun(cfg, s, env, a).1 == [o.action] + ra'.1;
      assert [o.action] + (ra'.1 + rb.1) == ([o.action] + ra'.1) + rb.1;
    }
  }

  /** Tail-tone ticks while searching and reception stays healthy: each
      adds one to the tail counter and calls nothing. */
  lemma {:induction false} TailTonesAccumulate(cfg: Config, s: State, env: Env, hws: seq<Readings>)
    requires env.radioMode == Rx && !env.saveMode
    requires s.tailToneCounter + |hws| <= 10 && s.noToneCounter <= 1000
    requires forall i :: 0 <= i < |hws| ==> TickTone(cfg, s, env, hws[i]) == TailTone
    ensures var r := ScheduledRun(cfg, s, env, hws);
      && r.0.tailToneCounter == s.tailToneCounter + |hws|
      && r.0.noToneCounter <= 1000
      && r.0.receptionMode == s.receptionMode
      && r.0.noaaMode == s.noaaMode
      && forall i :: 0 <= i < |hws| ==> r.1[i] == NoAction
    decreases |hws|
  {
    if hws != [] {
      var o := Step(cfg, s.(taskDue := true), env, hws[0]);
      assert TickTone(cfg, s.(taskDue := true), env, hws[0]) == TailTone;
      assert o.next.noaaMode == s.noaaMode && o.next.receptionMode == s.receptionMode;
      assert o.next.tailToneCounter == s.tailToneCounter + 1;
      forall i | 0 <= i < |hws[1..]|
        ensures TickTone(cfg, o.next, env, hws[1..][i]) == TailTone
      {
        assert ToneContextOf(cfg, o.next, env) == ToneContextOf(cfg, s, env);
        assert hws[1..][i] == hws[i + 1];
      }
      TailTonesAccumulate(cfg, o.next, env, hws[1..]);
    }
  }

  /** Starting from a clear tail counter, eleven tail-tone ticks in a row
      call nothing on ticks 1 to 10 and tear down on tick 11: EndRX when
      reception mode is off, EndAudio when it is on. */
  lemma {:induction false} TailToneTeardownOnEleventh(cfg: Config, s: State, env: Env, hws: seq<Readings>)
    requires env.radioMode == Rx && !env.saveMode
    requires s.tailToneCounter == 0 && s.noToneCounter <= 1000
    requires |hws| == 11
    requires forall i :: 0 <= i < |hws| ==> TickTone(cfg, s, env, hws[i]) == TailTone
    ensures ScheduledRun(cfg, s, env, hws).1 ==
      seq(10, _ => NoAction) + [if s.receptionMode then EndAudio else EndRx]
  {
    var first, last := hws[..10], hws[10..];
    assert hws == first + last;
    TailTonesAccumulate(cfg, s, env, first);
    var r := ScheduledRun(cfg, s, env, first);
    ScheduledRunAppend(cfg, s, env, first, last);
    assert ToneContextOf(cfg, r.0, env) == ToneContextOf(cfg, s, env);
    assert TickTone(cfg, r.0.(taskDue := true), env, last[0]) == TailTone;
    assert r.1 == seq(10, _ => NoAction);
  }

  /** No run without tail tones tears reception down: the no-tone counter
      is cleared on every such tick before it can reach its threshold. */
  lemma {:induction false} NoToneNeverTearsDown(cfg: Config, s: State, env: Env, hws: seq<Readings>)
    requires env.radioMode != Incoming
    requires s.noToneCounter <= 1
    requires forall i :: 0 <= i < |hws| ==> TickTone(cfg, s, env, hws[i]) != TailTone
    ensures var r := ScheduledRun(cfg, s, env, hws);
      forall i :: 0 <= i < |hws| ==> r.1[i] == NoAction
    decreases |hws|
  {
    if hws != [] {
      var o := Step(cfg, s.(taskDue := true), env, hws[0]);
      assert TickTone(cfg, s.(taskDue := true), env, hws[0]) != TailTone;
      NoToneCounterStaysSmall(cfg, s.(taskDue := true), env, hws[0]);
      forall i | 0 <= i < |hws[1..]|
        ensures TickTone(cfg, o.next, env, hws[1..][i]) != TailTone
      {
        assert ToneContextOf(cfg, o.next, env) == ToneContextOf(cfg, s, env);
        assert hws[1..][i] == hws[i + 1];
      }
      NoToneNeverTearsDown(cfg, o.next, env, hws[1..]);
      assert forall k :: 0 <= k < |hws[1..]| ==> ScheduledRun(cfg, o.next, env, hws[1..]).1[k] == NoAction;
      assert o.action == NoAction;
      assert ScheduledRun(cfg, s, env, hws).1 == [o.action] + ScheduledRun(cfg, o.next, env, hws[1..]).1;
    }
  }
}
