/**
 * The sketch's global state and the steps that change it: the schedule in
 * RAM, the button level, the flash file, the stepper motor and the trace of
 * commands sent to the motor driver and the remote log.
 */
module Sketch {
  import opened Wrappers
  import opened ConfigStore
  import opened ConfigSync
  import opened FeedController

  /**
   * The clock readings the schedule test takes: the time is read afresh for
   * each of the three comparisons, so the readings can differ when the
   * second changes between them.
   */
  datatype ClockReads = ClockReads(first: string, second: string, third: string)

  /** The schedule test of one tick, compared slot by slot. */
  function ScheduleHit(clock: ClockReads, c: Config): bool {
    clock.first == c.hrPorc1 || clock.second == c.hrPorc2 || clock.third == c.hrPorc3
  }

  /** How many feedings one tick starts: one for a schedule hit and one more for a pressed button. */
  function FeedCalls(hit: bool, pressed: bool): (k: nat)
    ensures k <= 2
    ensures k == 2 <==> hit && pressed
    ensures k == 0 <==> !hit && !pressed
  {
    (if hit then 1 else 0) + (if pressed then 1 else 0)
  }

  /** When the three readings agree, the tick hits exactly when the time is one of the three slots. */
  lemma ScheduleHitSameTime(now: string, c: Config)
    ensures ScheduleHit(ClockReads(now, now, now), c) <==> now in {c.hrPorc1, c.hrPorc2, c.hrPorc3}
  {
  }

  /** The stepper: where it is and where it was last told to go. */
  class Stepper {
    var position: int
    var target: int

    constructor ()
      ensures position == 0 && target == 0
    {
      position, target := 0, 0;
    }

    function DistanceToGo(): int
      reads this
    {
      target - position
    }

    /** Sets the target relative to the current position. */
    method Move(relative: int)
      modifies this
      ensures position == old(position) && target == old(position) + relative
    {
      target := position + relative;
    }

    /** One step toward the target, if it is not reached yet. */
    method Run()
      modifies this
      ensures target == old(target)
      ensures old(position) < target ==> position == old(position) + 1
      ensures old(position) > target ==> position == old(position) - 1
      ensures old(position) == target ==> position == old(position)
    {
      if position < target {
        position := position + 1;
      } else if position > target {
        position := position - 1;
      }
    }
  }

  class Feeder {
    var config: Config
    var pressed: bool
    var flash: Option<Record>
    var trace: seq<Event>
    const stepper: Stepper

    /** The state at power-on: a zeroed schedule, the button low, the motor at 0, nothing issued. */
    constructor (file: Option<Record>)
      ensures config == Config(0, "", "", "") && !pressed && flash == file && trace == []
      ensures fresh(stepper) && stepper.position == 0 && stepper.target == 0
    {
      config := Config(0, "", "", "");
      pressed := false;
      flash := file;
      trace := [];
      stepper := new Stepper();
    }

    /**
     * Refreshes the schedule from the four remote reads, then rewrites the
     * flash file: the old file is removed first, and the new record is only
     * there if the file could be opened and written.
     */
    method SaveConfiguration(remote: RemoteReads, outcome: WriteOutcome)
      modifies this`config, this`flash
      ensures config == Sync(old(config), remote)
      ensures flash == Persist(config, outcome)
    {
      if remote.qtdRacao.Fetched? {
        if remote.qtdRacao.dataType == "int" {
          config := config.(qtdPorcPadrao := PortionsOf(remote.qtdRacao.value));
        }
      }
      if remote.horario1.Fetched? {
        if remote.horario1.dataType == "string" {
          config := config.(hrPorc1 := remote.horario1.value);
        }
      }
      if remote.horario2.Fetched? {
        if remote.horario2.dataType == "string" {
          config := config.(hrPorc2 := remote.horario2.value);
        }
      }
      if remote.horario3.Fetched? {
        if remote.horario3.dataType == "string" {
          config := config.(hrPorc3 := remote.horario3.value);
        }
      }
      flash := None;
      if outcome == OpenFailed {
        return;
      }
      // An open file starts empty; it holds the record only once serialisation wrote it.
      if outcome == Written {
        flash := Some(Encode(config));
      }
    }

    /** Reads the schedule back from flash, field by field, substituting each missing field's default. */
    method LoadConfiguration()
      modifies this`config
      ensures config == Load(flash)
    {
      // A failed parse leaves the JSON document empty.
      var doc := flash.GetOr(Record(None, None, None, None));
      config := config.(qtdPorcPadrao := doc.qtdPorcPadrao.GetOr(DefaultPortions));
      config := config.(hrPorc1 := doc.hrPorc1.GetOr(DefaultHr1));
      config := config.(hrPorc2 := doc.hrPorc2.GetOr(DefaultHr2));
      config := config.(hrPorc3 := doc.hrPorc3.GetOr(DefaultHr3));
    }

    /** One move phase of a portion: set the relative target, then run the motor until it is there. */
    method MoveAndWait(steps: int)
      modifies this`trace, stepper
      ensures trace == old(trace) + [Move(steps)]
      ensures stepper.position == stepper.target == old(stepper.position) + steps
    {
      trace := trace + [Move(steps)];
      stepper.Move(steps);
      stepper.Run();
      while stepper.DistanceToGo() != 0
        modifies stepper
        invariant stepper.target == old(stepper.position) + steps
        decreases if stepper.DistanceToGo() < 0 then -stepper.DistanceToGo() else stepper.DistanceToGo()
      {
        stepper.Run();
      }
    }

    /** One feeding: enable the driver, dispense the configured number of portions, disable, log. */
    method Feed()
      modifies this`trace, stepper
      ensures trace == old(trace) + FeedTrace(config.qtdPorcPadrao)
      ensures stepper.position == old(stepper.position) + PortionSteps * Iterations(config.qtdPorcPadrao)
      ensures Iterations(config.qtdPorcPadrao) > 0 ==> stepper.target == stepper.position
      ensures Iterations(config.qtdPorcPadrao) == 0 ==> stepper.target == old(stepper.target)
    {
      trace := trace + [Enable];
      var cnt := 0;
      while cnt < config.qtdPorcPadrao
        invariant 0 <= cnt <= Iterations(config.qtdPorcPadrao)
        invariant trace == old(trace) + [Enable] + Moves(cnt)
        invariant stepper.position == old(stepper.position) + PortionSteps * cnt
        invariant cnt > 0 ==> stepper.target == stepper.position
        invariant cnt == 0 ==> stepper.target == old(stepper.target)
      {
        MoveAndWait(-3200);
        MoveAndWait(600);
        MoveAndWait(-3200);
        MoveAndWait(600);
        cnt := cnt + 1;
      }
      trace := trace + [Disable];
      trace := trace + [LogPush];
    }

    /**
     * One pass of the main loop: reload the schedule from flash, read the
     * button, feed once on a schedule hit and once more on a pressed button.
     */
    method Tick(clock: ClockReads, buttonHigh: bool)
      modifies this, stepper
      ensures flash == old(flash) && config == Load(flash) && pressed == buttonHigh
      ensures trace == old(trace)
        + Repeat(FeedTrace(config.qtdPorcPadrao), FeedCalls(ScheduleHit(clock, config), buttonHigh))
      ensures stepper.position == old(stepper.position)
        + FeedCalls(ScheduleHit(clock, config), buttonHigh) * (PortionSteps * Iterations(config.qtdPorcPadrao))
      ensures |old(trace)| <= |trace|
      ensures LogPushes(trace[|old(trace)|..]) == FeedCalls(ScheduleHit(clock, config), buttonHigh)
      ensures old(stepper.target == stepper.position) ==> stepper.target == stepper.position
    {
      LoadConfiguration();
      pressed := buttonHigh;
      ghost var t0, p0 := trace, stepper.position;
      ghost var one := FeedTrace(config.qtdPorcPadrao);
      ghost var step := PortionSteps * Iterations(config.qtdPorcPadrao);
      var hit := ScheduleHit(clock, config);
      if hit {
        Feed();
      }
      ghost var t1, p1 := trace, stepper.position;
      assert t1 == t0 + (if hit then one else []) && p1 == p0 + (if hit then step else 0);
      if pressed {
        Feed();
      }
      assert trace == t1 + (if pressed then one else []) && stepper.position == p1 + (if pressed then step else 0);
      TriggeredFeeds(t0, one, p0, step, hit, pressed);
      RepeatTotals(config.qtdPorcPadrao, FeedCalls(hit, pressed));
    }
  }

  /** The trace and the motor position after the two independent triggers of a tick. */
  lemma TriggeredFeeds(t0: seq<Event>, one: seq<Event>, p0: int, step: int, hit: bool, pressed: bool)
    ensures var t := t0 + (if hit then one else []) + (if pressed then one else []);
      && t == t0 + Repeat(one, FeedCalls(hit, pressed))
      && t[|t0|..] == Repeat(one, FeedCalls(hit, pressed))
    ensures p0 + (if hit then step else 0) + (if pressed then step else 0) == p0 + FeedCalls(hit, pressed) * step
  {
    RepeatUpToTwo(one);
  }
}
