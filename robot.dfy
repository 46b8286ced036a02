/** The firmware's global state and the operations that update it in place:
    setupI2S, playWAVFile, drawEyes, the timer part of setup, and one
    iteration of loop. The clock and every random(a, b) draw are
    parameters; random(a, b) yields a value r with a <= r < b. */
module Robot {
  import opened Eyes
  import opened Audio
  import opened SoundLatch

  /** random(2000, 5000): the next blink comes 2000..4999 ms later. */
  const BlinkDelayMin: nat := 2000
  const BlinkDelayMax: nat := 5000
  /** random(4000, 8000): money mode toggles again 4000..7999 ms later. */
  const MoneyDelayMin: nat := 4000
  const MoneyDelayMax: nat := 8000

  class MoneyEyesRobot {
    /* Animation globals. */
    var currentX: int
    var currentY: int
    var targetX: int
    var targetY: int
    var moneyMode: bool
    var previousMoney: bool
    var nextBlinkTime: nat
    var nextMoneyTime: nat
    /* Audio globals. */
    var i2sInitialized: bool
    var soundPlayedFlag: bool

    /** Every frame pushed to the display, oldest first. */
    var frames: seq<Frame>
    /** Every call made into the I2S driver, oldest first. */
    var i2s: seq<I2SCall>

    /** The money mode at each drawEyes call, and whether that call invoked
        playWAVFile. */
    ghost var modes: seq<bool>
    ghost var attempts: seq<bool>

    /** What holds between any two operations. */
    ghost predicate Valid()
      reads this
    {
      InEnvelope(currentX, currentY) && InEnvelope(targetX, targetY) &&
      AttemptsAtEntries(modes, attempts) &&
      previousMoney == (modes != [] && modes[|modes| - 1]) &&
      (soundPlayedFlag ==> previousMoney)
    }

    /** The flag never claims more than the driver log shows: whenever
        i2sInitialized is set, the calls made so far have brought the
        channel up and nothing has undone that. */
    ghost predicate ChannelTracked()
      reads this`i2sInitialized, this`i2s
    {
      i2sInitialized ==> Ready(i2s)
    }

    /** What holds between two iterations of loop: the last frame drawn
        used the current money mode. */
    ghost predicate Settled()
      reads this
    {
      previousMoney == moneyMode
    }

    /** The globals as initialised, before setup runs. */
    constructor ()
      ensures Valid() && Settled() && ChannelTracked()
      ensures currentX == 0 && currentY == 0 && targetX == 0 && targetY == 0
      ensures !moneyMode && !previousMoney && nextBlinkTime == 0 && nextMoneyTime == 0
      ensures !i2sInitialized && !soundPlayedFlag
      ensures frames == [] && i2s == []
    {
      currentX, currentY, targetX, targetY := 0, 0, 0, 0;
      moneyMode, previousMoney := false, false;
      nextBlinkTime, nextMoneyTime := 0, 0;
      i2sInitialized, soundPlayedFlag := false, false;
      frames, i2s := [], [];
      modes, attempts := [], [];
    }

    /** setupI2S: tear down a driver this code had installed, configure
        the driver, and on success prime it with 15 buffers of silence;
        i2sInitialized ends true exactly when install, pins and clock all
        succeeded. */
    method SetupI2S(installOk: bool, pinOk: bool, clockOk: bool)
      modifies this`i2s, this`i2sInitialized
      ensures i2s == old(i2s) + SetupCalls(old(i2sInitialized), installOk, pinOk, clockOk)
      ensures i2sInitialized == (installOk && pinOk && clockOk)
      ensures ChannelTracked()
    {
      ghost var start, wasInitialized := i2s, i2sInitialized;
      if i2sInitialized {
        i2s := i2s + [DriverUninstall];
        i2sInitialized := false;
      }
      i2s := i2s + [DriverInstall(installOk)];
      if installOk {
        i2s := i2s + [SetPin(pinOk)];
        if pinOk {
          i2s := i2s + [SetClock(clockOk)];
          if clockOk {
            i2s := i2s + [ZeroDmaBuffer];
            WriteSilenceBuffers(PrimeWrites, PrimeBytes, PrimeWait);
            i2sInitialized := true;
          }
        }
      }
      SetupReadyIffAllSucceed(start, wasInitialized, installOk, pinOk, clockOk);
    }

    /** A for loop of i2s_write calls, each writing `bytes` zero bytes and
        waiting at most `wait` ticks; the results are not inspected. */
    method WriteSilenceBuffers(count: nat, bytes: nat, wait: nat)
      modifies this`i2s
      ensures i2s == old(i2s) + Repeat(Write(Silence(bytes), Ticks(wait)), count)
    {
      var silence := Silence(bytes);
      ghost var start := i2s;
      for i := 0 to count
        invariant i2s == start + Repeat(Write(silence, Ticks(wait)), i)
      {
        i2s := i2s + [Write(silence, Ticks(wait))];
        RepeatOneMore(Write(silence, Ticks(wait)), i);
      }
    }

    /** playWAVFile: nothing happens unless the channel is initialised, the
        latch is clear, the file opens and the buffer is allocated; past those
        guards the payload after the 44-byte header is streamed in frame-
        aligned chunks, the fade tail is always written, and the latch is set
        even if a write failed. */
    method PlayWAVFile(env: Environment)
      requires ChannelTracked()
      modifies this`i2s, this`soundPlayedFlag
      ensures ChannelTracked()
      ensures i2s == old(i2s) + Playback(i2sInitialized, old(soundPlayedFlag), env)
      ensures soundPlayedFlag == (old(soundPlayedFlag) || Starts(i2sInitialized, old(soundPlayedFlag), env))
    {
      if !i2sInitialized || soundPlayedFlag {
        return;
      }
      if env.wav.None? {
        return;
      }
      var data := Payload(env.wav.value);
      if !env.bufferAllocated {
        return;
      }
      ghost var base := i2s;
      StreamPayload(data, env);
      FadeOut();
      assert i2s == base + PlaySession(env).value;
      SessionKeepsReady(base, env);
      soundPlayedFlag := true;
    }

    /** The read-and-write loop of playWAVFile: 4096-byte reads from the
        payload, each trimmed to whole frames and written with an unbounded
        wait, until the payload is used up, 5000 ms have passed, or a write
        fails. */
    method StreamPayload(data: seq<bv8>, env: Environment)
      modifies this`i2s
      ensures i2s == old(i2s) + Stream(data, 0, env)
    {
      ghost var base := i2s;
      var pos: nat := 0;
      var k: nat := 0;
      while pos < |data| && env.elapsedMs(k) < PlaybackLimitMs
        invariant pos == Min(k * ChunkSize, |data|)
        invariant i2s + Stream(data, k, env) == base + Stream(data, 0, env)
        decreases |data| - pos
      {
        StreamStep(data, k, env, i2s, base + Stream(data, 0, env));
        var bytesRead := Min(ChunkSize, |data| - pos);
        var chunk := data[pos..pos + bytesRead];
        pos := pos + bytesRead;
        if bytesRead > 0 {
          bytesRead := (bytesRead / BytesPerFrame) * BytesPerFrame;
          i2s := i2s + [Write(chunk[..bytesRead], Forever)];
          if !env.writeOk(k) {
            break;
          }
        }
        k := k + 1;
      }
    }

    /** The fade tail of playWAVFile: three 512-byte silence writes, a DMA
        clear, five more, and a final DMA clear. */
    method FadeOut()
      modifies this`i2s
      ensures i2s == old(i2s) + FadeTail()
    {
      WriteSilenceBuffers(FadeFirstWrites, FadeBytes, FadeFirstWait);
      i2s := i2s + [ZeroDmaBuffer];
      WriteSilenceBuffers(FadeSecondWrites, FadeBytes, FadeSecondWait);
      i2s := i2s + [ZeroDmaBuffer];
    }

    /** drawEyes: push one frame (closed bars over "$" over pupils), attempt
        playback on entering money mode, clear the latch on leaving it, and
        remember the mode just drawn. */
    method DrawEyes(offsetX: int, offsetY: int, closed: bool, env: Environment)
      requires Valid() && ChannelTracked()
      modifies this`frames, this`i2s, this`soundPlayedFlag, this`previousMoney, this`modes, this`attempts
      ensures Valid() && Settled() && ChannelTracked()
      ensures frames == old(frames) + [Compose(offsetX, offsetY, closed, moneyMode)]
      ensures var entering := moneyMode && !old(previousMoney);
              i2s == old(i2s) + (if entering then Playback(i2sInitialized, false, env) else []) &&
              soundPlayedFlag == (moneyMode && (old(soundPlayedFlag) || (entering && Starts(i2sInitialized, false, env)))) &&
              modes == old(modes) + [moneyMode] && attempts == old(attempts) + [entering]
    {
      frames := frames + [Compose(offsetX, offsetY, closed, moneyMode)];
      var entering := moneyMode && !previousMoney && !soundPlayedFlag;
      if entering {
        PlayWAVFile(env);
      }
      if !moneyMode && previousMoney {
        soundPlayedFlag := false;
      }
      AppendDraw(modes, attempts, moneyMode, previousMoney);
      modes := modes + [moneyMode];
      attempts := attempts + [entering];
      previousMoney := moneyMode;
    }

    /** The part of setup that concerns the core: bring up I2S, draw the
        first frame with the pupils centred, and schedule the first blink
        and the first money-mode toggle from the clock reading now. */
    method Setup(now: nat, installOk: bool, pinOk: bool, clockOk: bool, env: Environment,
                 blinkDelay: int, moneyDelay: int)
      requires Valid() && Settled()
      requires BlinkDelayMin <= blinkDelay < BlinkDelayMax
      requires MoneyDelayMin <= moneyDelay < MoneyDelayMax
      modifies this
      ensures Valid() && Settled() && ChannelTracked()
      ensures i2s == old(i2s) + SetupCalls(old(i2sInitialized), installOk, pinOk, clockOk)
      ensures i2sInitialized == (installOk && pinOk && clockOk)
      ensures frames == old(frames) + [Compose(0, 0, false, moneyMode)]
      ensures nextBlinkTime == now + blinkDelay && nextMoneyTime == now + moneyDelay
      ensures moneyMode == old(moneyMode) && soundPlayedFlag == old(soundPlayedFlag)
      ensures currentX == old(currentX) && currentY == old(currentY)
      ensures targetX == old(targetX) && targetY == old(targetY)
    {
      SetupI2S(installOk, pinOk, clockOk);
      DrawEyes(0, 0, false, env);
      nextBlinkTime := now + blinkDelay;
      nextMoneyTime := now + moneyDelay;
    }

    /** The blink step of loop: once the blink deadline has passed, draw a
        closed frame and then an open one at the current offset and schedule
        the next blink. Both frames keep the mode of the previous frame, so
        they never start or stop sound. */
    method Blink(now: nat, blinkDelay: int, env: Environment)
      requires Valid() && Settled() && ChannelTracked()
      requires BlinkDelayMin <= blinkDelay < BlinkDelayMax
      modifies this`frames, this`i2s, this`soundPlayedFlag, this`previousMoney, this`modes, this`attempts,
               this`nextBlinkTime
      ensures Valid() && Settled() && ChannelTracked()
      ensures var blink := now >= old(nextBlinkTime);
              nextBlinkTime == (if blink then now + blinkDelay else old(nextBlinkTime)) &&
              frames == old(frames) +
                (if blink then [Compose(currentX, currentY, true, moneyMode),
                                Compose(currentX, currentY, false, moneyMode)]
                 else [])
      ensures i2s == old(i2s) && soundPlayedFlag == old(soundPlayedFlag)
    {
      if now >= nextBlinkTime {
        DrawEyes(currentX, currentY, true, env);
        DrawEyes(currentX, currentY, false, env);
        nextBlinkTime := now + blinkDelay;
      }
    }

    /** The money step of loop: once its deadline has passed, flip money
        mode and schedule the next flip. */
    method ToggleMoney(now: nat, moneyDelay: int)
      requires MoneyDelayMin <= moneyDelay < MoneyDelayMax
      modifies this`moneyMode, this`nextMoneyTime
      ensures var toggle := now >= old(nextMoneyTime);
              moneyMode == (old(moneyMode) != toggle) &&
              nextMoneyTime == (if toggle then now + moneyDelay else old(nextMoneyTime))
    {
      if now >= nextMoneyTime {
        moneyMode := !moneyMode;
        nextMoneyTime := now + moneyDelay;
      }
    }

    /** The motion step of loop: once both axes have reached their target,
        take the freshly drawn one; then move each axis one unit toward its
        target. The pupil offset never leaves the travel envelope. */
    method MovePupils(drawnX: int, drawnY: int)
      requires InEnvelope(currentX, currentY) && InEnvelope(targetX, targetY)
      requires -TravelX <= drawnX < TravelX + 1 && -TravelY <= drawnY < TravelY + 1
      modifies this`currentX, this`currentY, this`targetX, this`targetY
      ensures InEnvelope(currentX, currentY) && InEnvelope(targetX, targetY)
      ensures var arrived := old(currentX) == old(targetX) && old(currentY) == old(targetY);
              targetX == (if arrived then drawnX else old(targetX)) &&
              targetY == (if arrived then drawnY else old(targetY))
      ensures currentX == StepToward(old(currentX), targetX)
      ensures currentY == StepToward(old(currentY), targetY)
    {
      if currentX == targetX && currentY == targetY {
        targetX := drawnX;
        targetY := drawnY;
      }

      if currentX < targetX {
        currentX := currentX + 1;
      } else if currentX > targetX {
        currentX := currentX - 1;
      }
      if currentY < targetY {
        currentY := currentY + 1;
      } else if currentY > targetY {
        currentY := currentY - 1;
      }
    }

    /** One iteration of loop at clock reading now: blink when the blink
        deadline has passed, toggle money mode when its deadline has passed,
        move the pupils, and draw the frame. Sound can only start in the
        final frame, and only on the tick that enters money mode. */
    method Loop(now: nat, blinkDelay: int, moneyDelay: int, drawnX: int, drawnY: int, env: Environment)
      requires Valid() && Settled() && ChannelTracked()
      requires BlinkDelayMin <= blinkDelay < BlinkDelayMax
      requires MoneyDelayMin <= moneyDelay < MoneyDelayMax
      requires -TravelX <= drawnX < TravelX + 1 && -TravelY <= drawnY < TravelY + 1
      modifies this
      ensures Valid() && Settled() && ChannelTracked()
      ensures var blink := now >= old(nextBlinkTime);
              nextBlinkTime == (if blink then now + blinkDelay else old(nextBlinkTime)) &&
              frames == old(frames) +
                (if blink then [Compose(old(currentX), old(currentY), true, old(moneyMode)),
                                Compose(old(currentX), old(currentY), false, old(moneyMode))]
                 else []) +
                [Compose(currentX, currentY, false, moneyMode)]
      ensures var toggle := now >= old(nextMoneyTime);
              moneyMode == (old(moneyMode) != toggle) &&
              nextMoneyTime == (if toggle then now + moneyDelay else old(nextMoneyTime))
      ensures var arrived := old(currentX) == old(targetX) && old(currentY) == old(targetY);
              targetX == (if arrived then drawnX else old(targetX)) &&
              targetY == (if arrived then drawnY else old(targetY))
      ensures currentX == StepToward(old(currentX), targetX)
      ensures currentY == StepToward(old(currentY), targetY)
      ensures var entering := moneyMode && !old(moneyMode);
              i2s == old(i2s) + (if entering then Playback(i2sInitialized, false, env) else []) &&
              soundPlayedFlag == (moneyMode && (old(soundPlayedFlag) || (entering && Starts(i2sInitialized, false, env))))
      ensures i2sInitialized == old(i2sInitialized)
    {
      Blink(now, blinkDelay, env);
      ToggleMoney(now, moneyDelay);
      MovePupils(drawnX, drawnY);
      DrawEyes(currentX, currentY, false, env);
    }
  }
}
