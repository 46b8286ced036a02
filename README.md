# Money-eyes robot face: a Dafny model

The firmware draws a pair of cartoon eyes on an M5Stack display. The pupils
wander toward random targets and the eyes blink at random intervals. Every
few seconds the face toggles into "money mode": "$" glyphs replace the
pupils, and a cash-register sound plays once through an I2S amplifier.

This project models the part of `src/main.cpp` that decides what happens:

- the per-frame state machine of `loop()`;
- the frame choice and the sound latch of `drawEyes()`;
- the playback session of `playWAVFile()`;
- the bring-up of the I2S channel in `setupI2S()`.

It also models the part of `setup()` that calls these and arms the two
timers.

How it is modelled:

- **Globals.** The firmware's globals are the fields of the class
  `Robot.MoneyEyesRobot`, and each firmware function is a method that updates
  them in place.
- **Display.** Each pushed sprite is recorded as a `Frame`, the list of
  shapes drawn.
- **I2S driver.** Each call into the I2S driver is appended to a log of
  `I2SCall`s. Specification functions over that log state what each
  operation sends to the hardware: `SetupCalls`, `Stream`, `FadeTail` and
  `PlaySession`.
- **Outside answers.** Whatever the rest of the world answers is an input.
  That covers the three driver-configuration results, the WAV file's bytes
  (or its absence), whether `malloc` succeeds, the clock, each write's
  result, and every `random(a, b)` draw. A draw is constrained to
  `a <= r < b`.
- **Driver readiness.** `Audio.Channel` is a small state machine, and
  `Audio.Ready` says that a log leaves the driver installed, configured and
  primed.

What is proved:

- the pupil offset never leaves the envelope [-30, 30] x [-15, 15];
- each axis moves by at most one unit per tick and never overshoots;
- the timers re-arm exactly when their deadlines pass;
- closed bars win over "$" glyphs, which win over pupils; pupils and bars lie
  inside their eye whites, and each "$" is anchored at least 20 px inside
  the rim of its white;
- after every `drawEyes`, `previousMoney == moneyMode`;
- playback is attempted exactly at the draws that enter money mode, hence
  exactly once per money-mode episode;
- every chunk write is a whole number of 4-byte frames read from offset
  44 + 4096k of the file;
- streaming stops on end of data, a failed write or the 5000 ms deadline,
  and the fade tail always follows;
- `i2sInitialized` is only ever set while the driver log shows a ready
  channel, through setup and every tick of `loop()`;
- `setupI2S` leaves the driver ready exactly when install, pin and clock
  configuration all succeed, and a playback session keeps it ready.

One observation about the code: `soundPlayedFlag ==> previousMoney` holds
between any two operations (`Robot.MoneyEyesRobot.Valid`). So the
`!soundPlayedFlag` conjunct of the playback test in `drawEyes`
(src/main.cpp:253) never changes the outcome. Playback is decided by the
`moneyMode && !previousMoney` edge alone. A playback that never got past its
guards (no file, no buffer, I2S down) leaves the flag clear, and the next
money-mode episode tries again.

## Model

| member | source | states |
|---|---|---|
| Eyes.Compose | src/main.cpp:227-250 | A frame is the black background and two white disks of radius 55 at (100,120) and (220,120), then two marks. It shows bars iff closed, "$" glyphs iff open and in money mode, and pupils iff open and not in money mode. Glyphs and pupils sit on the eye centres moved by the offset. |
| Eyes.EnvelopeFitsWhite | src/main.cpp:53-57 | Any offset within [-30,30] x [-15,15] is at most 55 - 20 away from the centre: 30*30 + 15*15 <= 35*35. |
| Eyes.PupilsInsideWhites | src/main.cpp:245-248 | For an offset in the envelope, each pupil disk of radius 20 lies entirely inside its own eye white. |
| Eyes.DollarsCentredInWhites | src/main.cpp:238-243 | For an offset in the envelope, each "$" is centred inside its own eye white, at least a pupil radius from the rim. |
| Eyes.BarsInsideWhites | src/main.cpp:234-237 | Each 60x10 closed-eye bar is centred on its eye centre, with all four corners inside the white. |
| Eyes.StepToward | src/main.cpp:396-397 | One tick moves an axis by at most 1 and stays between the old position and the target. A strictly closer position when not yet at the target; no move when already there. |
| Eyes.WalkDistance | src/main.cpp:396-397 | One axis with its target held fixed, as between two retargets: after n ticks the distance left is max(d - n, 0), so it arrives after exactly d ticks and then rests. |
| Eyes.WalkStaysInRange | src/main.cpp:390-397 | One axis with its target held fixed: stepping toward a target inside [-b, b] from a position inside [-b, b] never leaves [-b, b]. |
| Audio.ConfigureOutcome | src/main.cpp:122-142 | Install, pin, clock, DMA clear and 15 silence writes take the driver from any state to Live when all three configuration calls succeed, and to Down at the first failure. |
| Audio.SetupReadyIffAllSucceed | src/main.cpp:73-143 | Whatever was logged before, the driver is ready after setupI2S's calls iff install, pin and clock configuration all succeeded. |
| Audio.SetupTwiceSameEffect | src/main.cpp:73-77 | Re-running setupI2S with the same driver answers, uninstalling if the first run succeeded, ends in the same readiness. |
| Audio.ReadyExtend | src/main.cpp:130-139 | A ready driver stays ready under any calls that do not uninstall or reconfigure it. |
| Audio.Payload | src/main.cpp:161-162 | The streamed bytes are the file from offset 44 on; a file of at most 44 bytes streams nothing. |
| Audio.Aligned | src/main.cpp:180 | (n / 4) * 4 is a multiple of 4, at most n, and more than n - 4. |
| Audio.ChunkBytes | src/main.cpp:177-182 | The k-th write carries a multiple of 4 bytes, at most the 1..4096 bytes read, and more than the read minus 4. They are the payload bytes from offset k * 4096 on; the dropped bytes are not carried over. |
| Audio.StreamStep | src/main.cpp:176-187 | One loop iteration reads min(4096, remaining) bytes at offset k * 4096 and writes their whole frames. The loop continues only if that write returned ESP_OK. |
| Audio.StreamWriteAt | src/main.cpp:176-187 | The j-th write of the stream is the aligned chunk at offset j * 4096, read while data remained and before 5000 ms. Every write but the last succeeded. |
| Audio.StreamStops | src/main.cpp:176-187 | Streaming ends for one of three reasons only: the last write failed, the payload is exhausted, or 5000 ms have elapsed. |
| Audio.StreamOnlyWrites | src/main.cpp:176-193 | The streaming loop only writes: it never uninstalls or reconfigures the driver. |
| Audio.SessionKeepsReady | src/main.cpp:151-224 | A playback session leaves a ready driver ready, however streaming ended. |
| Audio.SessionEndsWithFade | src/main.cpp:195-217 | Every session ends with the fade tail: 3 silent 512-byte writes (wait 100), a DMA clear, 5 silent writes (wait 50), and a final DMA clear. |
| Audio.FirstWriteAfterHeader | src/main.cpp:161-182 | The first chunk write of a session starts at file offset 44: it carries the whole frames of the first min(4096, remaining) bytes after the header, which is empty when only 1 to 3 bytes follow the header. |
| SoundLatch.OneAttemptPerEpisode | src/main.cpp:252-262 | Within one contiguous run of money-mode draws, playback is attempted exactly once, at the run's first draw. |
| SoundLatch.AttemptsSeparatedByNormal | src/main.cpp:252-262 | Between any two playback attempts there is a normal-mode draw. |
| SoundLatch.AppendDraw | src/main.cpp:252-262 | A draw that attempts playback exactly when it enters money mode from the previous draw's mode keeps the attempts at the entries of the episodes. |
| Robot.MoneyEyesRobot.constructor | src/main.cpp:60-70 | The globals start at zero, false and empty; the invariant holds and the last frame agrees with the mode. |
| Robot.MoneyEyesRobot.SetupI2S | src/main.cpp:73-143 | The log grows by exactly the setupI2S calls for the driver's answers. i2sInitialized ends true iff all three configuration calls succeeded, and then the log shows a ready channel. |
| Robot.MoneyEyesRobot.WriteSilenceBuffers | src/main.cpp:136-139 | The for loop appends exactly count writes of bytes zero bytes, each waiting at most wait ticks. |
| Robot.MoneyEyesRobot.PlayWAVFile | src/main.cpp:151-224 | Nothing is written and the latch is unchanged unless I2S is up, the latch is clear, the file opens and the buffer is allocated. Otherwise the log grows by the chunk stream plus the fade tail, and the latch is set even after a failed write. A set i2sInitialized still comes with a ready channel afterwards. |
| Robot.MoneyEyesRobot.StreamPayload | src/main.cpp:172-193 | The while loop appends exactly the chunk writes of Stream: aligned 4096-byte reads while data remains and under 5000 ms, stopping after the first failed write. |
| Robot.MoneyEyesRobot.FadeOut | src/main.cpp:195-217 | Appends exactly the fade tail. |
| Robot.MoneyEyesRobot.DrawEyes | src/main.cpp:227-263 | Pushes the composed frame. Plays on the edge into money mode, clears the latch on the edge out of it, and records the draw so that attempts stay at the entries of the episodes. Leaves previousMoney == moneyMode and keeps the invariant. |
| Robot.MoneyEyesRobot.Setup | src/main.cpp:346-365 | Brings up I2S, draws one open frame at offset (0,0), and arms the blink and money timers at now + r with r drawn from [2000,5000) and [4000,8000). |
| Robot.MoneyEyesRobot.Blink | src/main.cpp:375-381 | When now >= nextBlinkTime, exactly one closed and one open frame are drawn and the timer becomes now + r. Otherwise nothing changes. No sound starts or stops. |
| Robot.MoneyEyesRobot.ToggleMoney | src/main.cpp:383-387 | Money mode flips iff now >= nextMoneyTime, and then the deadline becomes now + r. |
| Robot.MoneyEyesRobot.MovePupils | src/main.cpp:389-397 | A new target is taken only when both axes have arrived. Each axis then steps once toward its target, and current and target stay in the envelope. |
| Robot.MoneyEyesRobot.Loop | src/main.cpp:372-402 | One tick produces the blink frames (if due) plus one open frame at the new offset. It toggles money mode and re-arms the timers as due, moves the pupils, and starts sound only on the tick that enters money mode. Keeps the invariant, previousMoney == moneyMode, and a ready channel whenever i2sInitialized is set. |

## Left out

- Sprite, LCD and Serial output are left out: text, colours, `pushSprite` and `showFirmwareInfo`. A frame records only the shapes that decide what the eyes show.
- SD mounting, `SD.exists`, WiFi and Bluetooth shutdown, `pinMode`, `digitalWrite`, `delay` and `yield` are left out. They are hardware or scheduler side effects with no bearing on the state. That includes the 120 ms blocking blink delay and the `% 100` yield test.
- `millis()` wrap-around of the 32-bit `unsigned long` is not modelled: time is a `nat`. The deadline tests `now >= nextBlinkTime` and `now >= nextMoneyTime` are therefore modelled as plain comparisons.
- The two `millis()` readings in `setup()` are modelled as a single reading `now`.
- The SD file's reads are modelled as returning min(4096, remaining) bytes each. Short reads, read errors (a `bytesRead` of 0 or less) and `available()` disagreeing with the file length are not modelled. `seek(44)` on a file shorter than 44 bytes is modelled as leaving nothing to read.
- The results of the fade-tail and priming `i2s_write` calls are ignored by the firmware and are not recorded. Neither is `bytesWritten`.
- The wall-clock cost of blocking writes is not modelled. The clock during playback is the input `elapsedMs(k)`, read at the k-th test of the loop condition. One chunk written after the deadline is therefore outside the model.
- The quality of `random()` and `randomSeed(analogRead(0))` is not modelled: only the ranges of the draws are.
- The driver's real state machine is not modelled. `Audio.Channel` abstracts it. In particular, a driver that was installed before a later configuration call failed is not uninstalled by the next `setupI2S`, and the model takes the driver's answer to the reinstall as an input.
- The class keeps only `i2sInitialized ==> Ready(i2s)` (`Robot.MoneyEyesRobot.ChannelTracked`). The converse is not carried through the class methods. It holds right after setupI2S by `Audio.SetupReadyIffAllSucceed`, and playback preserves readiness by `Audio.SessionKeepsReady`.
- The extent of the "$" glyph is not modelled: a `DollarGlyph` records its anchor and text size only. At text size 5 the glyph cell is about 30 x 40 px, and at the edge of the envelope its corners can fall outside the eye white. Only the anchor's position is proved.
- No lemma relates several ticks of `Robot.MoneyEyesRobot.Loop` to `Eyes.Walk`. `Eyes.WalkDistance` and `Eyes.WalkStaysInRange` describe one axis with its target held fixed. The envelope bound over ticks is carried by the class invariant and `Robot.MoneyEyesRobot.MovePupils`.
