/** The I2S audio path: what the firmware asks of the I2S driver while it
    brings the channel up (setupI2S) and while it plays the WAV effect
    (playWAVFile). The driver, the SD card, malloc and the millisecond clock
    are outside the model; their answers are inputs, and every call the
    firmware makes into the driver is recorded as an I2SCall. */
module Audio {

  /* ===== I2S configuration ===== */
  const SampleBits: nat := 16
  const Channels: nat := 2

  /** Bytes of one 16-bit stereo sample frame. */
  const BytesPerFrame: nat := (SampleBits / 8) * Channels

  /* ===== Playback parameters ===== */
  /** Size of the canonical RIFF/WAVE header, skipped without being parsed. */
  const HeaderSize: nat := 44
  /** Size of the heap buffer each chunk is read into. */
  const ChunkSize: nat := 4096
  /** Playback is cut off once this many milliseconds have elapsed. */
  const PlaybackLimitMs: nat := 5000
  /** int16_t fadeBuffer[256]: 512 bytes of silence per fade write. */
  const FadeBytes: nat := 512
  const FadeFirstWrites: nat := 3
  const FadeFirstWait: nat := 100
  const FadeSecondWrites: nat := 5
  const FadeSecondWait: nat := 50

  /* ===== Bring-up parameters ===== */
  /** int16_t silence[2048]: 4096 bytes of silence per priming write. */
  const PrimeBytes: nat := 4096
  const PrimeWrites: nat := 15
  const PrimeWait: nat := 1000

  datatype Option<T> = None | Some(value: T)

  /** How long i2s_write may block waiting for DMA space. */
  datatype Wait = Forever | Ticks(n: nat)

  /** One call into the I2S driver. The driver-configuration calls record
      whether the driver reported ESP_OK. */
  datatype I2SCall =
    | DriverUninstall
    | DriverInstall(ok: bool)
    | SetPin(ok: bool)
    | SetClock(ok: bool)
    | ZeroDmaBuffer
    | Write(bytes: seq<bv8>, wait: Wait)
  {
    /** Calls that tear down or (re)configure the driver. */
    predicate Reconfigures() {
      DriverUninstall? || DriverInstall? || SetPin? || SetClock?
    }
  }

  /** What the world answers during one playWAVFile call: the contents of
      /cash_44_stereo.wav (None when it cannot be opened), whether malloc of
      the 4096-byte buffer succeeds, the milliseconds elapsed since the start
      of streaming at the k-th test of the loop condition, and whether the
      k-th chunk write returns ESP_OK. */
  datatype Environment = Environment(
    wav: Option<seq<bv8>>,
    bufferAllocated: bool,
    elapsedMs: nat -> nat,
    writeOk: nat -> bool)

  function Min(a: int, b: int): int {
    if a <= b then a else b
  }

  function Silence(n: nat): (s: seq<bv8>)
    ensures |s| == n && forall i :: 0 <= i < n ==> s[i] == 0
  {
    seq(n, _ => 0)
  }

  function Repeat(c: I2SCall, n: nat): (s: seq<I2SCall>)
    ensures |s| == n && forall i :: 0 <= i < n ==> s[i] == c
  {
    seq(n, _ => c)
  }

  lemma RepeatOneMore(c: I2SCall, n: nat)
    ensures Repeat(c, n + 1) == Repeat(c, n) + [c]
  {
  }

  /* ===== setupI2S ===== */

  function PrimeWrite(): I2SCall {
    Write(Silence(PrimeBytes), Ticks(PrimeWait))
  }

  /** The calls setupI2S makes: uninstall a driver it had installed, then
      install, set the pins and set the clock, stopping at the first call
      that fails, and prime the channel with silence once all three succeed. */
  function SetupCalls(wasInitialized: bool, installOk: bool, pinOk: bool, clockOk: bool): seq<I2SCall> {
    (if wasInitialized then [DriverUninstall] else []) +
    [DriverInstall(installOk)] +
    (if !installOk then [] else
      [SetPin(pinOk)] +
      (if !pinOk then [] else
        [SetClock(clockOk)] +
        (if !clockOk then [] else [ZeroDmaBuffer] + Repeat(PrimeWrite(), PrimeWrites))))
  }

  /** Where the driver stands in its bring-up: installed, pins set, clock
      set, primed with `written` buffers of silence so far, or live. Down
      covers uninstalled and every failed or out-of-order configuration. */
  datatype Channel = Down | Installed | Pinned | Clocked | Priming(written: nat) | Live

  /** The effect of one driver call on the bring-up state. */
  function Next(s: Channel, c: I2SCall): Channel {
    match c
    case DriverUninstall => Down
    case DriverInstall(ok) => if ok then Installed else Down
    case SetPin(ok) => if ok && s == Installed then Pinned else Down
    case SetClock(ok) => if ok && s == Pinned then Clocked else Down
    case ZeroDmaBuffer => if s == Clocked then Priming(0) else s
    case Write(_, _) =>
      if s.Priming? then (if s.written + 1 >= PrimeWrites then Live else Priming(s.written + 1)) else s
  }

  /** The bring-up state after a sequence of driver calls. */
  function Run(s: Channel, calls: seq<I2SCall>): Channel
    decreases |calls|
  {
    if calls == [] then s else Next(Run(s, calls[..|calls| - 1]), calls[|calls| - 1])
  }

  /** The driver is ready for audio: starting from nothing, the calls made
      so far have installed and configured it, cleared its DMA buffer and
      primed it with 15 buffers of silence, and nothing has undone that. */
  predicate Ready(log: seq<I2SCall>) {
    Run(Down, log) == Live
  }

  lemma {:induction false} RunConcat(s: Channel, a: seq<I2SCall>, b: seq<I2SCall>)
    ensures Run(s, a + b) == Run(Run(s, a), b)
    decreases |b|
  {
    if b == [] {
      assert a + b == a;
    } else {
      var b0 := b[..|b| - 1];
      RunConcat(s, a, b0);
      assert (a + b)[..|a + b| - 1] == a + b0;
    }
  }

  /** Priming: every write in the Priming state counts one buffer of silence,
      and the channel goes live at the 15th. */
  lemma {:induction false} RunPriming(n: nat, w: I2SCall, m: nat)
    requires w.Write? && n < PrimeWrites
    ensures Run(Priming(n), Repeat(w, m)) == if n + m >= PrimeWrites then Live else Priming(n + m)
    decreases m
  {
    if m > 0 {
      RunPriming(n, w, m - 1);
      RepeatOneMore(w, m - 1);
      assert Repeat(w, m)[..m - 1] == Repeat(w, m - 1);
    }
  }

  lemma RunSnoc(s: Channel, a: seq<I2SCall>, c: I2SCall)
    ensures Run(s, a + [c]) == Next(Run(s, a), c)
  {
    assert (a + [c])[..|a|] == a;
  }

  /** The configuration part of setupI2S (everything after the optional
      uninstall) takes the driver from any state to Live when all three
      calls succeed and to Down otherwise. */
  lemma ConfigureOutcome(s0: Channel, installOk: bool, pinOk: bool, clockOk: bool)
    ensures var cfg := SetupCalls(false, installOk, pinOk, clockOk);
            Run(s0, cfg) == if installOk && pinOk && clockOk then Live else Down
  {
    var install := [DriverInstall(installOk)];
    RunSnoc(s0, [], DriverInstall(installOk));
    if installOk {
      var pin := install + [SetPin(pinOk)];
      RunSnoc(s0, install, SetPin(pinOk));
      if pinOk {
        var clock := pin + [SetClock(clockOk)];
        RunSnoc(s0, pin, SetClock(clockOk));
        if clockOk {
          var zero := clock + [ZeroDmaBuffer];
          RunSnoc(s0, clock, ZeroDmaBuffer);
          assert SetupCalls(false, true, true, true) == zero + Repeat(PrimeWrite(), PrimeWrites);
          RunConcat(s0, zero, Repeat(PrimeWrite(), PrimeWrites));
          RunPriming(0, PrimeWrite(), PrimeWrites);
        } else {
          assert SetupCalls(false, true, true, false) == clock;
        }
      } else {
        assert SetupCalls(false, true, false, clockOk) == pin;
      }
    } else {
      assert SetupCalls(false, false, pinOk, clockOk) == install;
    }
  }

  /** setupI2S leaves the driver ready exactly when all three configuration
      calls succeed, whatever came before. */
  lemma SetupReadyIffAllSucceed(log: seq<I2SCall>, wasInitialized: bool, installOk: bool, pinOk: bool, clockOk: bool)
    ensures Ready(log + SetupCalls(wasInitialized, installOk, pinOk, clockOk)) <==> installOk && pinOk && clockOk
  {
    var u: seq<I2SCall> := if wasInitialized then [DriverUninstall] else [];
    var cfg := SetupCalls(false, installOk, pinOk, clockOk);
    assert SetupCalls(wasInitialized, installOk, pinOk, clockOk) == u + cfg;
    assert log + (u + cfg) == (log + u) + cfg;
    RunConcat(Down, log + u, cfg);
    ConfigureOutcome(Run(Down, log + u), installOk, pinOk, clockOk);
  }

  /** Bringing the channel up a second time with the same driver answers ends
      in the same readiness as the first time. */
  lemma SetupTwiceSameEffect(log: seq<I2SCall>, wasInitialized: bool, installOk: bool, pinOk: bool, clockOk: bool)
    ensures var once := log + SetupCalls(wasInitialized, installOk, pinOk, clockOk);
            var twice := once + SetupCalls(Ready(once), installOk, pinOk, clockOk);
            Ready(twice) == Ready(once) == (installOk && pinOk && clockOk)
  {
    var once := log + SetupCalls(wasInitialized, installOk, pinOk, clockOk);
    SetupReadyIffAllSucceed(log, wasInitialized, installOk, pinOk, clockOk);
    SetupReadyIffAllSucceed(once, Ready(once), installOk, pinOk, clockOk);
  }

  /** Calls that do not reconfigure the driver keep a live channel live. */
  lemma {:induction false} LiveStaysLive(calls: seq<I2SCall>)
    requires forall i :: 0 <= i < |calls| ==> !calls[i].Reconfigures()
    ensures Run(Live, calls) == Live
    decreases |calls|
  {
    if calls != [] {
      LiveStaysLive(calls[..|calls| - 1]);
    }
  }

  /** Calls that do not reconfigure the driver keep it ready. */
  lemma ReadyExtend(log: seq<I2SCall>, calls: seq<I2SCall>)
    requires Ready(log)
    requires forall i :: 0 <= i < |calls| ==> !calls[i].Reconfigures()
    ensures Ready(log + calls)
  {
    RunConcat(Down, log, calls);
    LiveStaysLive(calls);
  }

  /* ===== playWAVFile ===== */

  /** The bytes after the header; a file no longer than the header has none. */
  function Payload(file: seq<bv8>): (data: seq<bv8>)
    ensures |file| <= HeaderSize ==> data == []
    ensures |file| > HeaderSize ==>
              (|data| == |file| - HeaderSize &&
               forall i :: 0 <= i < |data| ==> data[i] == file[HeaderSize + i])
  {
    if |file| <= HeaderSize then [] else file[HeaderSize..]
  }

  /** (bytesRead / 4) * 4: the byte count cut down to whole stereo frames. */
  function Aligned(n: nat): (r: nat)
    ensures r % BytesPerFrame == 0
    ensures r <= n < r + BytesPerFrame
  {
    (n / BytesPerFrame) * BytesPerFrame
  }

  /** Bytes returned by the k-th read of the payload. */
  function ReadLength(data: seq<bv8>, k: nat): nat
    requires k * ChunkSize < |data|
  {
    Min(ChunkSize, |data| - k * ChunkSize)
  }

  /** Bytes written for the k-th chunk: the whole frames at the front of the
      k-th read, which starts at payload offset k * 4096. The bytes dropped
      by alignment are not carried into the next chunk. */
  function ChunkBytes(data: seq<bv8>, k: nat): (b: seq<bv8>)
    requires k * ChunkSize < |data|
    ensures |b| % BytesPerFrame == 0
    ensures 0 < ReadLength(data, k) <= ChunkSize
    ensures |b| <= ReadLength(data, k) < |b| + BytesPerFrame
    ensures k * ChunkSize + |b| <= |data|
    ensures forall i :: 0 <= i < |b| ==> b[i] == data[k * ChunkSize + i]
  {
    var start := k * ChunkSize;
    data[start..start + Aligned(ReadLength(data, k))]
  }

  function Measure(data: seq<bv8>, k: nat): nat {
    if k * ChunkSize < |data| then |data| - k * ChunkSize else 0
  }

  /** The chunk writes of the streaming loop from the k-th iteration on: a
      chunk is read while payload remains and less than 5000 ms have
      elapsed, and the loop leaves on the first write that fails. */
  function Stream(data: seq<bv8>, k: nat, env: Environment): seq<I2SCall>
    decreases Measure(data, k)
  {
    if k * ChunkSize < |data| && env.elapsedMs(k) < PlaybackLimitMs then
      var w := Write(ChunkBytes(data, k), Forever);
      if env.writeOk(k) then [w] + Stream(data, k + 1, env) else [w]
    else []
  }

  /** One iteration of the streaming loop, seen from a log that already
      holds the writes of iterations 0..k-1: the k-th read starts at payload
      offset k * 4096 and returns min(4096, remaining) bytes, its whole
      frames are written, and the next iteration follows only if that write
      succeeded. */
  lemma StreamStep(data: seq<bv8>, k: nat, env: Environment, log: seq<I2SCall>, whole: seq<I2SCall>)
    requires k * ChunkSize < |data| && env.elapsedMs(k) < PlaybackLimitMs
    requires log + Stream(data, k, env) == whole
    ensures var pos := k * ChunkSize;
            var n := Min(ChunkSize, |data| - pos);
            var log' := log + [Write(data[pos..pos + n][..(n / BytesPerFrame) * BytesPerFrame], Forever)];
            Min((k + 1) * ChunkSize, |data|) == pos + n && n > 0 &&
            (env.writeOk(k) ==> log' + Stream(data, k + 1, env) == whole) &&
            (!env.writeOk(k) ==> log' == whole)
  {
    var pos := k * ChunkSize;
    var n := Min(ChunkSize, |data| - pos);
    var w := Write(ChunkBytes(data, k), Forever);
    assert data[pos..pos + n][..(n / BytesPerFrame) * BytesPerFrame] == ChunkBytes(data, k);
    if env.writeOk(k) {
      assert Stream(data, k, env) == [w] + Stream(data, k + 1, env);
      assert log + [w] + Stream(data, k + 1, env) == log + ([w] + Stream(data, k + 1, env));
    }
  }

  /** The silence-and-DMA-clear tail that ends every playback session. */
  function FadeTail(): (s: seq<I2SCall>)
    ensures |s| == FadeFirstWrites + 1 + FadeSecondWrites + 1
  {
    Repeat(Write(Silence(FadeBytes), Ticks(FadeFirstWait)), FadeFirstWrites) + [ZeroDmaBuffer] +
    Repeat(Write(Silence(FadeBytes), Ticks(FadeSecondWait)), FadeSecondWrites) + [ZeroDmaBuffer]
  }

  /** The driver calls of one playback once the guards are passed: None when
      the file cannot be opened or the buffer cannot be allocated (nothing is
      written), otherwise the chunk stream followed by the fade tail. */
  function PlaySession(env: Environment): Option<seq<I2SCall>> {
    match env.wav
    case None => None
    case Some(file) =>
      if !env.bufferAllocated then None
      else Some(Stream(Payload(file), 0, env) + FadeTail())
  }

  /** playWAVFile gets past all of its guards. */
  predicate Starts(initialized: bool, played: bool, env: Environment) {
    initialized && !played && PlaySession(env).Some?
  }

  /** Everything one call of playWAVFile sends to the driver. */
  function Playback(initialized: bool, played: bool, env: Environment): seq<I2SCall> {
    if Starts(initialized, played, env) then PlaySession(env).value else []
  }

  /** The j-th write of the stream from iteration k on carries the chunk
      read at payload offset (k + j) * 4096, that chunk was read before the
      deadline, and unless it is the last write it succeeded. */
  lemma {:induction false} StreamWriteAt(data: seq<bv8>, k: nat, env: Environment, j: nat)
    requires j < |Stream(data, k, env)|
    ensures (k + j) * ChunkSize < |data|
    ensures env.elapsedMs(k + j) < PlaybackLimitMs
    ensures Stream(data, k, env)[j] == Write(ChunkBytes(data, k + j), Forever)
    ensures j + 1 < |Stream(data, k, env)| ==> env.writeOk(k + j)
    decreases j
  {
    if j > 0 {
      StreamWriteAt(data, k + 1, env, j - 1);
      assert k + j == (k + 1) + (j - 1);
    }
  }

  /** Why the loop stopped after the writes of Stream(data, k, env): the
      last write failed, or else the payload ran out or the 5000 ms elapsed
      before the next chunk. */
  lemma {:induction false} StreamStops(data: seq<bv8>, k: nat, env: Environment)
    ensures var s := Stream(data, k, env);
            var m := k + |s|;
            (|s| > 0 && !env.writeOk(m - 1)) ||
            m * ChunkSize >= |data| || env.elapsedMs(m) >= PlaybackLimitMs
    ensures var s := Stream(data, k, env);
            |s| > 0 && !env.writeOk(k + |s| - 1) ==> (k + |s| - 1) * ChunkSize < |data|
    decreases Measure(data, k)
  {
    if k * ChunkSize < |data| && env.elapsedMs(k) < PlaybackLimitMs && env.writeOk(k) {
      StreamStops(data, k + 1, env);
    }
  }

  /** The stream holds only chunk writes, so it never reconfigures the driver. */
  lemma StreamOnlyWrites(data: seq<bv8>, k: nat, env: Environment)
    ensures forall j :: 0 <= j < |Stream(data, k, env)| ==> Stream(data, k, env)[j].Write?
  {
    forall j | 0 <= j < |Stream(data, k, env)| ensures Stream(data, k, env)[j].Write? {
      StreamWriteAt(data, k, env, j);
    }
  }

  /** A playback session leaves a ready channel ready, whether it ran out of
      data, hit the deadline or aborted on a failed write. */
  lemma SessionKeepsReady(log: seq<I2SCall>, env: Environment)
    requires Ready(log) && PlaySession(env).Some?
    ensures Ready(log + PlaySession(env).value)
  {
    var s := PlaySession(env).value;
    var file := env.wav.value;
    var stream := Stream(Payload(file), 0, env);
    StreamOnlyWrites(Payload(file), 0, env);
    assert s == stream + FadeTail();
    forall i | 0 <= i < |s| ensures !s[i].Reconfigures() {
      if i >= |stream| {
        assert s[i] == FadeTail()[i - |stream|];
      }
    }
    ReadyExtend(log, s);
  }

  /** Every session ends with three short silences, a DMA clear, five more
      silences and a final DMA clear, however streaming ended. */
  lemma SessionEndsWithFade(env: Environment)
    requires PlaySession(env).Some?
    ensures var s := PlaySession(env).value;
            |s| >= |FadeTail()| && s[|s| - |FadeTail()|..] == FadeTail() &&
            s[|s| - 1] == ZeroDmaBuffer
  {
  }

  /** The first chunk write of a session starts at file offset 44: when the
      file has data past the header, it carries the whole frames at the front
      of the first 4096 bytes after the header (none when only 1 to 3 bytes
      follow the header). */
  lemma FirstWriteAfterHeader(file: seq<bv8>, env: Environment)
    requires env.wav == Some(file) && env.bufferAllocated
    requires |file| > HeaderSize && env.elapsedMs(0) < PlaybackLimitMs
    ensures var s := PlaySession(env).value;
            var n := Aligned(Min(ChunkSize, |file| - HeaderSize));
            |s| > 0 && s[0] == Write(file[HeaderSize..HeaderSize + n], Forever)
  {
    var data := Payload(file);
    var b := ChunkBytes(data, 0);
    var n := Aligned(Min(ChunkSize, |file| - HeaderSize));
    assert b == file[HeaderSize..HeaderSize + n];
  }
}
