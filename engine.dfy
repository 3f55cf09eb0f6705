/**
 * The sample-clock audio engine (engine.h). The audio queue calls
 * `audio_callback` with a buffer; the callback fills it slot by slot from the
 * engine's sample function and advances the engine's sample counter, and
 * `engine_get_time` turns that counter into seconds. The audio queue itself
 * is not modelled: a buffer is an array of slots, and enqueueing it is
 * nothing.
 */
module AudioEngine {

  /** The output rate, in frames per second (engine.h:19). */
  const SampleRate: real := 44100.0

  /** `sizeof(f32)`: the bytes one output slot takes. */
  const SlotBytes: nat := 4

  /** The capacity, in bytes, of each buffer `engine_init` allocates (engine.h:33). */
  const BufferBytes: nat := 4096

  /** How many buffers `engine_init` fills before starting the queue (engine.h:31). */
  const PrimedBuffers: nat := 3

  /** The numeric fields of the stream format. */
  datatype Format = Format(
    sampleRate: real,
    bytesPerPacket: nat,
    framesPerPacket: nat,
    bytesPerFrame: nat,
    channelsPerFrame: nat,
    bitsPerChannel: nat)

  /** The format as `memset` leaves it. */
  const ZeroFormat: Format := Format(0.0, 0, 0, 0, 0, 0)

  /** Mono 32-bit float at 44100 Hz, as `engine_init` sets it (engine.h:19-26). */
  const MonoFloat: Format := Format(SampleRate, 4, 1, 4, 1, 32)

  /** The time, in seconds, at which the sample with this index is played. */
  function SampleTime(samples: nat): (t: real)
    ensures t >= 0.0
    ensures t * SampleRate == samples as real
  {
    samples as real / SampleRate
  }

  /** `capacity / sizeof(f32)`: how many whole slots a buffer of this many bytes holds. */
  function SlotCount(capacity: nat): (n: nat)
    ensures n * SlotBytes <= capacity < (n + 1) * SlotBytes
  {
    capacity / SlotBytes
  }

  /** Each primed buffer holds 1024 slots. */
  lemma BufferSlots()
    ensures SlotCount(BufferBytes) == 1024
  {
  }

  /** Later samples are played strictly later. */
  lemma SampleTimeIncreasing(a: nat, b: nat)
    requires a < b
    ensures SampleTime(a) < SampleTime(b)
  {
  }

  /** An audio queue buffer: `mAudioData` viewed as `f32` slots, its capacity and its reported size, in bytes. */
  class Buffer {
    const capacity: nat
    const data: array<real>
    var byteSize: nat

    ghost predicate Valid()
      reads this
    {
      data.Length == SlotCount(capacity)
    }

    /** What `AudioQueueAllocateBuffer` hands back: a fresh, empty buffer of the given capacity. */
    constructor (capacity: nat)
      ensures Valid() && fresh(data)
      ensures this.capacity == capacity && byteSize == 0
    {
      this.capacity := capacity;
      data := new real[SlotCount(capacity)];
      byteSize := 0;
    }
  }

  class Engine {
    var fmt: Format
    var totalSamples: nat
    var callback: real -> real

    ghost predicate Valid()
      reads this
    {
      fmt == MonoFloat
    }

    /**
     * Storage for `Engine engine;`. In the program it is uninitialised until the
     * `memset` in `Init`; the values picked here are arbitrary, and nothing
     * `Init` promises depends on them.
     */
    constructor ()
      ensures fmt == ZeroFormat && totalSamples == 0
    {
      fmt := ZeroFormat;
      totalSamples := 0;
      callback := _ => 0.0;
    }

    /** `engine_get_time` (engine.h:45-47): the counter read as seconds at the format's rate. */
    function GetTime(): (t: real)
      reads this
      requires Valid()
      ensures t * SampleRate == totalSamples as real
    {
      totalSamples as real / fmt.sampleRate
    }

    /**
     * `audio_callback` (engine.h:49-62): slot `i` gets the sample function at
     * the clock's time, read before the counter moves on, so slot `i` is played
     * at sample `old(totalSamples) + i`.
     */
    method AudioCallback(buf: Buffer)
      requires Valid() && buf.Valid()
      modifies this`totalSamples, buf.data, buf`byteSize
      ensures Valid() && callback == old(callback)
      ensures totalSamples == old(totalSamples) + SlotCount(buf.capacity)
      ensures forall i :: 0 <= i < buf.data.Length ==>
        buf.data[i] == callback(SampleTime(old(totalSamples) + i))
      ensures buf.byteSize == buf.capacity
    {
      var numSamples := buf.capacity / SlotBytes;
      for i := 0 to numSamples
        invariant totalSamples == old(totalSamples) + i
        invariant forall k :: 0 <= k < i ==> buf.data[k] == callback(SampleTime(old(totalSamples) + k))
      {
        var time := GetTime();
        buf.data[i] := callback(time);
        totalSamples := totalSamples + 1;
      }
      buf.byteSize := buf.capacity;
    }

    /**
     * `engine_init` (engine.h:17-38): clear the engine, set the format and the
     * sample function, and fill three fresh 4096-byte buffers one after the
     * other. The buffers are returned in the order they were filled, standing
     * for what is handed to the audio queue.
     */
    method Init(callback: real -> real) returns (primed: seq<Buffer>)
      modifies this
      ensures Valid() && this.callback == callback
      ensures totalSamples == PrimedBuffers * SlotCount(BufferBytes) == 3072
      ensures |primed| == PrimedBuffers
      ensures forall k :: 0 <= k < |primed| ==>
        fresh(primed[k]) && primed[k].Valid() &&
        primed[k].capacity == BufferBytes && primed[k].byteSize == BufferBytes
      ensures forall k, i :: 0 <= k < |primed| && 0 <= i < primed[k].data.Length ==>
        primed[k].data[i] == callback(SampleTime(k * SlotCount(BufferBytes) + i))
    {
      fmt, totalSamples, this.callback := ZeroFormat, 0, _ => 0.0;
      fmt := MonoFloat;
      this.callback := callback;
      primed := [];
      BufferSlots();
      for n := 0 to PrimedBuffers
        invariant Valid() && this.callback == callback
        invariant |primed| == n && totalSamples == n * 1024
        invariant forall k :: 0 <= k < n ==>
          fresh(primed[k]) && primed[k].Valid() &&
          primed[k].capacity == BufferBytes && primed[k].byteSize == BufferBytes
        invariant forall k, i :: 0 <= k < n && 0 <= i < primed[k].data.Length ==>
          primed[k].data[i] == callback(SampleTime(k * 1024 + i))
      {
        var buf := new Buffer(BufferBytes);
        AudioCallback(buf);
        primed := primed + [buf];
      }
    }
  }
}
