/** The audio values exchanged with the session runtime (LiveKit's `rtc.AudioFrame`). */
module Audio {
  import Base64

  /** A frame of 16-bit PCM: its raw bytes and format. */
  datatype AudioFrame = AudioFrame(data: seq<Base64.byte>, sampleRate: int, numChannels: int,
                                   samplesPerChannel: int)

  /** The payloads of some frames, one per frame. */
  function DataOf(frames: seq<AudioFrame>): (r: seq<seq<Base64.byte>>)
    ensures |r| == |frames|
    ensures forall i :: 0 <= i < |frames| ==> r[i] == frames[i].data
  {
    seq(|frames|, i requires 0 <= i < |frames| => frames[i].data)
  }

  /** The payloads of some frames, concatenated. */
  function Bytes(frames: seq<AudioFrame>): seq<Base64.byte>
    decreases |frames|
  {
    if frames == [] then [] else frames[0].data + Bytes(frames[1..])
  }

  /** Byte runs concatenated. */
  function Flatten(runs: seq<seq<Base64.byte>>): seq<Base64.byte>
    decreases |runs|
  {
    if runs == [] then [] else runs[0] + Flatten(runs[1..])
  }

  lemma {:induction false} BytesAppend(a: seq<AudioFrame>, b: seq<AudioFrame>)
    ensures Bytes(a + b) == Bytes(a) + Bytes(b)
    decreases |a|
  {
    if a == [] {
      assert a + b == b;
    } else {
      assert (a + b)[1..] == a[1..] + b;
      BytesAppend(a[1..], b);
    }
  }

  lemma {:induction false} FlattenSnoc(runs: seq<seq<Base64.byte>>, run: seq<Base64.byte>)
    ensures Flatten(runs + [run]) == Flatten(runs) + run
    decreases |runs|
  {
    if runs == [] {
      assert runs + [run] == [run];
    } else {
      assert (runs + [run])[1..] == runs[1..] + [run];
      FlattenSnoc(runs[1..], run);
    }
  }

  /** The payloads of the frames, concatenated, are the frames' bytes. */
  lemma {:induction false} FlattenDataOf(frames: seq<AudioFrame>)
    ensures Flatten(DataOf(frames)) == Bytes(frames)
    decreases |frames|
  {
    if frames != [] {
      assert DataOf(frames)[1..] == DataOf(frames[1..]);
      FlattenDataOf(frames[1..]);
    }
  }
}
