/**
 * The two-frame upload of `frames_to_video`: the first and the last frame
 * of the clip arrive through two separate upload callbacks, each of which
 * stores its frame in `frame_storage`; generation starts only once both
 * frames are there. The callbacks are taken to run one after another.
 */
module ComfyFrames {
  import opened Common

  /** The storage keys `'frame1'` and `'frame2'`. */
  datatype Slot = First | Second

  /** What a callback stores: the uploaded file's name, type and base64 text. */
  datatype Frame = Frame(filename: string, filetype: string, content: string)

  function Other(slot: Slot): (r: Slot)
    ensures r != slot
  {
    if slot == First then Second else First
  }

  predicate BothStored(stored: map<Slot, Frame>) {
    First in stored && Second in stored
  }

  /** `process_uploaded_frames`: with one frame missing it only logs that
      it is waiting; otherwise it goes on with the first and the last frame. */
  function FramesToProcess(stored: map<Slot, Frame>): (job: Option<(Frame, Frame)>)
    ensures job.Some? <==> BothStored(stored)
    ensures job.Some? ==> job.value.0 == stored[First] && job.value.1 == stored[Second]
  {
    if BothStored(stored) then Some((stored[First], stored[Second])) else None
  }

  /** One upload callback: the storage after it, and the frames processing
      goes on with, if the callback starts it. */
  function AfterUpload(stored: map<Slot, Frame>, slot: Slot, frame: Frame): (r: (map<Slot, Frame>, Option<(Frame, Frame)>))
    ensures r.0.Keys == stored.Keys + {slot} && r.0[slot] == frame
    ensures forall s :: s in stored && s != slot ==> r.0[s] == stored[s]
    ensures r.1.Some? <==> Other(slot) in stored
  {
    var next := stored[slot := frame];
    (next, if Other(slot) in stored then FramesToProcess(next) else None)
  }

  /** Whichever frame arrives first, the first upload only waits and the
      second starts processing with the frames in their own slots. */
  lemma {:induction false} EitherOrderStartsOnce(slot: Slot, a: Frame, b: Frame)
    ensures var (s1, j1) := AfterUpload(map[], slot, a);
            var (s2, j2) := AfterUpload(s1, Other(slot), b);
            j1.None? && j2.Some?
            && j2.value == (if slot == First then (a, b) else (b, a))
  {
    var (s1, j1) := AfterUpload(map[], slot, a);
    var (s2, j2) := AfterUpload(s1, Other(slot), b);
    assert s2[slot] == a && s2[Other(slot)] == b;
    assert BothStored(s2) by {
      assert slot in s2 && Other(slot) in s2;
    }
  }

  /** Uploading the same frame slot again never starts processing on its
      own; the later frame replaces the earlier one. */
  lemma SameSlotWaits(slot: Slot, a: Frame, b: Frame)
    ensures var (s1, j1) := AfterUpload(map[], slot, a);
            var (s2, j2) := AfterUpload(s1, slot, b);
            j1.None? && j2.None? && s2 == map[slot := b]
  {
  }

  /** A callback that starts processing always finds both frames stored, so
      the waiting branch of `process_uploaded_frames` is never taken then. */
  lemma StartedMeansReady(stored: map<Slot, Frame>, slot: Slot, frame: Frame)
    ensures AfterUpload(stored, slot, frame).1.Some? ==> BothStored(AfterUpload(stored, slot, frame).0)
  {
    assert slot in AfterUpload(stored, slot, frame).0.Keys;
    assert slot == First || Other(slot) == First;
  }

  /** Once both frames are stored, each further upload starts processing
      again, with the new frame in its slot. */
  lemma ReuploadRestarts(stored: map<Slot, Frame>, slot: Slot, frame: Frame)
    requires BothStored(stored)
    ensures var (next, job) := AfterUpload(stored, slot, frame);
            job.Some? && (if slot == First then job.value.0 else job.value.1) == frame
  {
    assert Other(slot) == First || Other(slot) == Second;
  }

  /** `frame_storage` of one `frames_to_video` call. */
  class FrameStorage {
    var stored: map<Slot, Frame>

    constructor()
      ensures stored == map[]
    {
      stored := map[];
    }

    /** `process_uploaded_frames` reading the storage. */
    method Process() returns (job: Option<(Frame, Frame)>)
      ensures job.Some? <==> BothStored(stored)
      ensures job.Some? ==> job.value == (stored[First], stored[Second])
    {
      if First !in stored || Second !in stored {
        return None;
      }
      job := Some((stored[First], stored[Second]));
    }

    /** `upload_frame1` (slot `First`) and `upload_frame2` (slot `Second`):
        store the frame, then process if the other frame is already stored. */
    method UploadFrame(slot: Slot, frame: Frame) returns (job: Option<(Frame, Frame)>)
      modifies this
      ensures (stored, job) == AfterUpload(old(stored), slot, frame)
      ensures job.Some? ==> BothStored(stored)
    {
      var otherPresent := Other(slot) in stored;
      stored := stored[slot := frame];
      if otherPresent {
        job := Process();
      } else {
        job := None;
      }
    }
  }
}
