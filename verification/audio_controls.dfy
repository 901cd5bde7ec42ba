/**
 * The audio source of the dictation app (src/components/AudioControls.tsx):
 * a record/stop toggle over the browser's MediaRecorder, which buffers the
 * recorded chunks and hands one payload to `onAudioInput` when the recorder
 * stops, and a file picker that hands over the chosen file.
 *
 * Device callbacks (`ondataavailable`, `onstop`) are methods that the
 * environment calls, and only once a recorder exists; the outcome of the
 * microphone prompt is passed in; `onAudioInput` is recorded as the list
 * of payloads emitted so far.
 */
module AudioControls {

  /** A Blob or File: its bytes and its declared MIME type. */
  datatype Blob = Blob(bytes: seq<bv8>, mimeType: string)

  /** The type the recorder declares on every recorded payload. */
  const RecordedType: string := "audio/webm"

  /** The bytes of `new Blob(chunks)`: the chunks' bytes, in order. No
      chunks give no bytes, and a single chunk is passed on as it is. */
  function Concat(chunks: seq<Blob>): (r: seq<bv8>)
    ensures chunks == [] ==> r == []
    ensures |chunks| == 1 ==> r == chunks[0].bytes
  {
    if chunks == [] then [] else chunks[0].bytes + Concat(chunks[1..])
  }

  /** Buffering one more chunk appends exactly its bytes to the payload. */
  lemma {:induction false} ConcatSnoc(chunks: seq<Blob>, c: Blob)
    ensures Concat(chunks + [c]) == Concat(chunks) + c.bytes
    decreases |chunks|
  {
    if chunks == [] {
      assert chunks + [c] == [c];
    } else {
      assert (chunks + [c])[1..] == chunks[1..] + [c];
      ConcatSnoc(chunks[1..], c);
    }
  }

  /** The payload of a recording split anywhere is the two parts' payloads
      run together: no chunk is lost, duplicated or moved. */
  lemma {:induction false} ConcatAppend(a: seq<Blob>, b: seq<Blob>)
    ensures Concat(a + b) == Concat(a) + Concat(b)
    decreases |a|
  {
    if a == [] {
      assert a + b == b;
    } else {
      assert (a + b)[1..] == a[1..] + b;
      ConcatAppend(a[1..], b);
    }
  }

  /** Every chunk sits in the payload right after the bytes of the chunks
      that arrived before it. */
  lemma ChunkInPlace(chunks: seq<Blob>, k: nat)
    requires k < |chunks|
    ensures var start := |Concat(chunks[..k])|;
            start + |chunks[k].bytes| <= |Concat(chunks)|
            && Concat(chunks)[start..start + |chunks[k].bytes|] == chunks[k].bytes
  {
    var before, after := chunks[..k], chunks[k + 1..];
    assert chunks == before + ([chunks[k]] + after);
    ConcatAppend(before, [chunks[k]] + after);
    ConcatAppend([chunks[k]], after);
    assert Concat([chunks[k]]) == chunks[k].bytes + Concat([]);
    var start := |Concat(before)|;
    assert Concat(chunks) == Concat(before) + (chunks[k].bytes + Concat(after));
  }

  /** What `getUserMedia` produces: a stream with some tracks, or a refusal
      (permission denied, no device). */
  datatype MicAccess = Granted(trackCount: nat) | Refused

  /** The `state` of a MediaRecorder: 'recording' or 'inactive'. */
  datatype RecorderState = Active | Inactive

  /** One mounted AudioControls component with its recorder and stream. */
  class AudioControl {
    var isRecording: bool
    /** `mediaRecorder.current !== null`. */
    var hasRecorder: bool
    var recorderState: RecorderState
    /** One flag per track of the current recorder's stream: still live? */
    var tracks: array<bool>
    /** `chunks.current`. */
    var chunks: seq<Blob>
    /** Every payload passed to `onAudioInput`, oldest first. */
    var emitted: seq<Blob>

    ghost predicate Valid()
      reads this
    {
      isRecording ==> hasRecorder && recorderState == Active
    }

    /** The initial render: idle, no recorder, empty buffer. */
    constructor ()
      ensures Valid()
      ensures !isRecording && !hasRecorder && chunks == [] && emitted == []
      ensures fresh(tracks)
    {
      isRecording := false;
      hasRecorder := false;
      recorderState := Inactive;
      tracks := new bool[0];
      chunks := [];
      emitted := [];
    }

    /** `startRecording`, once its microphone prompt is answered: on access,
        a new recorder over the new stream, with both handlers installed,
        started; on refusal, nothing, so no handler exists to fire. The flag
        stays down while a prompt is open, so two quick clicks give two
        prompts and this runs once per answer, also while recording. */
    method StartRecording(access: MicAccess)
      requires Valid()
      modifies this
      ensures Valid()
      ensures access.Refused? ==> unchanged(this)
      ensures access.Granted? ==>
        isRecording && hasRecorder && recorderState == Active
        && fresh(tracks) && tracks.Length == access.trackCount
        && (forall i :: 0 <= i < tracks.Length ==> tracks[i])
        && chunks == old(chunks) && emitted == old(emitted)
    {
      match access
      case Refused =>
      case Granted(n) =>
        tracks := new bool[n](_ => true);
        hasRecorder := true;
        recorderState := Active;
        isRecording := true;
    }

    /** `ondataavailable`: the chunk joins the end of the buffer. */
    method OnDataAvailable(data: Blob)
      requires hasRecorder
      modifies this
      ensures chunks == old(chunks) + [data]
      ensures isRecording == old(isRecording) && hasRecorder == old(hasRecorder)
      ensures recorderState == old(recorderState) && tracks == old(tracks)
      ensures emitted == old(emitted)
    {
      chunks := chunks + [data];
    }

    /** `onstop`, fired by a recorder once it has stopped: the buffered
        chunks, concatenated in arrival order and typed audio/webm, go to
        `onAudioInput`; the buffer is emptied. */
    method OnStop()
      requires hasRecorder && recorderState == Inactive
      modifies this
      ensures emitted == old(emitted) + [Blob(Concat(old(chunks)), RecordedType)]
      ensures chunks == []
      ensures isRecording == old(isRecording) && hasRecorder == old(hasRecorder)
      ensures recorderState == old(recorderState) && tracks == old(tracks)
    {
      var blob := Blob(Concat(chunks), RecordedType);
      emitted := emitted + [blob];
      chunks := [];
    }

    /** `stopRecording`: only with a recorder that is recording; then the
        recorder stops, the flag drops, and every track of the stream ends. */
    method StopRecording()
      requires Valid()
      modifies this, tracks
      ensures Valid()
      ensures tracks == old(tracks) && chunks == old(chunks) && emitted == old(emitted)
      ensures hasRecorder == old(hasRecorder)
      ensures !(old(hasRecorder) && old(isRecording)) ==>
        unchanged(this) && unchanged(tracks)
      ensures old(hasRecorder) && old(isRecording) ==>
        !isRecording && recorderState == Inactive
        && forall i :: 0 <= i < tracks.Length ==> !tracks[i]
    {
      if hasRecorder && isRecording {
        recorderState := Inactive;
        isRecording := false;
        var i := 0;
        while i < tracks.Length
          modifies tracks
          invariant 0 <= i <= tracks.Length
          invariant forall j :: 0 <= j < i ==> !tracks[j]
        {
          tracks[i] := false;
          i := i + 1;
        }
      }
    }

    /** The record button: stop while recording, start otherwise. */
    method ToggleRecording(access: MicAccess)
      requires Valid()
      modifies this, tracks
      ensures Valid()
      ensures old(isRecording) ==>
        (!isRecording && recorderState == Inactive && hasRecorder
         && tracks == old(tracks)
         && forall i :: 0 <= i < tracks.Length ==> !tracks[i])
      ensures !old(isRecording) && access.Refused? ==> unchanged(this)
      ensures !old(isRecording) && access.Granted? ==>
        (isRecording && hasRecorder && recorderState == Active
         && fresh(tracks) && tracks.Length == access.trackCount
         && forall i :: 0 <= i < tracks.Length ==> tracks[i])
      ensures chunks == old(chunks) && emitted == old(emitted)
    {
      if isRecording {
        StopRecording();
      } else {
        StartRecording(access);
      }
    }

    /** `handleFileUpload`: no file, nothing; otherwise the first file's
        bytes, typed as that file declares, go to `onAudioInput`. */
    method HandleFileUpload(files: seq<Blob>)
      modifies this
      ensures files == [] ==> emitted == old(emitted)
      ensures files != [] ==> emitted == old(emitted) + [Blob(files[0].bytes, files[0].mimeType)]
      ensures isRecording == old(isRecording) && hasRecorder == old(hasRecorder)
      ensures recorderState == old(recorderState) && tracks == old(tracks)
      ensures chunks == old(chunks)
    {
      if files != [] {
        var file := files[0];
        emitted := emitted + [Blob(file.bytes, file.mimeType)];
      }
    }
  }

  /** Two clicks before the first prompt is answered, both answered with
      one track each, then stop: `mediaRecorder.current` holds only the
      second recorder, so stopping ends the second stream's track and the
      first stream's track stays live. */
  method SecondPromptLeaksFirstStream() returns (firstLive: bool, secondLive: bool)
    ensures firstLive && !secondLive
  {
    var c := new AudioControl();
    c.StartRecording(Granted(1));
    var first := c.tracks;
    c.StartRecording(Granted(1));
    var second := c.tracks;
    c.ToggleRecording(Refused);
    firstLive, secondLive := first[0], second[0];
  }

  /** One recording from a freshly mounted component: press record, receive
      the device's chunks, press stop, receive the stop event. Returns what
      reached `onAudioInput`. */
  method RecordOnce(access: MicAccess, data: seq<Blob>) returns (payloads: seq<Blob>)
    ensures access.Granted? ==> payloads == [Blob(Concat(data), RecordedType)]
    ensures access.Refused? ==> payloads == []
  {
    var c := new AudioControl();
    c.ToggleRecording(access);
    if c.isRecording {
      var i := 0;
      while i < |data|
        invariant 0 <= i <= |data|
        invariant c.Valid() && c.isRecording && c.emitted == [] && fresh(c.tracks)
        invariant c.chunks == data[..i]
      {
        c.OnDataAvailable(data[i]);
        assert data[..i + 1] == data[..i] + [data[i]];
        i := i + 1;
      }
      assert data[..|data|] == data;
      c.ToggleRecording(access);
      c.OnStop();
    }
    payloads := c.emitted;
  }
}
