/** The recording side of the chat: the chunks a MediaRecorder delivers, the handler that keeps
    them, and the audio blob assembled from them when the recorder stops. A chunk and a blob are
    modelled by their size in bytes. */
module Recording {

  /** The MIME type the recorder's stop handler gives the assembled blob. */
  const RecordedType: string := "audio/webm"

  datatype Blob = Blob(size: nat, mimeType: string)

  /** Total size of a sequence of chunks, summed from the back as they were pushed. */
  function Sum(chunks: seq<nat>): nat {
    if chunks == [] then 0 else Sum(chunks[..|chunks| - 1]) + chunks[|chunks| - 1]
  }

  /** The sizes the data handler keeps from the data events of one recording, in arrival order:
      every event of non-zero size, and nothing else. */
  function Kept(events: seq<nat>): (r: seq<nat>)
    ensures |r| <= |events|
    ensures forall i :: 0 <= i < |r| ==> r[i] > 0
  {
    if events == [] then []
    else
      var last := events[|events| - 1];
      assert events == events[..|events| - 1] + [last];
      Kept(events[..|events| - 1]) + (if last > 0 then [last] else [])
  }

  /** Keeping is a filter, so it distributes over a split of the event stream: the chunks of a
      later event always come after those of an earlier one. */
  lemma {:induction false} KeptConcat(a: seq<nat>, b: seq<nat>)
    ensures Kept(a + b) == Kept(a) + Kept(b)
    decreases |b|
  {
    if b == [] {
      assert a + b == a;
    } else {
      var last := b[|b| - 1];
      assert (a + b)[..|a + b| - 1] == a + b[..|b| - 1];
      KeptConcat(a, b[..|b| - 1]);
    }
  }

  /** Dropping the zero-size events does not change the total size. */
  lemma {:induction false} SumKept(events: seq<nat>)
    ensures Sum(Kept(events)) == Sum(events)
    decreases |events|
  {
    if events != [] {
      var init, last := events[..|events| - 1], events[|events| - 1];
      assert events == init + [last];
      SumKept(init);
      SumAppend(Kept(init), if last > 0 then [last] else []);
    }
  }

  lemma {:induction false} SumAppend(a: seq<nat>, b: seq<nat>)
    ensures Sum(a + b) == Sum(a) + Sum(b)
    decreases |b|
  {
    if b == [] {
      assert a + b == a;
    } else {
      assert (a + b)[..|a + b| - 1] == a + b[..|b| - 1];
      SumAppend(a, b[..|b| - 1]);
    }
  }

  /** A sum of positive sizes is zero only for no chunks at all. */
  lemma {:induction false} SumPositive(chunks: seq<nat>)
    requires forall i :: 0 <= i < |chunks| ==> chunks[i] > 0
    ensures Sum(chunks) == 0 <==> chunks == []
  {
    if chunks != [] {
      assert chunks[|chunks| - 1] > 0;
    }
  }

  /** `new Blob(chunks, { type: 'audio/webm' })` in the recorder's stop handler: a blob of the
      kept chunks' total size, empty exactly when no chunk was kept. */
  function BlobOf(chunks: seq<nat>): (b: Blob)
    requires forall i :: 0 <= i < |chunks| ==> chunks[i] > 0
    ensures b.mimeType == RecordedType
    ensures b.size == 0 <==> chunks == []
  {
    SumPositive(chunks);
    Blob(Sum(chunks), RecordedType)
  }

  /** No chunk is kept exactly when every data event had size zero. */
  lemma {:induction false} KeptEmpty(events: seq<nat>)
    ensures Kept(events) == [] <==> forall i :: 0 <= i < |events| ==> events[i] == 0
    decreases |events|
  {
    if events != [] {
      var init := events[..|events| - 1];
      KeptEmpty(init);
      if Kept(events) == [] {
        forall i | 0 <= i < |events| ensures events[i] == 0 {
          if i < |init| { assert events[i] == init[i]; }
        }
      }
    }
  }

  /** The blob of a whole recording holds every byte the recorder delivered, and it is empty
      exactly when every data event had size zero (or there was none). */
  lemma RecordingBlob(events: seq<nat>)
    ensures BlobOf(Kept(events)).size == Sum(events)
    ensures BlobOf(Kept(events)).size == 0 <==> forall i :: 0 <= i < |events| ==> events[i] == 0
  {
    SumKept(events);
    KeptEmpty(events);
  }

  /** The MediaRecorder of one recording together with the `chunks` array its handlers close
      over. Only the data handler writes `chunks`. */
  class Recorder {
    /** The sizes of the chunks kept so far, in arrival order. */
    var chunks: seq<nat>
    /** Whether the recorder is still capturing (`recorder.start()` was called, `stop()` not yet). */
    var recording: bool

    ghost predicate Valid()
      reads this
    {
      forall i :: 0 <= i < |chunks| ==> chunks[i] > 0
    }

    /** `new MediaRecorder(stream)` with an empty `chunks` array, followed by `recorder.start()`. */
    constructor ()
      ensures Valid() && chunks == [] && recording
    {
      chunks := [];
      recording := true;
    }

    /** `recorder.ondataavailable`: a chunk is pushed only when its size is non-zero. */
    method OnDataAvailable(size: nat)
      requires Valid()
      modifies this
      ensures Valid()
      ensures chunks == old(chunks) + (if size > 0 then [size] else [])
      ensures recording == old(recording)
    {
      if size > 0 {
        chunks := chunks + [size];
      }
    }

    /** The browser delivering a queue of data events, in order, to the data handler: the chunks
        grow by exactly the kept sizes of the queue. */
    method DeliverAll(sizes: seq<nat>)
      requires Valid()
      modifies this
      ensures Valid()
      ensures chunks == old(chunks) + Kept(sizes)
      ensures recording == old(recording)
    {
      var i := 0;
      while i < |sizes|
        invariant 0 <= i <= |sizes|
        invariant Valid() && recording == old(recording)
        invariant chunks == old(chunks) + Kept(sizes[..i])
      {
        OnDataAvailable(sizes[i]);
        assert sizes[..i + 1][..i] == sizes[..i];
        i := i + 1;
      }
      assert sizes[..i] == sizes;
    }

    /** `mediaRecorder.stop()`: capture ends; the chunks already kept stay. */
    method Stop()
      requires Valid()
      modifies this
      ensures Valid()
      ensures !recording && chunks == old(chunks)
    {
      recording := false;
    }
  }
}
