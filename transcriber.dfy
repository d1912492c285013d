/** The streaming transcriber's end-of-speech detection: speech chunks are
    buffered until enough silent chunks in a row follow, and then the buffered
    speech is transcribed as one segment. The voice-activity verdict for each
    chunk and the speech-to-text model are parameters. */
module Transcription {
  import opened Wrappers
  import PySeq

  type Chunk = seq<bv8>

  /** `b"".join(chunks)`. */
  function Flatten(chunks: seq<Chunk>): (r: Chunk)
    ensures chunks == [] ==> r == []
  {
    if chunks == [] then [] else chunks[0] + Flatten(chunks[1..])
  }

  /** Joining one chunk more appends its bytes. */
  lemma {:induction false} FlattenAppend(chunks: seq<Chunk>, c: Chunk)
    ensures Flatten(chunks + [c]) == Flatten(chunks) + c
  {
    if chunks == [] {
      assert [] + [c] == [c];
    } else {
      FlattenAppend(chunks[1..], c);
      PySeq.TailConcat(chunks, [c]);
    }
  }

  /** The joined segment holds every byte of every chunk, in order. */
  lemma {:induction false} FlattenConcat(a: seq<Chunk>, b: seq<Chunk>)
    ensures Flatten(a + b) == Flatten(a) + Flatten(b)
  {
    if a == [] {
      assert a + b == b;
    } else {
      FlattenConcat(a[1..], b);
      PySeq.TailConcat(a, b);
    }
  }

  class Transcriber {
    const sampleRate: int
    const silenceChunksNeeded: int
    /** The speech chunks of the utterance in progress. */
    var audioBuffer: seq<Chunk>
    var isSpeaking: bool
    var silenceChunksCounter: int
    /** How often the voice-activity detector's state was reset. */
    var vadResets: nat

    /** The detector is speaking exactly when speech is buffered; the silence
        counter is zero outside an utterance, and inside one it has not yet
        reached the number of silent chunks that end it. */
    predicate Valid()
      reads this
    {
      (isSpeaking <==> audioBuffer != [])
      && (!isSpeaking ==> silenceChunksCounter == 0)
      && 0 <= silenceChunksCounter
      && (silenceChunksCounter == 0 || silenceChunksCounter < silenceChunksNeeded)
    }

    /** `Transcriber(...)`; the detector threshold and the model path only
        configure the detector and the model, which are parameters here. */
    constructor(sampleRate: int, silenceChunksNeeded: int)
      ensures Valid()
      ensures this.sampleRate == sampleRate && this.silenceChunksNeeded == silenceChunksNeeded
      ensures audioBuffer == [] && !isSpeaking && silenceChunksCounter == 0 && vadResets == 0
    {
      this.sampleRate := sampleRate;
      this.silenceChunksNeeded := silenceChunksNeeded;
      audioBuffer := [];
      isSpeaking := false;
      silenceChunksCounter := 0;
      vadResets := 0;
    }

    /** `process(chunk)`, where `isSpeech` is the detector's verdict on the
        chunk and `stt` the model's transcription of a joined segment. */
    method Process(chunk: Chunk, isSpeech: bool, stt: Chunk -> string) returns (transcription: Option<string>)
      requires Valid()
      modifies this
      ensures Valid()
      ensures isSpeech ==>
        transcription == None && isSpeaking && silenceChunksCounter == 0
        && audioBuffer == old(audioBuffer) + [chunk] && vadResets == old(vadResets)
      ensures !isSpeech && !old(isSpeaking) ==>
        transcription == None && !isSpeaking && audioBuffer == old(audioBuffer)
        && silenceChunksCounter == old(silenceChunksCounter) && vadResets == old(vadResets)
      ensures !isSpeech && old(isSpeaking) && old(silenceChunksCounter) + 1 < silenceChunksNeeded ==>
        transcription == None && isSpeaking && audioBuffer == old(audioBuffer)
        && silenceChunksCounter == old(silenceChunksCounter) + 1 && vadResets == old(vadResets)
      ensures !isSpeech && old(isSpeaking) && old(silenceChunksCounter) + 1 >= silenceChunksNeeded ==>
        transcription == Some(stt(Flatten(old(audioBuffer))))
        && !isSpeaking && audioBuffer == [] && silenceChunksCounter == 0 && vadResets == old(vadResets) + 1
      ensures transcription.Some? <==>
        !isSpeech && old(isSpeaking) && old(silenceChunksCounter) + 1 >= silenceChunksNeeded
    {
      transcription := None;
      if isSpeech {
        isSpeaking := true;
        silenceChunksCounter := 0;
        audioBuffer := audioBuffer + [chunk];
      } else {
        if isSpeaking {
          silenceChunksCounter := silenceChunksCounter + 1;
          if silenceChunksCounter >= silenceChunksNeeded {
            var speechSegment := Flatten(audioBuffer);
            transcription := Some(stt(speechSegment));
            audioBuffer := [];
            isSpeaking := false;
            silenceChunksCounter := 0;
            vadResets := vadResets + 1;
          }
        }
      }
    }
  }
}
