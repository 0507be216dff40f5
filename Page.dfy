/**
 * The client page: the session state that handleGenerate, copyToClipboard and
 * the buttons update, one method per event, and the pull loop over the
 * response body.
 */
module Page {
  import opened Wrappers
  import Js
  import Sequences

  /** The tones the tone buttons offer. */
  const ToneButtons: seq<string> := ["professional", "creative", "bold"]

  /** The progress schedule: on trigger, once the reader is obtained, the cap while streaming, on completion. */
  const ProgressStart: int := 10
  const ProgressReader: int := 40
  const ProgressCap: int := 95
  const ProgressDone: int := 100

  /** The body handleGenerate posts: the source text and tone it read when it started. */
  datatype Request = Request(sourceText: string, tone: string)

  /** A response body as the reader sees it: its chunks, and whether the read after the last one throws. */
  datatype BodyStream = BodyStream(chunks: seq<Js.Bytes>, failsAfter: bool)

  /** What fetch delivers: a rejection, or a response with a status and a body that may be null. */
  datatype Transport = FetchFails | Fetched(status: int, body: Option<BodyStream>)

  datatype ReadResult = Value(value: Js.Bytes) | Done | ReadFails

  /** The n-th call of reader.read(), counting from 0. */
  function Read(body: BodyStream, n: nat): (r: ReadResult)
    ensures r.Value? <==> n < |body.chunks|
    ensures r.Value? ==> r.value == body.chunks[n]
    ensures r.Done? <==> n >= |body.chunks| && !body.failsAfter
  {
    if n < |body.chunks| then Value(body.chunks[n])
    else if body.failsAfter then ReadFails
    else Done
  }

  function Min(a: int, b: int): int {
    if a <= b then a else b
  }

  /** `Math.min(prev + 1, 95)` */
  function Bump(p: int): (r: int)
    ensures p <= ProgressCap ==> p <= r <= ProgressCap
    ensures p < ProgressCap ==> r == p + 1
  {
    Min(p + 1, ProgressCap)
  }

  /** The values the chunk loop gives progress over n chunks, starting from p. */
  function Bumps(p: int, n: nat): (r: seq<int>)
    ensures |r| == n
    decreases n
  {
    if n == 0 then [] else [Bump(p)] + Bumps(Bump(p), n - 1)
  }

  /** Progress after n chunks, starting from p. */
  function AfterBumps(p: int, n: nat): int {
    if n == 0 then p else Bumps(p, n)[n - 1]
  }

  /** The i-th bump lands at min(p + i + 1, 95). */
  lemma {:induction false} BumpsClosedForm(p: int, n: nat, i: nat)
    requires i < n
    ensures Bumps(p, n)[i] == Min(p + i + 1, ProgressCap)
    decreases i
  {
    if i > 0 {
      BumpsClosedForm(Bump(p), n - 1, i - 1);
    }
  }

  /** One more chunk adds one more bump, from where the previous ones left progress. */
  lemma BumpsSnoc(p: int, n: nat)
    ensures Bumps(p, n + 1) == Bumps(p, n) + [Bump(AfterBumps(p, n))]
    ensures AfterBumps(p, n + 1) == Bump(AfterBumps(p, n))
  {
    var s := Bumps(p, n + 1);
    var t := Bumps(p, n) + [Bump(AfterBumps(p, n))];
    forall i | 0 <= i < n + 1
      ensures s[i] == t[i]
    {
      BumpsClosedForm(p, n + 1, i);
      if i < n {
        BumpsClosedForm(p, n, i);
      } else if n > 0 {
        BumpsClosedForm(p, n, n - 1);
      }
    }
  }

  /** Whatever the number of chunks, the bumps never decrease and never pass 95. */
  lemma BumpsMonotoneBounded(p: int, n: nat)
    requires p <= ProgressCap
    ensures forall i :: 0 <= i < n ==> p <= Bumps(p, n)[i] <= ProgressCap
    ensures forall i, j :: 0 <= i <= j < n ==> Bumps(p, n)[i] <= Bumps(p, n)[j]
  {
    forall i | 0 <= i < n
      ensures p <= Bumps(p, n)[i] <= ProgressCap
    {
      BumpsClosedForm(p, n, i);
    }
    forall i, j | 0 <= i <= j < n
      ensures Bumps(p, n)[i] <= Bumps(p, n)[j]
    {
      BumpsClosedForm(p, n, i);
      BumpsClosedForm(p, n, j);
    }
  }

  /** The text handleGenerate shows: each chunk decoded on its own, appended in order. */
  function DecodeAll(chunks: seq<Js.Bytes>, decode: Js.Bytes -> string): string {
    if chunks == [] then "" else DecodeAll(chunks[..|chunks| - 1], decode) + decode(chunks[|chunks| - 1])
  }

  /** The shown text of two runs of chunks is the shown text of the first, then of the second. */
  lemma {:induction false} DecodeAllAppend(a: seq<Js.Bytes>, b: seq<Js.Bytes>, decode: Js.Bytes -> string)
    ensures DecodeAll(a + b, decode) == DecodeAll(a, decode) + DecodeAll(b, decode)
  {
    if b == [] {
      assert a + b == a;
    } else {
      assert (a + b)[..|a + b| - 1] == a + b[..|b| - 1];
      DecodeAllAppend(a, b[..|b| - 1], decode);
    }
  }

  /** The chunks the loop reads before it stops. */
  function ChunksRead(t: Transport): seq<Js.Bytes> {
    if t.Fetched? && t.body.Some? then t.body.value.chunks else []
  }

  /** The reader reported done: the path on which progress reaches 100. */
  predicate ReachesDone(t: Transport) {
    t.Fetched? && t.body.Some? && !t.body.value.failsAfter
  }

  /** Every value handleGenerate gives progress, in order, before its deferred reset. */
  function ProgressSchedule(t: Transport): seq<int> {
    [ProgressStart] + ReaderSchedule(t)
  }

  /** The values progress is given once the request is out: 40 on a response, a bump per chunk, 100 on done. */
  function ReaderSchedule(t: Transport): seq<int> {
    if t.Fetched?
    then [ProgressReader] + Bumps(ProgressReader, |ChunksRead(t)|) + (if ReachesDone(t) then [ProgressDone] else [])
    else []
  }

  /** The schedule starts at 10, goes to 40 once a response is there, and never decreases. */
  lemma ScheduleMonotone(t: Transport)
    ensures ProgressSchedule(t)[0] == ProgressStart
    ensures t.Fetched? ==> ProgressSchedule(t)[1] == ProgressReader
    ensures forall i, j :: 0 <= i <= j < |ProgressSchedule(t)| ==> ProgressSchedule(t)[i] <= ProgressSchedule(t)[j]
  {
    var s := ProgressSchedule(t);
    var n := |ChunksRead(t)|;
    BumpsMonotoneBounded(ProgressReader, n);
    if t.Fetched? {
      var b := Bumps(ProgressReader, n);
      forall i, j | 0 <= i <= j < |s|
        ensures s[i] <= s[j]
      {
        if 2 <= i && j < n + 2 {
          assert s[i] == b[i - 2] && s[j] == b[j - 2];
        } else if 2 <= i < n + 2 {
          assert s[i] == b[i - 2];
        } else if 2 <= j < n + 2 {
          assert s[j] == b[j - 2];
        }
      }
    }
  }

  /** Progress reaches 100 exactly when the reader reported done, and only as the last step. */
  lemma ScheduleHundredOnCompletion(t: Transport)
    ensures (exists i :: 0 <= i < |ProgressSchedule(t)| && ProgressSchedule(t)[i] == ProgressDone) <==> ReachesDone(t)
    ensures ReachesDone(t) ==> ProgressSchedule(t)[|ProgressSchedule(t)| - 1] == ProgressDone
    ensures forall i :: 0 <= i < |ProgressSchedule(t)| - 1 ==> ProgressStart <= ProgressSchedule(t)[i] <= ProgressCap
  {
    var s := ProgressSchedule(t);
    var n := |ChunksRead(t)|;
    BumpsMonotoneBounded(ProgressReader, n);
    var b := Bumps(ProgressReader, n);
    forall i | 0 <= i < |s| && (i < |s| - 1 || !ReachesDone(t))
      ensures ProgressStart <= s[i] <= ProgressCap
    {
      if t.Fetched? && 2 <= i < n + 2 {
        assert s[i] == b[i - 2];
      }
    }
    if ReachesDone(t) {
      assert s[|s| - 1] == ProgressDone;
    }
  }

  /** The phases of one handleGenerate run. */
  datatype Phase = Idle | Requesting | Streaming | Completed | Failed

  class Session {
    var sourceText: string
    var tone: string
    var generatedPost: string
    var isLoading: bool
    var isCopied: bool
    var progress: int
    /** The text last written to the clipboard. */
    var clipboard: string
    /** Deferred `setProgress(0)` calls scheduled and not yet run. */
    var pendingProgressResets: nat
    /** Deferred `setIsCopied(false)` calls scheduled and not yet run. */
    var pendingCopyResets: nat
    /** Where the current handleGenerate run is; isLoading mirrors it. */
    ghost var phase: Phase
    /** Every value given to progress so far, in order. */
    ghost var progressLog: seq<int>

    ghost predicate Valid()
      reads this
    {
      tone in ToneButtons && 0 <= progress <= ProgressDone
      && (isLoading <==> !phase.Idle?)
      && (phase.Requesting? ==> progress <= ProgressStart)
      && (phase.Streaming? ==> progress <= ProgressCap)
      && (phase.Completed? ==> progress == ProgressDone)
      && (phase.Failed? ==> progress <= ProgressCap)
    }

    /** The initial useState values. */
    constructor ()
      ensures Valid()
      ensures sourceText == "" && tone == "professional" && generatedPost == ""
      ensures !isLoading && !isCopied && progress == 0 && clipboard == ""
      ensures pendingProgressResets == 0 && pendingCopyResets == 0
      ensures phase == Idle && progressLog == []
    {
      sourceText, tone, generatedPost := "", "professional", "";
      isLoading, isCopied, progress, clipboard := false, false, 0, "";
      pendingProgressResets, pendingCopyResets := 0, 0;
      phase, progressLog := Idle, [];
    }

    /** The text area's onChange. */
    method SetSourceText(text: string)
      requires Valid()
      modifies this`sourceText
      ensures Valid() && sourceText == text
    {
      sourceText := text;
    }

    /** A tone button's onClick. */
    method SelectTone(t: string)
      requires Valid() && t in ToneButtons
      modifies this`tone
      ensures Valid() && tone == t
    {
      tone := t;
    }

    /** The generate button is enabled unless a run is in flight or there is no source text. */
    predicate GenerateEnabled()
      reads this
    {
      !(isLoading || sourceText == "")
    }

    /** The first three steps of handleGenerate, before the request goes out. */
    method Trigger() returns (request: Request)
      requires Valid() && !isLoading
      modifies this`isLoading, this`generatedPost, this`progress, this`phase, this`progressLog
      ensures Valid() && phase == Requesting
      ensures isLoading && generatedPost == "" && progress == ProgressStart
      ensures progressLog == old(progressLog) + [ProgressStart]
      ensures request == Request(sourceText, tone)
    {
      isLoading := true;
      generatedPost := "";
      progress := ProgressStart;
      phase := Requesting;
      progressLog := progressLog + [ProgressStart];
      request := Request(sourceText, tone);
    }

    /** fetch resolved and the reader was asked for: progress goes to 40 before any read. */
    method ResponseObtained()
      requires Valid() && phase == Requesting
      modifies this`progress, this`phase, this`progressLog
      ensures Valid() && phase == Streaming
      ensures progress == ProgressReader && progressLog == old(progressLog) + [ProgressReader]
    {
      progress := ProgressReader;
      phase := Streaming;
      progressLog := progressLog + [ProgressReader];
    }

    /** One chunk read: its decoding is appended and progress bumped. */
    method ChunkRead(value: Js.Bytes, decode: Js.Bytes -> string)
      requires Valid() && phase == Streaming
      modifies this`generatedPost, this`progress, this`progressLog
      ensures Valid()
      ensures generatedPost == old(generatedPost) + decode(value)
      ensures progress == Bump(old(progress)) && old(progress) <= progress <= ProgressCap
      ensures progressLog == old(progressLog) + [progress]
    {
      generatedPost := generatedPost + decode(value);
      progress := Bump(progress);
      progressLog := progressLog + [progress];
    }

    /** The reader reported done. */
    method StreamDone()
      requires Valid() && phase == Streaming
      modifies this`progress, this`phase, this`progressLog
      ensures Valid() && phase == Completed
      ensures progress == ProgressDone && progressLog == old(progressLog) + [ProgressDone]
    {
      progress := ProgressDone;
      phase := Completed;
      progressLog := progressLog + [ProgressDone];
    }

    /** fetch or a read threw; the catch only logs. */
    method TransportError()
      requires Valid() && (phase == Requesting || phase == Streaming)
      modifies this`phase
      ensures Valid() && phase == Failed
    {
      phase := Failed;
    }

    /** The finally block: loading ends and a reset of progress is scheduled. */
    method Settle()
      requires Valid() && (phase == Completed || phase == Failed)
      modifies this`isLoading, this`pendingProgressResets, this`phase
      ensures Valid() && phase == Idle && !isLoading
      ensures pendingProgressResets == old(pendingProgressResets) + 1
    {
      isLoading := false;
      pendingProgressResets := pendingProgressResets + 1;
      phase := Idle;
    }

    /**
     * A scheduled progress reset runs. It can only run while some await is
     * pending or when no run is in flight, never between synchronous steps.
     */
    method ProgressResetFires()
      requires Valid() && pendingProgressResets > 0
      requires phase == Idle || phase == Requesting || phase == Streaming
      modifies this`progress, this`pendingProgressResets, this`progressLog
      ensures Valid() && progress == 0
      ensures pendingProgressResets == old(pendingProgressResets) - 1
      ensures progressLog == old(progressLog) + [0]
    {
      progress := 0;
      pendingProgressResets := pendingProgressResets - 1;
      progressLog := progressLog + [0];
    }

    /**
     * The `while (true)` loop of handleGenerate: pulls chunks until the reader
     * reports done (then progress goes to 100) or a read throws.
     */
    method PullLoop(body: BodyStream, decode: Js.Bytes -> string)
      requires Valid() && phase == Streaming
      requires generatedPost == "" && progress == ProgressReader
      modifies this`generatedPost, this`progress, this`phase, this`progressLog
      ensures Valid() && phase == (if body.failsAfter then Failed else Completed)
      ensures generatedPost == DecodeAll(body.chunks, decode)
      ensures progressLog == old(progressLog) + Bumps(ProgressReader, |body.chunks|)
                             + (if body.failsAfter then [] else [ProgressDone])
      ensures progress == if body.failsAfter then AfterBumps(ProgressReader, |body.chunks|) else ProgressDone
    {
      var n := 0;
      while true
        invariant 0 <= n <= |body.chunks|
        invariant Valid() && phase == Streaming
        invariant generatedPost == DecodeAll(body.chunks[..n], decode)
        invariant progress == AfterBumps(ProgressReader, n)
        invariant progressLog == old(progressLog) + Bumps(ProgressReader, n)
        decreases |body.chunks| - n
      {
        var result := Read(body, n);
        if result.Done? {
          assert body.chunks[..n] == body.chunks;
          StreamDone();
          break;
        }
        if result.ReadFails? {
          assert body.chunks[..n] == body.chunks;
          TransportError();
          break;
        }
        assert body.chunks[..n + 1] == body.chunks[..n] + [result.value];
        DecodeAllAppend(body.chunks[..n], [result.value], decode);
        assert DecodeAll([result.value], decode) == decode(result.value);
        BumpsSnoc(ProgressReader, n);
        Sequences.AppendAssociative(old(progressLog), Bumps(ProgressReader, n), [Bump(AfterBumps(ProgressReader, n))]);
        ChunkRead(result.value, decode);
        n := n + 1;
      }
    }

    /** The try and catch blocks of handleGenerate: the fetch, then the reader loop. */
    method Exchange(transport: Transport, decode: Js.Bytes -> string)
      requires Valid() && phase == Requesting
      requires generatedPost == "" && progress == ProgressStart
      modifies this`generatedPost, this`progress, this`phase, this`progressLog
      ensures Valid() && (phase == Completed || phase == Failed)
      ensures generatedPost == DecodeAll(ChunksRead(transport), decode)
      ensures progressLog == old(progressLog) + ReaderSchedule(transport)
      ensures progress == ProgressSchedule(transport)[|ProgressSchedule(transport)| - 1]
    {
      if transport.FetchFails? {
        TransportError();
      } else {
        ResponseObtained();
        if transport.body.None? {
          TransportError();
        } else {
          PullLoop(transport.body.value, decode);
        }
      }
    }

    /** handleGenerate run to its end against one outcome of the transport. */
    method Generate(transport: Transport, decode: Js.Bytes -> string) returns (request: Request)
      requires Valid() && !isLoading
      modifies this`isLoading, this`generatedPost, this`progress, this`phase, this`progressLog, this`pendingProgressResets
      ensures Valid() && phase == Idle && !isLoading
      ensures request == Request(sourceText, tone)
      ensures generatedPost == DecodeAll(ChunksRead(transport), decode)
      ensures progressLog == old(progressLog) + ProgressSchedule(transport)
      ensures progress == ProgressSchedule(transport)[|ProgressSchedule(transport)| - 1]
      ensures pendingProgressResets == old(pendingProgressResets) + 1
    {
      request := Trigger();
      Exchange(transport, decode);
      Sequences.AppendAssociative(old(progressLog), [ProgressStart], ReaderSchedule(transport));
      Settle();
    }

    /** The generate button's onClick, behind its disabled guard. */
    method PressGenerate(transport: Transport, decode: Js.Bytes -> string) returns (request: Option<Request>)
      requires Valid()
      modifies this`isLoading, this`generatedPost, this`progress, this`phase, this`progressLog, this`pendingProgressResets
      ensures Valid()
      ensures !old(GenerateEnabled()) ==> request == None && unchanged(this)
      ensures old(GenerateEnabled()) ==>
        request == Some(Request(sourceText, tone))
        && generatedPost == DecodeAll(ChunksRead(transport), decode)
        && progressLog == old(progressLog) + ProgressSchedule(transport)
        && progress == ProgressSchedule(transport)[|ProgressSchedule(transport)| - 1]
        && phase == Idle && !isLoading && pendingProgressResets == old(pendingProgressResets) + 1
    {
      if !GenerateEnabled() {
        return None;
      }
      var r := Generate(transport, decode);
      request := Some(r);
    }

    /** copyToClipboard: writes the current output and shows the confirmation. */
    method Copy()
      requires Valid()
      modifies this`clipboard, this`isCopied, this`pendingCopyResets
      ensures Valid()
      ensures clipboard == generatedPost && isCopied
      ensures pendingCopyResets == old(pendingCopyResets) + 1
    {
      clipboard := generatedPost;
      isCopied := true;
      pendingCopyResets := pendingCopyResets + 1;
    }

    /** The copy button exists only while there is output to copy. */
    method PressCopy()
      requires Valid()
      modifies this`clipboard, this`isCopied, this`pendingCopyResets
      ensures Valid()
      ensures old(generatedPost) == "" ==> unchanged(this)
      ensures old(generatedPost) != "" ==>
        clipboard == generatedPost && isCopied && pendingCopyResets == old(pendingCopyResets) + 1
    {
      if generatedPost != "" {
        Copy();
      }
    }

    /** The deferred `setIsCopied(false)` runs. */
    method CopyResetFires()
      requires Valid() && pendingCopyResets > 0
      modifies this`isCopied, this`pendingCopyResets
      ensures Valid() && !isCopied
      ensures pendingCopyResets == old(pendingCopyResets) - 1
    {
      isCopied := false;
      pendingCopyResets := pendingCopyResets - 1;
    }
  }

  /**
   * A reset scheduled by one run fires while the next run streams: progress
   * falls from 40 to 0 in the middle of that run.
   */
  method StaleProgressReset() returns (before: int, after: int)
    ensures before == ProgressReader && after == 0
  {
    var s := new Session();
    s.SetSourceText("launch notes");
    var first := s.PressGenerate(Fetched(200, Some(BodyStream([], false))), (b: Js.Bytes) => "");
    var second := s.Trigger();
    s.ResponseObtained();
    before := s.progress;
    s.ProgressResetFires();
    after := s.progress;
  }
}
