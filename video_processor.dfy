/**
 Transcript acquisition for YouTube links (src/video_processor.py): an existing
 transcript first, speech-to-text on the downloaded audio only when the video has
 none. The transcript service, the downloader and the speech-to-text model are
 outside the model; their outcomes are parameters.
 */
module VideoProcessor {
  import opened Wrappers
  import opened Text
  import opened FileSystem

  /** The file the downloader's audio post-processor writes. */
  const AudioFileMp3 := "temp_audio.mp3"

  /**
   `youtube_url.split("v=")[1].split("&")[0]`, with `None` where indexing `[1]` raises:
   there is an id exactly when the URL contains `v=`, and it never contains `&`.
   */
  function VideoId(url: string): (id: Option<string>)
    ensures id.Some? <==> Contains(url, "v=")
    ensures id.Some? ==> !Contains(id.value, "&")
  {
    var parts := Split(url, "v=");
    SplitSeveralIffContains(url, "v=");
    if |parts| < 2 then None
    else
      SplitPiecesFree(parts[1], "&", 0);
      Some(Split(parts[1], "&")[0])
  }

  /** Position `j` of `rest` is where a video id stops: an `&`, or the start of another `v=`. */
  predicate IdBoundary(rest: string, j: nat)
    requires j < |rest|
  {
    rest[j] == '&' || OccursAt(rest, "v=", j)
  }

  /**
   When the first `v=` of the URL is at index `i`, the video id is the text after it up
   to, not including, the next `&` or the next `v=` (or to the end).
   */
  lemma VideoIdIsTextAfterFirstMarker(url: string, i: nat)
    requires OccursAt(url, "v=", i)
    requires forall j: nat :: j < i ==> !OccursAt(url, "v=", j)
    ensures VideoId(url).Some?
    ensures var rest := url[i + 2..]; var id := VideoId(url).value;
      && StartsWith(rest, id)
      && (forall j: nat :: j < |id| ==> !IdBoundary(rest, j))
      && (|id| == |rest| || IdBoundary(rest, |id|))
  {
    var rest := url[i + 2..];
    var a := SplitFirstPiece(rest, "v=");
    var piece := rest[..a];
    assert |Split(url, "v=")| >= 2 && Split(url, "v=")[1] == piece by {
      assert FindFrom(url, "v=", 0) == Some(i);
      assert Split(url, "v=") == [url[..i]] + Split(rest, "v=");
    }
    var b := SplitFirstPiece(piece, "&");
    var id := piece[..b];
    assert VideoId(url) == Some(id);
    forall j: nat | j < |id|
      ensures !IdBoundary(rest, j)
    {
      assert !OccursAt(piece, "&", j);
      assert piece[j..j + 1] == [rest[j]];
    }
    if b < |piece| {
      assert piece[b..b + 1] == [rest[b]];
    }
  }

  /** What the transcript service's `fetch(video_id)` does: return snippets, raise `NoTranscriptFound`, or raise anything else. */
  datatype FetchOutcome = Fetched(texts: seq<string>) | NoTranscriptFound | FetchFailed

  /** What the audio download does to the disk, and whether it raises. */
  datatype DownloadOutcome = Download(created: set<string>, raised: bool)

  /** What loading the Whisper model and transcribing the mp3 yields: segments, or an exception. */
  datatype WhisperOutcome = Segments(texts: seq<string>) | WhisperFailed

  /** The decision `get_video_transcript` takes: return a value, or hand over to audio transcription. */
  datatype Plan = Finished(transcript: Option<string>) | FallBackToAudio

  function TranscriptPlan(url: string, fetch: string -> FetchOutcome): (p: Plan)
    ensures p == FallBackToAudio <==> VideoId(url).Some? && fetch(VideoId(url).value) == NoTranscriptFound
    ensures VideoId(url).None? ==> p == Finished(None)
    ensures p.Finished? && p.transcript.Some? <==> VideoId(url).Some? && fetch(VideoId(url).value).Fetched?
    ensures p.Finished? && p.transcript.Some? ==>
      p.transcript.value == Join(fetch(VideoId(url).value).texts, " ")
  {
    match VideoId(url)
    case None => Finished(None)
    case Some(id) =>
      match fetch(id)
      case Fetched(texts) => Finished(Some(Join(texts, " ")))
      case NoTranscriptFound => FallBackToAudio
      case FetchFailed => Finished(None)
  }

  /** The value `_transcribe_audio_with_whisper` returns, given the disk before the download. */
  function AudioTranscription(before: set<string>, download: DownloadOutcome, whisper: WhisperOutcome): (r: Option<string>)
    ensures r.Some? <==> !download.raised && AudioFileMp3 in before + download.created && whisper.Segments?
    ensures r.Some? ==> r.value == Concat(whisper.texts)
  {
    if download.raised then None
    else if AudioFileMp3 !in before + download.created then None
    else match whisper
      case WhisperFailed => None
      case Segments(texts) =>
        JoinEmptySeparator(texts);
        Some(Join(texts, ""))
  }

  /**
   `_transcribe_audio_with_whisper`: download, check the mp3 exists, transcribe, and in
   every case remove `temp_audio.mp3` afterwards.
   */
  method TranscribeAudioWithWhisper(disk: Disk, url: string, download: string -> DownloadOutcome, whisper: WhisperOutcome)
    returns (r: Option<string>)
    modifies disk
    ensures r == AudioTranscription(old(disk.paths), download(url), whisper)
    ensures disk.paths == (old(disk.paths) + download(url).created) - {AudioFileMp3}
  {
    var outcome := download(url);
    r := None;
    disk.CreateAll(outcome.created);
    if !outcome.raised {
      var present := disk.Exists(AudioFileMp3);
      if present {
        match whisper {
          case WhisperFailed =>
          case Segments(texts) =>
            r := Some(Join(texts, ""));
        }
      }
    }
    // the `finally` block
    var leftOver := disk.Exists(AudioFileMp3);
    if leftOver {
      disk.Remove(AudioFileMp3);
    }
  }

  /** `get_video_transcript`: the disk is touched only on the fall-back path. */
  method GetVideoTranscript(disk: Disk, url: string, fetch: string -> FetchOutcome,
                            download: string -> DownloadOutcome, whisper: WhisperOutcome)
    returns (r: Option<string>)
    modifies disk
    ensures TranscriptPlan(url, fetch).Finished? ==>
      r == TranscriptPlan(url, fetch).transcript && disk.paths == old(disk.paths)
    ensures TranscriptPlan(url, fetch).FallBackToAudio? ==>
      && r == AudioTranscription(old(disk.paths), download(url), whisper)
      && disk.paths == (old(disk.paths) + download(url).created) - {AudioFileMp3}
  {
    var id := VideoId(url);
    if id.None? {
      // the IndexError from `split("v=")[1]` is caught by `except Exception`
      return None;
    }
    var outcome := fetch(id.value);
    match outcome {
      case Fetched(texts) =>
        r := Some(Join(texts, " "));
      case NoTranscriptFound =>
        r := TranscribeAudioWithWhisper(disk, url, download, whisper);
      case FetchFailed =>
        r := None;
    }
  }
}
