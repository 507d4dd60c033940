/** The upload panel: which file is selected, whether a compressed copy exists,
    and the 24 MiB rule that decides when compression is offered and when
    transcription may start. The ffmpeg run, the fetches and the toasts are
    outside the model; their results are parameters. */
module UploadAudio {
  import opened Wrappers

  /** A browser `File`, as far as the panel looks at it. */
  datatype AudioFile = AudioFile(name: string, size: nat)

  /** 24 MiB in bytes. */
  const LimitBytes: nat := 25165824

  /** `getFileSizeMB`: the size in MiB, 0 for no file. Dividing an integer byte
      count by 2^20 is exact, so the real quotient is the floating-point one. */
  function FileSizeMB(f: Option<AudioFile>): (mb: real)
    ensures mb >= 0.0
    ensures mb > 24.0 <==> f.Some? && f.value.size > LimitBytes
  {
    if f.Some? then f.value.size as real / 1048576.0 else 0.0
  }

  /** `isCompressionNeeded`. */
  function CompressionNeeded(selected: Option<AudioFile>): (r: bool)
    ensures r <==> selected.Some? && selected.value.size > LimitBytes
  {
    selected.Some? && FileSizeMB(selected) > 24.0
  }

  /** `isTranscribeDisabled`: busy, or the selection is too large and there is no
      compressed copy small enough to send in its place. */
  function TranscribeDisabled(selected: Option<AudioFile>, compressed: Option<AudioFile>,
                              compressing: bool, transcribing: bool): (r: bool)
    ensures r <==> compressing || transcribing
                   || (selected.Some? && selected.value.size > LimitBytes
                       && (compressed.None? || compressed.value.size > LimitBytes))
  {
    (selected.Some? && FileSizeMB(selected) > 24.0 && (compressed.None? || FileSizeMB(compressed) > 24.0))
    || compressing || transcribing
  }

  /** `compressedFile || selectedFile`: the compressed copy takes precedence. */
  function FileToUpload(selected: Option<AudioFile>, compressed: Option<AudioFile>): (f: Option<AudioFile>)
    ensures f.None? <==> selected.None? && compressed.None?
    ensures compressed.Some? ==> f == compressed
    ensures compressed.None? ==> f == selected
  {
    if compressed.Some? then compressed else selected
  }

  /** The red "File size exceeds 24 MB" note under the button. */
  function SizeWarningShown(selected: Option<AudioFile>, compressed: Option<AudioFile>,
                            compressing: bool, transcribing: bool): (r: bool)
    ensures r ==> TranscribeDisabled(selected, compressed, compressing, transcribing)
    ensures r ==> selected.Some? && FileToUpload(selected, compressed).value.size > LimitBytes
  {
    TranscribeDisabled(selected, compressed, compressing, transcribing)
    && selected.Some? && FileSizeMB(FileToUpload(selected, compressed)) > 24.0
  }

  /** While the panel is idle, the note shows exactly when the selection is too
      large and so is the file that would be sent. */
  lemma IdleWarning(selected: Option<AudioFile>, compressed: Option<AudioFile>)
    ensures SizeWarningShown(selected, compressed, false, false)
        <==> CompressionNeeded(selected) && FileToUpload(selected, compressed).value.size > LimitBytes
  {
  }

  /** An idle panel with a selection lets transcription start exactly when the
      file that would be sent is within the limit, provided a compressed copy
      is never larger than the selection it was made from. */
  lemma IdleTranscribeAllowed(selected: AudioFile, compressed: Option<AudioFile>)
    requires compressed.Some? ==> compressed.value.size <= selected.size
    ensures !TranscribeDisabled(Some(selected), compressed, false, false)
        <==> FileToUpload(Some(selected), compressed).value.size <= LimitBytes
  {
  }

  /** The form posted to `/api/transcribe`. */
  datatype UploadForm = UploadForm(audio: AudioFile, fullPath: string)

  class Uploader {
    var selectedFile: Option<AudioFile>
    var compressedFile: Option<AudioFile>
    var isCompressing: bool
    var isTranscribing: bool

    constructor ()
      ensures selectedFile == None && compressedFile == None
      ensures !isCompressing && !isTranscribing
    {
      selectedFile := None;
      compressedFile := None;
      isCompressing := false;
      isTranscribing := false;
    }

    /** `handleFileChange`: the first chosen file becomes the selection and any
        compressed copy is dropped; choosing nothing changes nothing. */
    method HandleFileChange(files: seq<AudioFile>)
      modifies this
      ensures |files| > 0 ==> selectedFile == Some(files[0]) && compressedFile == None
      ensures |files| == 0 ==> selectedFile == old(selectedFile) && compressedFile == old(compressedFile)
      ensures isCompressing == old(isCompressing) && isTranscribing == old(isTranscribing)
    {
      if |files| > 0 {
        selectedFile := Some(files[0]);
        compressedFile := None;
      }
    }

    /** `handleMonitoredFileSelect`: `blobSize` is the size of the fetched file
        when the response was ok, None otherwise. */
    method HandleMonitoredFileSelect(fileName: string, blobSize: Option<nat>)
      modifies this
      ensures blobSize.Some? ==> selectedFile == Some(AudioFile(fileName, blobSize.value)) && compressedFile == None
      ensures blobSize.None? ==> selectedFile == old(selectedFile) && compressedFile == old(compressedFile)
      ensures isCompressing == old(isCompressing) && isTranscribing == old(isTranscribing)
    {
      if blobSize.Some? {
        selectedFile := Some(AudioFile(fileName, blobSize.value));
        compressedFile := None;
      }
    }

    /** `compressAudio` up to its first await: with no selection it returns at
        once; otherwise it marks compression as running and works on the file
        selected now, which it returns. */
    method BeginCompression() returns (job: Option<AudioFile>)
      modifies this
      ensures job == old(selectedFile)
      ensures isCompressing == (old(isCompressing) || job.Some?)
      ensures selectedFile == old(selectedFile) && compressedFile == old(compressedFile)
      ensures isTranscribing == old(isTranscribing)
    {
      job := selectedFile;
      if job.Some? {
        isCompressing := true;
      }
    }

    /** The rest of `compressAudio`: `output` is the size of the compressed file
        when ffmpeg succeeded. Success or failure, compression is no longer
        running afterwards. */
    method FinishCompression(job: AudioFile, output: Option<nat>)
      modifies this
      ensures !isCompressing
      ensures output.Some? ==> compressedFile == Some(AudioFile("compressed_" + job.name, output.value))
      ensures output.None? ==> compressedFile == old(compressedFile)
      ensures selectedFile == old(selectedFile) && isTranscribing == old(isTranscribing)
    {
      if output.Some? {
        compressedFile := Some(AudioFile("compressed_" + job.name, output.value));
      }
      isCompressing := false;
    }

    /** `handleTranscribe` up to the fetch: the form to send, or nothing when
        neither a compressed nor a selected file exists. */
    method BeginTranscribe() returns (form: Option<UploadForm>)
      modifies this
      ensures form.None? <==> old(compressedFile).None? && old(selectedFile).None?
      ensures form.Some? ==> form.value.audio == FileToUpload(old(selectedFile), old(compressedFile)).value
      ensures form.Some? ==> form.value.fullPath == form.value.audio.name
      ensures isTranscribing == (old(isTranscribing) || form.Some?)
      ensures selectedFile == old(selectedFile) && compressedFile == old(compressedFile)
      ensures isCompressing == old(isCompressing)
    {
      var upload := FileToUpload(selectedFile, compressedFile);
      if upload.None? {
        return None;
      }
      isTranscribing := true;
      form := Some(UploadForm(upload.value, upload.value.name));
    }

    /** The end of `handleTranscribe`. `responded` says whether `fetch` resolved,
        which it does for any HTTP answer, a 400 or a 500 included, since
        `response.ok` is never read; it rejects only when no answer arrives.
        The parent is notified exactly when an answer arrived, and in every
        case the `finally` clears the panel and ends the transcription. */
    method FinishTranscribe(responded: bool) returns (notifyParent: bool)
      modifies this
      ensures notifyParent == responded
      ensures !isTranscribing && selectedFile == None && compressedFile == None
      ensures isCompressing == old(isCompressing)
    {
      notifyParent := responded;
      isTranscribing := false;
      selectedFile := None;
      compressedFile := None;
    }
  }

  /** A 30 MiB recording cannot be sent until it is compressed; its 5 MiB copy is
      then sent under the copy's name, and the panel ends empty. */
  method CompressBeforeUpload()
  {
    var panel := new Uploader();
    panel.HandleFileChange([AudioFile("standup.wav", 31457280)]);
    assert TranscribeDisabled(panel.selectedFile, panel.compressedFile, panel.isCompressing, panel.isTranscribing);
    var job := panel.BeginCompression();
    panel.FinishCompression(job.value, Some(5242880));
    assert !TranscribeDisabled(panel.selectedFile, panel.compressedFile, panel.isCompressing, panel.isTranscribing);
    var form := panel.BeginTranscribe();
    assert "compressed_" + "standup.wav" == "compressed_standup.wav";
    assert form == Some(UploadForm(AudioFile("compressed_standup.wav", 5242880), "compressed_standup.wav"));
    var notify := panel.FinishTranscribe(false);
    assert panel.selectedFile == None && !notify;
  }
}
