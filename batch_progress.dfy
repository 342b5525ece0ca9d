/**
 * The web application's batch bookkeeping: the progress record a processing run keeps per session,
 * the server-sent progress stream that hands it out, and the hourly expiry of uploads and outputs.
 * The three dictionaries the server keeps in memory are the fields of AppState. Running the scaler
 * on one file is an oracle (Scaler), the wall clock is a parameter, and uuid4 for output ids is a counter.
 */
module BatchProgress {
  import opened Wrappers
  import Text

  type FileId = string
  type SessionId = string

  /** An entry of uploaded_files (the parsed GPX and its preview are not needed here). */
  datatype Upload = Upload(filename: string, content: string, uploadTime: real)

  /** An entry of processed_files. */
  datatype StoredFile = StoredFile(filePath: string, originalFilename: string, outputFormat: string, processTime: real)

  datatype Status = Starting | Processing | Completed | Failed

  /** One entry of a progress record's 'files' dictionary; error is present only for failures. */
  datatype FileProgress = FileProgress(status: Status, filename: string, error: Option<string>)

  /** One entry of the 'processed_files' list reported when the batch completes. */
  datatype ProcessedFile = ProcessedFile(id: nat, filename: string, originalFilename: string, format: string)

  /** processing_progress[session_id]: current_filename and processed_files appear only once set. */
  datatype Progress = Progress(status: Status, totalFiles: nat, currentFile: nat, currentFilename: Option<string>,
                               files: map<FileId, FileProgress>, processedFiles: Option<seq<ProcessedFile>>)

  /** The first file the output folder holds after a run of the scaler. */
  datatype OutputFile = OutputFile(path: string, name: string)

  /** What one call of scale_gpx_file does: raise, or return its success flag, with the output found. */
  datatype Outcome = Raised(message: string) | Returned(success: bool, output: Option<OutputFile>)

  /** The scaler run on the i-th requested file. */
  type Scaler = (nat, FileId) -> Outcome

  /** time.time() when the i-th requested file has been processed. */
  type Clock = nat -> real

  /** One /process request: the requested ids, the uploads they refer to, and the (lower-cased) output format. */
  datatype Job = Job(fileIds: seq<FileId>, uploads: map<FileId, Upload>, scaler: Scaler, clock: Clock, format: string)

  const NoOutputError := "No output file generated"
  const ProcessingFailedError := "Processing failed"
  const MaxAge := 3600.0

  // ---------------------------------------------------------------- one batch

  /** The record process_files stores before the worker starts. */
  function Initial(fileIds: seq<FileId>): Progress
  {
    Progress(Starting, |fileIds|, 0, None, map[], None)
  }

  /** The scaler returned success and the output folder holds a file. */
  predicate Produces(o: Outcome)
  {
    o.Returned? && o.success && o.output.Some?
  }

  /** A finished file is completed with no error or failed with one. */
  predicate Settled(f: FileProgress)
  {
    (f.status == Completed && f.error.None?) || (f.status == Failed && f.error.Some?)
  }

  /** The entry a file gets once the scaler has run on it. */
  function Verdict(o: Outcome, filename: string): (f: FileProgress)
    ensures f.filename == filename && Settled(f)
    ensures f.status == Completed <==> Produces(o)
    ensures o.Raised? ==> f.error == Some(o.message)
  {
    if o.Raised? then FileProgress(Failed, filename, Some(o.message))
    else if !o.success then FileProgress(Failed, filename, Some(ProcessingFailedError))
    else if o.output.None? then FileProgress(Failed, filename, Some(NoOutputError))
    else FileProgress(Completed, filename, None)
  }

  /** The state a batch threads through its files: the session's record, processed_files, the id counter, the report list. */
  datatype Run = Run(progress: Progress, processed: map<nat, StoredFile>, nextId: nat, collected: seq<ProcessedFile>)

  /** Every stored output has an id below the counter, so a new id never overwrites one. */
  predicate FreshIds(processed: map<nat, StoredFile>, nextId: nat)
  {
    forall k :: k in processed ==> k < nextId
  }

  /** The update made when a file starts: status, position, name, and a 'processing' entry. */
  function Started(p: Progress, i: nat, id: FileId, filename: string): Progress
  {
    p.(status := Processing, currentFile := i + 1, currentFilename := Some(filename),
       files := p.files[id := FileProgress(Processing, filename, None)])
  }

  /** The i-th requested id: skipped when it was never uploaded, else started, run and settled. */
  function Step(r: Run, job: Job, i: nat): Run
    requires i < |job.fileIds|
  {
    var id := job.fileIds[i];
    if id !in job.uploads then r
    else
      var name := job.uploads[id].filename;
      var o := job.scaler(i, id);
      var p := Started(r.progress, i, id, name);
      var settled := p.(files := p.files[id := Verdict(o, name)]);
      if Produces(o) then
        Run(settled, r.processed[r.nextId := StoredFile(o.output.value.path, name, job.format, job.clock(i))], r.nextId + 1,
            r.collected + [ProcessedFile(r.nextId, o.output.value.name, name, Text.Upper(job.format))])
      else
        Run(settled, r.processed, r.nextId, r.collected)
  }

  /** The first n requested ids, in order. */
  function Steps(r0: Run, job: Job, n: nat): Run
    requires n <= |job.fileIds|
  {
    if n == 0 then r0 else Step(Steps(r0, job, n - 1), job, n - 1)
  }

  lemma StepsNext(r0: Run, job: Job, i: nat)
    requires i < |job.fileIds|
    ensures Steps(r0, job, i + 1) == Step(Steps(r0, job, i), job, i)
  {
  }

  /** The last update of the worker: the batch is completed and reports what it produced. */
  function Finish(r: Run): Run
  {
    r.(progress := r.progress.(status := Completed, processedFiles := Some(r.collected)))
  }

  /** process_files followed by its worker, from the given processed_files and id counter. */
  function Batch(job: Job, processed: map<nat, StoredFile>, nextId: nat): Run
  {
    Finish(Steps(Run(Initial(job.fileIds), processed, nextId, []), job, |job.fileIds|))
  }

  /** The requested ids among the first n that were uploaded: the ones the worker does not skip. */
  function Admitted(job: Job, n: nat): set<FileId>
    requires n <= |job.fileIds|
  {
    set j | 0 <= j < n && job.fileIds[j] in job.uploads :: job.fileIds[j]
  }

  /** How many of the first n requested files the scaler turned into an output. */
  function Produced(job: Job, n: nat): nat
    requires n <= |job.fileIds|
  {
    if n == 0 then 0
    else Produced(job, n - 1) + (if job.fileIds[n - 1] in job.uploads && Produces(job.scaler(n - 1, job.fileIds[n - 1])) then 1 else 0)
  }

  lemma AdmittedStep(job: Job, n: nat)
    requires 0 < n <= |job.fileIds|
    ensures Admitted(job, n) == Admitted(job, n - 1) + (if job.fileIds[n - 1] in job.uploads then {job.fileIds[n - 1]} else {})
  {
    var id := job.fileIds[n - 1];
    if id in job.uploads {
      assert id in Admitted(job, n);
    }
    forall x | x in Admitted(job, n)
      ensures x in Admitted(job, n - 1) || x == id
    {
      var j :| 0 <= j < n && job.fileIds[j] in job.uploads && job.fileIds[j] == x;
      if j < n - 1 {
        assert x in Admitted(job, n - 1);
      }
    }
  }

  /**
   * The files dictionary gains exactly the uploaded ids among those processed, and every id the worker
   * did not reach keeps its entry.
   */
  lemma {:induction false} StepsFiles(r0: Run, job: Job, n: nat)
    requires n <= |job.fileIds|
    ensures Steps(r0, job, n).progress.files.Keys == r0.progress.files.Keys + Admitted(job, n)
    ensures Steps(r0, job, n).progress.totalFiles == r0.progress.totalFiles
    ensures forall id :: id in r0.progress.files && id !in Admitted(job, n) ==>
              Steps(r0, job, n).progress.files[id] == r0.progress.files[id]
  {
    if n > 0 {
      StepsFiles(r0, job, n - 1);
      AdmittedStep(job, n);
    }
  }

  /** Every entry the worker writes is settled once its file is done: no entry is left 'processing'. */
  lemma {:induction false} StepsSettled(r0: Run, job: Job, n: nat)
    requires n <= |job.fileIds|
    requires forall id :: id in r0.progress.files ==> Settled(r0.progress.files[id])
    ensures forall id :: id in Steps(r0, job, n).progress.files ==> Settled(Steps(r0, job, n).progress.files[id])
  {
    if n > 0 {
      StepsSettled(r0, job, n - 1);
    }
  }

  /** An id requested at position j and not again later ends with the verdict on its own run. */
  lemma {:induction false} StepsLatest(r0: Run, job: Job, n: nat, j: nat)
    requires j < n <= |job.fileIds|
    requires job.fileIds[j] in job.uploads
    requires forall k :: j < k < n ==> job.fileIds[k] != job.fileIds[j]
    ensures var id := job.fileIds[j];
      id in Steps(r0, job, n).progress.files
      && Steps(r0, job, n).progress.files[id] == Verdict(job.scaler(j, id), job.uploads[id].filename)
  {
    if j < n - 1 {
      StepsLatest(r0, job, n - 1, j);
    }
  }

  /**
   * current_file is one past the last uploaded id processed so far, and current_filename is its name;
   * when none was, both are as they started.
   */
  lemma {:induction false} StepsCursor(r0: Run, job: Job, n: nat)
    requires n <= |job.fileIds|
    ensures var p := Steps(r0, job, n).progress;
      if Admitted(job, n) == {} then p.currentFile == r0.progress.currentFile && p.currentFilename == r0.progress.currentFilename
      else
        0 < p.currentFile <= n && job.fileIds[p.currentFile - 1] in job.uploads
        && p.currentFilename == Some(job.uploads[job.fileIds[p.currentFile - 1]].filename)
        && forall k :: p.currentFile <= k < n ==> job.fileIds[k] !in job.uploads
  {
    if n > 0 {
      StepsCursor(r0, job, n - 1);
      AdmittedStep(job, n);
    }
  }

  /**
   * Each produced output gets the next id, is stored under it and is reported; nothing stored before
   * is lost or overwritten, and the counter stays above every stored id.
   */
  lemma {:induction false} StepsProduced(r0: Run, job: Job, n: nat)
    requires n <= |job.fileIds|
    requires FreshIds(r0.processed, r0.nextId)
    ensures var r := Steps(r0, job, n);
      r.nextId == r0.nextId + Produced(job, n)
      && |r.collected| == |r0.collected| + Produced(job, n)
      && r.collected[..|r0.collected|] == r0.collected
      && (forall k :: k in r.processed <==> k in r0.processed || r0.nextId <= k < r.nextId)
      && (forall k :: k in r0.processed ==> r.processed[k] == r0.processed[k])
      && FreshIds(r.processed, r.nextId)
  {
    if n > 0 {
      StepsProduced(r0, job, n - 1);
      var r := Steps(r0, job, n - 1);
      assert (r.collected + [ProcessedFile(r.nextId, "", "", "")])[..|r0.collected|] == r0.collected;
    }
  }

  /**
   * Whatever the scaler does, the batch ends 'completed' with one settled entry per uploaded requested
   * id, total_files the number requested, and one reported output per produced file: a failing file
   * does not stop the batch.
   */
  lemma BatchCompletes(job: Job, processed: map<nat, StoredFile>, nextId: nat)
    requires FreshIds(processed, nextId)
    ensures var r := Batch(job, processed, nextId);
      r.progress.status == Completed && r.progress.totalFiles == |job.fileIds|
      && r.progress.files.Keys == Admitted(job, |job.fileIds|)
      && (forall id :: id in r.progress.files ==> Settled(r.progress.files[id]))
      && r.progress.processedFiles == Some(r.collected)
      && |r.collected| == Produced(job, |job.fileIds|)
      && (forall k :: k in processed ==> k in r.processed && r.processed[k] == processed[k])
      && FreshIds(r.processed, r.nextId)
  {
    var r0 := Run(Initial(job.fileIds), processed, nextId, []);
    StepsFiles(r0, job, |job.fileIds|);
    StepsSettled(r0, job, |job.fileIds|);
    StepsProduced(r0, job, |job.fileIds|);
  }

  lemma BatchKeepsIdsFresh(job: Job, processed: map<nat, StoredFile>, nextId: nat)
    requires FreshIds(processed, nextId)
    ensures FreshIds(Batch(job, processed, nextId).processed, Batch(job, processed, nextId).nextId)
  {
    StepsProduced(Run(Initial(job.fileIds), processed, nextId, []), job, |job.fileIds|);
  }

  /** A file the scaler turns into an output, requested once, ends 'completed'; any other uploaded one ends 'failed'. */
  lemma BatchFileOutcome(job: Job, processed: map<nat, StoredFile>, nextId: nat, j: nat)
    requires j < |job.fileIds| && job.fileIds[j] in job.uploads
    requires forall k :: j < k < |job.fileIds| ==> job.fileIds[k] != job.fileIds[j]
    ensures var f := Batch(job, processed, nextId).progress.files;
      job.fileIds[j] in f
      && (f[job.fileIds[j]].status == Completed <==> Produces(job.scaler(j, job.fileIds[j])))
      && (f[job.fileIds[j]].status == Failed <==> !Produces(job.scaler(j, job.fileIds[j])))
  {
    StepsLatest(Run(Initial(job.fileIds), processed, nextId, []), job, |job.fileIds|, j);
  }

  // ---------------------------------------------------------------- the call at app.py:403

  /** The message of the TypeError Python raises for the unknown keyword argument. */
  const AscentScaleTypeError := "GPXScaler.scale_gpx_file() got an unexpected keyword argument 'ascent_scale'"

  /** The worker's call as written: scale_gpx_file has no ascent_scale parameter, so every call raises. */
  function AsWrittenScaler(): Scaler
  {
    (i: nat, id: FileId) => Raised(AscentScaleTypeError)
  }

  lemma {:induction false} NothingProduced(job: Job, n: nat)
    requires n <= |job.fileIds|
    requires forall i :: 0 <= i < n ==> !Produces(job.scaler(i, job.fileIds[i]))
    ensures Produced(job, n) == 0
  {
    if n > 0 {
      NothingProduced(job, n - 1);
    }
  }

  lemma {:induction false} StepsAllRaise(r0: Run, job: Job, n: nat, message: string)
    requires n <= |job.fileIds|
    requires forall i :: 0 <= i < n ==> job.scaler(i, job.fileIds[i]) == Raised(message)
    requires forall id :: id in r0.progress.files ==>
               id in job.uploads && r0.progress.files[id] == FileProgress(Failed, job.uploads[id].filename, Some(message))
    ensures forall id :: id in Steps(r0, job, n).progress.files ==>
              id in job.uploads && Steps(r0, job, n).progress.files[id] == FileProgress(Failed, job.uploads[id].filename, Some(message))
  {
    if n > 0 {
      StepsAllRaise(r0, job, n - 1, message);
    }
  }

  /**
   * As written, every uploaded file of every batch fails with the TypeError's message, nothing is
   * stored or reported, and the batch still ends 'completed'.
   */
  lemma AsWrittenEveryFileFails(fileIds: seq<FileId>, uploads: map<FileId, Upload>, clock: Clock, format: string,
                                processed: map<nat, StoredFile>, nextId: nat)
    requires FreshIds(processed, nextId)
    ensures var job := Job(fileIds, uploads, AsWrittenScaler(), clock, format);
      var r := Batch(job, processed, nextId);
      r.progress.status == Completed && r.collected == [] && r.processed == processed && r.nextId == nextId
      && r.progress.files.Keys == Admitted(job, |fileIds|)
      && forall id :: id in r.progress.files ==> r.progress.files[id] == FileProgress(Failed, uploads[id].filename, Some(AscentScaleTypeError))
  {
    var job := Job(fileIds, uploads, AsWrittenScaler(), clock, format);
    var r0 := Run(Initial(fileIds), processed, nextId, []);
    NothingProduced(job, |fileIds|);
    StepsProduced(r0, job, |fileIds|);
    StepsFiles(r0, job, |fileIds|);
    StepsAllRaise(r0, job, |fileIds|, AscentScaleTypeError);
    var r := Steps(r0, job, |fileIds|);
    assert r.processed == processed;
  }

  // ---------------------------------------------------------------- the progress stream

  /** One pass of progress_stream's loop: the snapshot it sends, whether the stream ends, and the sessions left. */
  datatype Poll = Poll(snapshot: Option<Progress>, ended: bool, remaining: map<SessionId, Progress>)

  function PollOnce(sessions: map<SessionId, Progress>, session: SessionId): Poll
  {
    if session !in sessions then Poll(None, true, sessions)
    else if sessions[session].status == Completed then Poll(Some(sessions[session]), true, sessions - {session})
    else Poll(Some(sessions[session]), false, sessions)
  }

  /**
   * An unknown session ends the stream at once with nothing sent; a known one is sent as it is; the
   * stream ends, and the session is dropped, exactly when the sent snapshot is completed; no other
   * session is touched.
   */
  lemma PollSemantics(sessions: map<SessionId, Progress>, session: SessionId)
    ensures var q := PollOnce(sessions, session);
      (session !in sessions ==> q.snapshot.None? && q.ended)
      && (session in sessions ==> q.snapshot == Some(sessions[session]))
      && (q.ended <==> q.snapshot.None? || q.snapshot.value.status == Completed)
      && (session in q.remaining <==> !q.ended)
      && (forall s :: s != session ==> (s in q.remaining <==> s in sessions))
      && (forall s :: s in q.remaining ==> q.remaining[s] == sessions[s])
  {
  }

  /** The first poll after a batch sends its completed record, with the outputs it produced, and ends the stream. */
  lemma PollAfterBatch(sessions: map<SessionId, Progress>, session: SessionId, job: Job,
                       processed: map<nat, StoredFile>, nextId: nat)
    ensures var r := Batch(job, processed, nextId);
      var q := PollOnce(sessions[session := r.progress], session);
      q.snapshot == Some(r.progress) && q.snapshot.value.processedFiles == Some(r.collected)
      && q.ended && q.remaining == sessions - {session}
  {
  }

  // ---------------------------------------------------------------- expiry

  /** The entries stamped no more than an hour before now. */
  function Recent<K, V>(m: map<K, V>, stamp: V -> real, now: real): map<K, V>
  {
    map k | k in m && now - stamp(m[k]) <= MaxAge :: m[k]
  }

  /**
   * A sweep keeps unchanged exactly the entries at most an hour old; sweeping again at the same time
   * removes nothing more, and a later sweep never keeps an entry an earlier one removed.
   */
  lemma RecentProperties<K, V>(m: map<K, V>, stamp: V -> real, now: real, later: real)
    requires now <= later
    ensures forall k :: k in Recent(m, stamp, now) <==> k in m && now - stamp(m[k]) <= MaxAge
    ensures forall k :: k in Recent(m, stamp, now) ==> Recent(m, stamp, now)[k] == m[k]
    ensures Recent(Recent(m, stamp, now), stamp, now) == Recent(m, stamp, now)
    ensures Recent(m, stamp, later).Keys <= Recent(m, stamp, now).Keys
  {
  }

  /** The deletion loop of cleanup_old_files over one dictionary: every key is looked at once. */
  method SweepExpired<K, V>(m: map<K, V>, stamp: V -> real, now: real) returns (kept: map<K, V>)
    ensures kept == Recent(m, stamp, now)
  {
    kept := m;
    var pending := m.Keys;
    while pending != {}
      invariant pending <= m.Keys
      invariant forall k :: k in kept <==> k in m && (k in pending || now - stamp(m[k]) <= MaxAge)
      invariant forall k :: k in kept ==> kept[k] == m[k]
      decreases pending
    {
      var k :| k in pending;
      if now - stamp(kept[k]) > MaxAge {
        kept := kept - {k};
      }
      pending := pending - {k};
    }
  }

  function UploadTime(u: Upload): real
  {
    u.uploadTime
  }

  function ProcessTime(f: StoredFile): real
  {
    f.processTime
  }

  /**
   * The body of the worker's loop for the i-th requested id: skip it when it was never uploaded, else
   * mark it processing, run the scaler, store and report its output when there is one, and settle it.
   */
  method ProcessFile(record0: Progress, processed0: map<nat, StoredFile>, nextId0: nat, collected0: seq<ProcessedFile>,
                     job: Job, i: nat)
    returns (record: Progress, processed: map<nat, StoredFile>, nextId: nat, collected: seq<ProcessedFile>)
    requires i < |job.fileIds|
    ensures Run(record, processed, nextId, collected) == Step(Run(record0, processed0, nextId0, collected0), job, i)
  {
    record, processed, nextId, collected := record0, processed0, nextId0, collected0;
    var id := job.fileIds[i];
    if id !in job.uploads {
      return;
    }
    var name := job.uploads[id].filename;
    record := record.(status := Processing, currentFile := i + 1, currentFilename := Some(name),
                      files := record.files[id := FileProgress(Processing, name, None)]);
    var o := job.scaler(i, id);
    var verdict;
    if o.Raised? {
      verdict := FileProgress(Failed, name, Some(o.message));
    } else if !o.success {
      verdict := FileProgress(Failed, name, Some(ProcessingFailedError));
    } else if o.output.None? {
      verdict := FileProgress(Failed, name, Some(NoOutputError));
    } else {
      processed := processed[nextId := StoredFile(o.output.value.path, name, job.format, job.clock(i))];
      collected := collected + [ProcessedFile(nextId, o.output.value.name, name, Text.Upper(job.format))];
      nextId := nextId + 1;
      verdict := FileProgress(Completed, name, None);
    }
    record := record.(files := record.files[id := verdict]);
  }

  // ---------------------------------------------------------------- the server's dictionaries

  /** uploaded_files, processed_files and processing_progress, with the counter that stands in for uuid4. */
  class AppState {
    var uploaded: map<FileId, Upload>
    var processed: map<nat, StoredFile>
    var progress: map<SessionId, Progress>
    var nextId: nat

    predicate Valid()
      reads this
    {
      FreshIds(processed, nextId)
    }

    constructor ()
      ensures Valid()
      ensures uploaded == map[] && processed == map[] && progress == map[] && nextId == 0
    {
      uploaded, processed, progress, nextId := map[], map[], map[], 0;
    }

    /** The store at the end of an upload: the entry is keyed by the new file id and stamped with the time. */
    method StoreUpload(id: FileId, filename: string, content: string, now: real)
      modifies this
      requires Valid()
      ensures Valid()
      ensures uploaded == old(uploaded)[id := Upload(filename, content, now)]
      ensures processed == old(processed) && progress == old(progress) && nextId == old(nextId)
    {
      uploaded := uploaded[id := Upload(filename, content, now)];
    }

    /**
     * process_files and its worker run to the end: the session's record is the batch's, processed_files
     * gains the batch's outputs, and the uploads are untouched.
     */
    method ProcessFiles(session: SessionId, fileIds: seq<FileId>, scaler: Scaler, clock: Clock, format: string)
      modifies this
      requires Valid()
      ensures Valid()
      ensures var r := Batch(Job(fileIds, old(uploaded), scaler, clock, format), old(processed), old(nextId));
        progress == old(progress)[session := r.progress] && processed == r.processed && nextId == r.nextId
      ensures uploaded == old(uploaded)
    {
      var job := Job(fileIds, uploaded, scaler, clock, format);
      ghost var r0 := Run(Initial(fileIds), processed, nextId, []);
      var record := Initial(fileIds);
      progress := progress[session := record];
      var collected: seq<ProcessedFile> := [];
      for i := 0 to |fileIds|
        invariant uploaded == old(uploaded)
        invariant progress == old(progress)[session := record]
        invariant Run(record, processed, nextId, collected) == Steps(r0, job, i)
      {
        ghost var before := progress;
        StepsNext(r0, job, i);
        record, processed, nextId, collected := ProcessFile(record, processed, nextId, collected, job, i);
        progress := progress[session := record];
        assert progress == before[session := record];
      }
      record := record.(status := Completed, processedFiles := Some(collected));
      progress := progress[session := record];
      BatchKeepsIdsFresh(job, old(processed), old(nextId));
    }

    /** One pass of progress_stream: the snapshot sent, whether the stream ends, and the record dropped once completed. */
    method PollProgress(session: SessionId) returns (snapshot: Option<Progress>, ended: bool)
      modifies this
      ensures var q := PollOnce(old(progress), session);
        snapshot == q.snapshot && ended == q.ended && progress == q.remaining
      ensures uploaded == old(uploaded) && processed == old(processed) && nextId == old(nextId)
    {
      if session in progress {
        snapshot := Some(progress[session]);
        ended := false;
        if progress[session].status == Completed {
          progress := progress - {session};
          ended := true;
        }
      } else {
        snapshot, ended := None, true;
      }
    }

    /** One sweep of cleanup_old_files: uploads and outputs older than an hour are forgotten. */
    method CleanupOldFiles(now: real)
      modifies this
      requires Valid()
      ensures Valid()
      ensures uploaded == Recent(old(uploaded), UploadTime, now)
      ensures processed == Recent(old(processed), ProcessTime, now)
      ensures progress == old(progress) && nextId == old(nextId)
    {
      uploaded := SweepExpired(uploaded, UploadTime, now);
      processed := SweepExpired(processed, ProcessTime, now);
    }
  }
}
