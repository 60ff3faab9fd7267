/** The export job registry and the export command's control flow
    (commands/export.rs): jobs are kept in a map from job id to handle, a
    new export is registered only once every preparation step succeeded,
    and the background task and `cancel_export` write statuses into it.
    The FFmpeg child process is represented by its outcome: whether it
    could be spawned, the lines it wrote to stderr and how it exited. */
module ExportJobs {
  import opened Wrappers
  import opened Text
  import opened Disk
  import opened ExportModel
  import opened ExportPipeline
  import opened CommandLine
  import opened ExportCommand
  import opened ProjectModel
  import opened Progress

  /** `ExportJob`: what the registry records about one export. */
  datatype ExportJob = ExportJob(id: string, outputPath: string, status: ExportStatus)

  /** `ExportJobHandle`: the job and, possibly, the child process (by its
      process id) that renders it. */
  datatype JobHandle = JobHandle(job: ExportJob, process: Option<nat>)

  function NotFoundError(id: string): string {
    "Export job not found: " + id
  }

  /** The handle `export_timeline` stores for a new job. */
  function NewHandle(id: string, outputPath: string): (h: JobHandle)
    ensures h.job.id == id && h.job.outputPath == outputPath
    ensures h.job.status == Preparing && h.process.None?
  {
    JobHandle(ExportJob(id, outputPath, Preparing), None)
  }

  /** `if let Some(handle) = jobs.get_mut(id) { handle.job.status = s }`:
      the status of a job that is present is overwritten; an absent job is
      not re-inserted, and nothing else changes. */
  function WithStatus(jobs: map<string, JobHandle>, id: string, s: ExportStatus): (r: map<string, JobHandle>)
    ensures r.Keys == jobs.Keys
    ensures forall k :: k in jobs && k != id ==> r[k] == jobs[k]
    ensures id in jobs ==> r[id].job.status == s && r[id].process == jobs[id].process
                           && r[id].job.id == jobs[id].job.id
                           && r[id].job.outputPath == jobs[id].job.outputPath
  {
    if id in jobs then jobs[id := jobs[id].(job := jobs[id].job.(status := s))] else jobs
  }

  /** Only the last of two status writes to the same job is seen. */
  lemma WithStatusTwice(jobs: map<string, JobHandle>, id: string, a: ExportStatus, b: ExportStatus)
    ensures WithStatus(WithStatus(jobs, id, a), id, b) == WithStatus(jobs, id, b)
  {
    var l := WithStatus(WithStatus(jobs, id, a), id, b);
    var r := WithStatus(jobs, id, b);
    assert l.Keys == r.Keys;
    forall k | k in l
      ensures l[k] == r[k]
    {
      if k == id {
        assert l[k].job == r[k].job;
      }
    }
  }

  /** A successful `cancel_export` on a present job: its process handle is
      taken and its status set to Cancelled; the entry stays in the map. */
  function CancelledJobs(jobs: map<string, JobHandle>, id: string): (r: map<string, JobHandle>)
    requires id in jobs
    ensures r.Keys == jobs.Keys
    ensures forall k :: k in jobs && k != id ==> r[k] == jobs[k]
    ensures r[id].job.status == Cancelled && r[id].process.None?
    ensures r[id].job.id == jobs[id].job.id && r[id].job.outputPath == jobs[id].job.outputPath
  {
    jobs[id := JobHandle(jobs[id].job.(status := Cancelled), None)]
  }

  /** Cancellation is not final: a completion or failure that the export
      task writes afterwards replaces the Cancelled status. */
  lemma CancelledIsOverwritten(jobs: map<string, JobHandle>, id: string, s: ExportStatus)
    requires id in jobs
    ensures WithStatus(CancelledJobs(jobs, id), id, s)[id].job.status == s
    ensures s != Cancelled ==> WithStatus(CancelledJobs(jobs, id), id, s)[id].job.status != Cancelled
  {
  }

  // ---------------------------------------------------------------------------
  // The failure message
  // ---------------------------------------------------------------------------

  /** The elements of `s` in the opposite order. */
  function Reverse<T>(s: seq<T>): (r: seq<T>)
    ensures |r| == |s|
    ensures forall i :: 0 <= i < |s| ==> r[i] == s[|s| - 1 - i]
  {
    if s == [] then [] else Reverse(s[1..]) + [s[0]]
  }

  /** `take(n)`: at most the first `n` elements. */
  function Take<T>(s: seq<T>, n: nat): (r: seq<T>)
    ensures |r| == if n < |s| then n else |s|
    ensures forall i :: 0 <= i < |r| ==> r[i] == s[i]
  {
    if n < |s| then s[..n] else s
  }

  const RecentLineCount: nat := 10

  /** `lines().rev().take(10)` collected and reversed again. */
  function RecentLines(ls: seq<string>): seq<string> {
    Reverse(Take(Reverse(ls), RecentLineCount))
  }

  /** Those are the last min(10, n) lines, in their original order. */
  lemma RecentLinesAreTail(ls: seq<string>)
    ensures var m := if |ls| < RecentLineCount then |ls| else RecentLineCount;
            RecentLines(ls) == ls[|ls| - m..]
  {
    var m := if |ls| < RecentLineCount then |ls| else RecentLineCount;
    var r := RecentLines(ls);
    var t := Take(Reverse(ls), RecentLineCount);
    assert |r| == m;
    forall i | 0 <= i < m
      ensures r[i] == ls[|ls| - m + i]
    {
      assert r[i] == t[m - 1 - i];
      assert t[m - 1 - i] == Reverse(ls)[m - 1 - i];
    }
  }

  const FailurePrefix := "FFmpeg export failed with status: "

  /** The error `run_export` returns when FFmpeg exits unsuccessfully:
      the exit status, followed by the recent output when there is any. */
  function FailureMessage(status: string, allOutput: string): string {
    if allOutput == [] then FailurePrefix + status
    else FailurePrefix + status + "\n\nRecent output:\n" + Join(RecentLines(Lines(allOutput)), "\n")
  }

  /** When FFmpeg wrote the lines `ls`, the message quotes the last
      min(10, n) of them in order, one per line; with no output it holds
      the status alone. */
  lemma FailureMessageQuotesTail(status: string, ls: seq<string>)
    requires forall k :: 0 <= k < |ls| ==> PlainLine(ls[k])
    ensures ls == [] ==> FailureMessage(status, Terminated(ls)) == FailurePrefix + status
    ensures var m := if |ls| < RecentLineCount then |ls| else RecentLineCount;
            ls != [] ==> FailureMessage(status, Terminated(ls))
                         == FailurePrefix + status + "\n\nRecent output:\n" + Join(ls[|ls| - m..], "\n")
  {
    if ls != [] {
      assert |Terminated(ls)| > 0 by {
        assert Terminated(ls) == ls[0] + "\n" + Terminated(ls[1..]);
      }
      LinesOfTerminated(ls);
      RecentLinesAreTail(ls);
    }
  }

  // ---------------------------------------------------------------------------
  // Progress samples
  // ---------------------------------------------------------------------------

  /** The progress samples the stderr lines give, in order. */
  function Samples(lines: seq<string>, totalDuration: real): (ps: seq<ExportProgress>)
    ensures |ps| <= |lines|
  {
    if lines == [] then []
    else
      var last := lines[|lines| - 1];
      Samples(lines[..|lines| - 1], totalDuration)
        + match ParseProgress(last, totalDuration)
          case Some(p) => [p]
          case None => []
  }

  /** Every reported sample is a fraction between 0 and 1 with a
      non-negative frame rate. */
  lemma {:induction false} SamplesInRange(lines: seq<string>, totalDuration: real)
    ensures forall k :: 0 <= k < |Samples(lines, totalDuration)| ==>
              0.0 <= Samples(lines, totalDuration)[k].progress <= 1.0
              && Samples(lines, totalDuration)[k].fps >= 0.0
  {
    if lines != [] {
      var last := lines[|lines| - 1];
      SamplesInRange(lines[..|lines| - 1], totalDuration);
      if ParseProgress(last, totalDuration).Some? {
        SampleRanges(last, totalDuration);
      }
    }
  }

  /** Lines without `frame=` report nothing. */
  lemma {:induction false} SamplesNeedFrames(lines: seq<string>, totalDuration: real)
    requires forall k :: 0 <= k < |lines| ==> !Contains(lines[k], "frame=")
    ensures Samples(lines, totalDuration) == []
  {
    if lines != [] {
      var last := lines[|lines| - 1];
      SamplesNeedFrames(lines[..|lines| - 1], totalDuration);
      assert IndexOf(last, "frame=").None?;
      NoFrameNoSample(last, totalDuration);
    }
  }

  lemma TerminatedStep(lines: seq<string>, i: nat)
    requires i < |lines|
    ensures Terminated(lines[..i + 1]) == Terminated(lines[..i]) + lines[i] + "\n"
  {
    assert lines[..i + 1] == lines[..i] + [lines[i]];
    TerminatedAppend(lines[..i], [lines[i]]);
    assert Terminated([lines[i]]) == lines[i] + "\n" by {
      assert [lines[i]][1..] == [];
    }
  }

  lemma SamplesStep(lines: seq<string>, i: nat, totalDuration: real)
    requires i < |lines|
    ensures Samples(lines[..i + 1], totalDuration)
            == Samples(lines[..i], totalDuration)
               + if ParseProgress(lines[i], totalDuration).Some? then [ParseProgress(lines[i], totalDuration).value] else []
  {
    assert lines[..i + 1][..i] == lines[..i];
  }

  /** The stderr loop of `run_export`: every line is kept, each followed by
      `\n`, and every line that parses as progress is reported, in order. */
  method CollectOutput(lines: seq<string>, totalDuration: real)
    returns (allOutput: string, progress: seq<ExportProgress>)
    ensures allOutput == Terminated(lines)
    ensures progress == Samples(lines, totalDuration)
  {
    allOutput := "";
    progress := [];
    var i := 0;
    while i < |lines|
      invariant 0 <= i <= |lines|
      invariant allOutput == Terminated(lines[..i])
      invariant progress == Samples(lines[..i], totalDuration)
    {
      var line := lines[i];
      TerminatedStep(lines, i);
      SamplesStep(lines, i, totalDuration);
      allOutput := allOutput + line + "\n";
      var sample := ParseProgress(line, totalDuration);
      if sample.Some? {
        progress := progress + [sample.value];
      }
      i := i + 1;
    }
    assert lines[..i] == lines;
  }

  // ---------------------------------------------------------------------------
  // The registry
  // ---------------------------------------------------------------------------

  /** What `export_timeline` hands to the background task. */
  datatype PendingExport = PendingExport(
    jobId: string,
    command: Command,
    totalDuration: real,
    outputPath: string,
    tempDir: string)

  /** How the FFmpeg child process behaves: `spawnError` and `waitError`
      are the I/O errors of starting it and waiting for it, `stderr` the
      lines it writes, and `success`/`status` its exit status. */
  datatype ProcessRun = ProcessRun(
    spawnError: Option<string>,
    stderr: seq<string>,
    waitError: Option<string>,
    success: bool,
    status: string)

  /** The result `run_export` gives for a process run. */
  function RunResult(run: ProcessRun): (r: Result<Unit>)
    ensures r.Ok? <==> run.spawnError.None? && run.waitError.None? && run.success
  {
    if run.spawnError.Some? then Err("Failed to spawn FFmpeg process: " + run.spawnError.value)
    else if run.waitError.Some? then Err("Failed to wait for FFmpeg process: " + run.waitError.value)
    else if !run.success then Err(FailureMessage(run.status, Terminated(run.stderr)))
    else Ok(Unit)
  }

  /** The status a job ends in once its task is over. */
  function FinalStatus(run: ProcessRun): (s: ExportStatus)
    ensures s == Complete || s == Failed
    ensures s == Complete <==> RunResult(run).Ok?
  {
    if RunResult(run).Ok? then Complete else Failed
  }

  class ExportState {
    var jobs: map<string, JobHandle>

    /** No handle holds a process: the only insert stores `None`. */
    predicate NoProcesses()
      reads this
    {
      forall k :: k in jobs ==> jobs[k].process.None?
    }

    constructor ()
      ensures jobs == map[] && NoProcesses()
    {
      jobs := map[];
    }

    /** The insert in `export_timeline`. */
    method Register(id: string, outputPath: string)
      modifies this
      ensures jobs == old(jobs)[id := NewHandle(id, outputPath)]
      ensures old(NoProcesses()) ==> NoProcesses()
    {
      jobs := jobs[id := NewHandle(id, outputPath)];
    }

    /** A status write through `get_mut`. */
    method SetStatus(id: string, s: ExportStatus)
      modifies this
      ensures jobs == WithStatus(old(jobs), id, s)
      ensures old(NoProcesses()) ==> NoProcesses()
    {
      if id in jobs {
        var h := jobs[id];
        jobs := jobs[id := h.(job := h.job.(status := s))];
      }
    }

    /** `cancel_export`: an unknown id is an error that changes nothing.
        Otherwise the process handle is taken and, if there was one, killed
        (`killError` is the error the kill meets, returned before the status
        changes); then the status becomes Cancelled and the partial output
        file is removed. */
    method Cancel(id: string, fs: FileSystem, killError: Option<string>) returns (r: Result<Unit>)
      modifies this, fs
      ensures id !in old(jobs) ==> r == Err(NotFoundError(id)) && jobs == old(jobs)
                                   && fs.files == old(fs.files)
      ensures id in old(jobs) && old(jobs)[id].process.Some? && killError.Some? ==>
                r == Err("Failed to kill export process: " + killError.value)
                && jobs == old(jobs)[id := old(jobs)[id].(process := None)]
                && fs.files == old(fs.files)
      ensures id in old(jobs) && (old(jobs)[id].process.None? || killError.None?) ==>
                r == Ok(Unit) && jobs == CancelledJobs(old(jobs), id)
                && fs.files == old(fs.files) - {old(jobs)[id].job.outputPath}
      ensures old(NoProcesses()) ==> NoProcesses()
    {
      if id !in jobs {
        return Err(NotFoundError(id));
      }
      var h := jobs[id];
      var process := h.process;
      jobs := jobs[id := h.(process := None)];
      if process.Some? && killError.Some? {
        return Err("Failed to kill export process: " + killError.value);
      }
      h := jobs[id];
      jobs := jobs[id := h.(job := h.job.(status := Cancelled))];
      fs.RemoveFile(h.job.outputPath);
      r := Ok(Unit);
    }

    /** `run_export`: spawn FFmpeg, mark the job Rendering, read its stderr
        line by line (keeping all of it and reporting each progress sample),
        then wait for it and turn an unsuccessful exit into an error that
        quotes the recent output. */
    method RunExport(id: string, totalDuration: real, run: ProcessRun)
      returns (r: Result<Unit>, progress: seq<ExportProgress>)
      modifies this
      ensures r == RunResult(run)
      ensures run.spawnError.Some? ==> jobs == old(jobs) && progress == []
      ensures run.spawnError.None? ==> jobs == WithStatus(old(jobs), id, Rendering)
                                       && progress == Samples(run.stderr, totalDuration)
      ensures old(NoProcesses()) ==> NoProcesses()
    {
      progress := [];
      if run.spawnError.Some? {
        return Err("Failed to spawn FFmpeg process: " + run.spawnError.value), progress;
      }
      SetStatus(id, Rendering);
      var allOutput;
      allOutput, progress := CollectOutput(run.stderr, totalDuration);
      if run.waitError.Some? {
        return Err("Failed to wait for FFmpeg process: " + run.waitError.value), progress;
      }
      if !run.success {
        return Err(FailureMessage(run.status, allOutput)), progress;
      }
      r := Ok(Unit);
    }

    /** The task `export_timeline` spawns: run the export, record Complete
        or Failed (a failure also removes the partial output), and remove
        the temporary directory either way. */
    method ExportTask(pending: PendingExport, run: ProcessRun, fs: FileSystem)
      returns (progress: seq<ExportProgress>)
      modifies this, fs
      ensures jobs == WithStatus(old(jobs), pending.jobId, FinalStatus(run))
      ensures progress == if run.spawnError.Some? then [] else Samples(run.stderr, pending.totalDuration)
      ensures FinalStatus(run) == Complete ==>
                fs.files == map p | p in old(fs.files) && !Under(p, pending.tempDir) :: old(fs.files)[p]
      ensures FinalStatus(run) == Failed ==>
                fs.files == map p | p in old(fs.files) - {pending.outputPath} && !Under(p, pending.tempDir)
                                  :: old(fs.files)[p]
      ensures old(NoProcesses()) ==> NoProcesses()
    {
      var r;
      r, progress := RunExport(pending.jobId, pending.totalDuration, run);
      ghost var afterRun := jobs;
      if r.Ok? {
        SetStatus(pending.jobId, Complete);
      } else {
        SetStatus(pending.jobId, Failed);
        fs.RemoveFile(pending.outputPath);
      }
      if run.spawnError.None? {
        WithStatusTwice(old(jobs), pending.jobId, Rendering, FinalStatus(run));
      }
      fs.RemoveDirAll(pending.tempDir);
    }
  }

  /** What `export_timeline` needs of the environment besides the project:
      the parent directory of the output path (`Path::parent`) and whether
      it exists, the fresh temporary directory and the error creating it,
      the error writing the manifest, the platform and the fresh job id. */
  datatype ExportEnv = ExportEnv(
    outputParent: Option<string>,
    parentExists: bool,
    tempDir: string,
    tempDirError: Option<string>,
    writeError: Option<string>,
    platform: Platform,
    jobId: string)

  /** The preparation steps of `export_timeline` succeed. */
  predicate Prepared(project: Project?, env: ExportEnv)
    reads project
  {
    project != null
    && (env.outputParent.None? || env.parentExists)
    && env.tempDirError.None?
    && ConcatManifest(project.tracks, project.mediaLibrary).Ok?
    && env.writeError.None?
  }

  /** `export_timeline`: each preparation step that fails returns its error
      before the job is registered; when all succeed, a Preparing job is
      registered under the fresh id and the export handed to the task.
      (`project` is null when no project is loaded.) */
  method ExportTimeline(state: ExportState, fs: FileSystem, project: Project?, outputPath: string,
                        settings: ExportSettings, env: ExportEnv)
    returns (r: Result<string>, pending: Option<PendingExport>)
    modifies state, fs
    ensures project == null ==> r == Err("No project loaded")
    ensures project != null && env.outputParent.Some? && !env.parentExists ==>
              r == Err("Output directory does not exist: " + env.outputParent.value)
    ensures project != null && (env.outputParent.None? || env.parentExists) && env.tempDirError.Some? ==>
              r == Err("Failed to create temp directory: " + env.tempDirError.value)
    ensures project != null && (env.outputParent.None? || env.parentExists) && env.tempDirError.None?
            && ConcatManifest(project.tracks, project.mediaLibrary).Err? ==>
              r == Err(ConcatManifest(project.tracks, project.mediaLibrary).error)
    ensures r.Ok? <==> Prepared(project, env)
    ensures r.Err? ==> state.jobs == old(state.jobs) && pending.None? && fs.files == old(fs.files)
    ensures r.Ok? ==>
              r.value == env.jobId
              && state.jobs == old(state.jobs)[env.jobId := NewHandle(env.jobId, outputPath)]
              && pending == Some(PendingExport(
                   env.jobId,
                   Command("ffmpeg", ExportArgs(JoinPath(env.tempDir, "concat.txt"), outputPath, settings, env.platform)),
                   CalculateTimelineDuration(project.tracks),
                   outputPath,
                   env.tempDir))
              && fs.files == old(fs.files)[JoinPath(env.tempDir, "concat.txt")
                                          := ConcatManifest(project.tracks, project.mediaLibrary).value]
    ensures old(state.NoProcesses()) ==> state.NoProcesses()
  {
    pending := None;
    if project == null {
      return Err("No project loaded"), pending;
    }
    if env.outputParent.Some? && !env.parentExists {
      return Err("Output directory does not exist: " + env.outputParent.value), pending;
    }
    if env.tempDirError.Some? {
      return Err("Failed to create temp directory: " + env.tempDirError.value), pending;
    }
    var concat := GenerateConcatFile(project.tracks, project.mediaLibrary, env.tempDir, fs, env.writeError);
    if concat.Err? {
      return Err(concat.error), pending;
    }
    var cmd := BuildExportCommand(concat.value, outputPath, settings, env.platform);
    state.Register(env.jobId, outputPath);
    var total := CalculateTimelineDuration(project.tracks);
    pending := Some(PendingExport(env.jobId, cmd, total, outputPath, env.tempDir));
    r := Ok(env.jobId);
  }
}
