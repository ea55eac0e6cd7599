/** The export as a whole: the batches of a listing run, each handed to a
    fresh pool of `get_playlist` workers and drained before the next one
    starts, and what that leaves in the playlist directory. */
module Export {
  import opened Results
  import opened Config
  import opened Playlists
  import opened Pool
  import opened Pagination

  /** `get_playlist` as the task the pool's workers run. */
  function JobRunner(home: Option<string>, fetch: Fetcher): (Store, Job) -> Result<Store, string> {
    (s, j) => GetPlaylist(home, fetch, s, j)
  }

  /** A run through the pools, batch after batch. The files and the log end
      up as if all jobs had run in one queue: each job runs once, on the
      files the jobs before it left. */
  function ExportBatches(home: Option<string>, fetch: Fetcher, store: Store, batches: seq<Batch>): (r: (Store, seq<TaskRecord<Job>>))
    ensures r.0 == Apply(store, Jobs(batches), JobRunner(home, fetch))
    ensures r.1 == Trace(store, Jobs(batches), JobRunner(home, fetch))
    decreases |batches|
  {
    if |batches| == 0 then (store, [])
    else
      var run := JobRunner(home, fetch);
      var done := RunToCompletion(Submit(store, batches[0].jobs), run);
      var rest := ExportBatches(home, fetch, done.world, batches[1..]);
      assert done.world == Apply(store, batches[0].jobs, run) && done.log == Trace(store, batches[0].jobs, run);
      assert Jobs(batches) == batches[0].jobs + Jobs(batches[1..]);
      ApplyAppend(store, batches[0].jobs, Jobs(batches[1..]), run);
      TraceAppend(store, batches[0].jobs, Jobs(batches[1..]), run);
      (rest.0, done.log + rest.1)
  }

  /** A job writes file `f` when it gets through and `f` is its file. */
  predicate Writes(home: Option<string>, fetch: Fetcher, job: Job, f: string) {
    JobSucceeds(fetch, job) && Filename(PlaylistDir(home), job.playlistName) == f
  }

  /** Job i of `jobs` gets through and no later job that gets through
      shares its playlist name, so nothing overwrites its file. */
  predicate LastWriter(fetch: Fetcher, jobs: seq<Job>, i: int) {
    && 0 <= i < |jobs|
    && JobSucceeds(fetch, jobs[i])
    && forall j :: i < j < |jobs| && JobSucceeds(fetch, jobs[j]) ==> jobs[j].playlistName != jobs[i].playlistName
  }

  /** The export's log: every job once, in order, logged without error
      exactly when it gets through, and otherwise with the fetch's
      exception, the missing-image `IndexError`, or the `FileNotFoundError`
      of a name holding `/`. */
  lemma ExportLog(home: Option<string>, fetch: Fetcher, store: Store, batches: seq<Batch>)
    ensures var log, jobs := ExportBatches(home, fetch, store, batches).1, Jobs(batches);
      && |log| == |jobs|
      && forall i :: 0 <= i < |jobs| ==>
           && log[i].task == jobs[i]
           && (log[i].error.None? <==> JobSucceeds(fetch, jobs[i]))
           && (fetch(jobs[i].token, jobs[i].playlistId).Failure? ==>
                 log[i].error == Some(fetch(jobs[i].token, jobs[i].playlistId).error))
           && (fetch(jobs[i].token, jobs[i].playlistId).Success?
                 && !AllHaveAlbumArt(fetch(jobs[i].token, jobs[i].playlistId).value) ==>
                 log[i].error == Some(IndexOutOfRange))
           && (fetch(jobs[i].token, jobs[i].playlistId).Success?
                 && AllHaveAlbumArt(fetch(jobs[i].token, jobs[i].playlistId).value) && '/' in jobs[i].playlistName ==>
                 log[i].error == Some(NoSuchFile(Filename(PlaylistDir(home), jobs[i].playlistName))))
  {
    var run, jobs := JobRunner(home, fetch), Jobs(batches);
    var log := ExportBatches(home, fetch, store, batches).1;
    forall i | 0 <= i < |jobs|
      ensures log[i] == TaskRecord(jobs[i], ErrorOf(GetPlaylist(home, fetch, Apply(store, jobs[..i], run), jobs[i])))
    {
    }
  }

  /** The files of `w` are those of `store` plus the file of every job of
      `jobs` that got through. */
  ghost predicate FilesAfter(home: Option<string>, fetch: Fetcher, store: Store, jobs: seq<Job>, w: Store) {
    forall f :: f in w <==> f in store || exists i :: 0 <= i < |jobs| && Writes(home, fetch, jobs[i], f)
  }

  /** Every file of `store` that no job of `jobs` writes is in `w`
      unchanged. */
  ghost predicate KeepsUnwritten(home: Option<string>, fetch: Fetcher, store: Store, jobs: seq<Job>, w: Store) {
    forall f :: f in store && (forall i :: 0 <= i < |jobs| ==> !Writes(home, fetch, jobs[i], f)) ==>
      f in w && w[f] == store[f]
  }

  /** In `w`, the file of each last writer of its name holds that job's
      shaped playlist. */
  ghost predicate HoldsLastWrites(home: Option<string>, fetch: Fetcher, jobs: seq<Job>, w: Store) {
    forall i :: LastWriter(fetch, jobs, i) ==>
      var f := Filename(PlaylistDir(home), jobs[i].playlistName);
      f in w && w[f] == ShapePlaylist(jobs[i].playlistName, fetch(jobs[i].token, jobs[i].playlistId).value)
  }

  /** The files after running `jobs`: exactly the files there were plus
      the file of every job that got through. */
  lemma {:induction false} ApplyJobsKeys(home: Option<string>, fetch: Fetcher, store: Store, jobs: seq<Job>)
    ensures FilesAfter(home, fetch, store, jobs, Apply(store, jobs, JobRunner(home, fetch)))
    decreases |jobs|
  {
    if |jobs| > 0 {
      var run := JobRunner(home, fetch);
      var init, last := jobs[..|jobs| - 1], jobs[|jobs| - 1];
      var before, w := Apply(store, init, run), Apply(store, jobs, run);
      ApplyJobsKeys(home, fetch, store, init);
      assert w == Next(before, last, run);
      assert w.Keys == if JobSucceeds(fetch, last) then before.Keys + {Filename(PlaylistDir(home), last.playlistName)}
                       else before.Keys;
      forall f | f in w ensures f in store || exists i :: 0 <= i < |jobs| && Writes(home, fetch, jobs[i], f) {
        if f !in before {
          assert Writes(home, fetch, jobs[|jobs| - 1], f);
        } else if f !in store {
          var i :| 0 <= i < |init| && Writes(home, fetch, init[i], f);
          assert init[i] == jobs[i];
        }
      }
      forall f | exists i :: 0 <= i < |jobs| && Writes(home, fetch, jobs[i], f) ensures f in w {
        var i :| 0 <= i < |jobs| && Writes(home, fetch, jobs[i], f);
        if i < |init| {
          assert init[i] == jobs[i];
        }
      }
    }
  }

  /** A file no job writes keeps its content. */
  lemma {:induction false} ApplyJobsUntouched(home: Option<string>, fetch: Fetcher, store: Store, jobs: seq<Job>)
    ensures KeepsUnwritten(home, fetch, store, jobs, Apply(store, jobs, JobRunner(home, fetch)))
    decreases |jobs|
  {
    if |jobs| > 0 {
      var init := jobs[..|jobs| - 1];
      ApplyJobsUntouched(home, fetch, store, init);
      forall i | 0 <= i < |init| ensures init[i] == jobs[i] { }
    }
  }

  /** The file of a job that got through, and that no later successful job
      shares a playlist name with, holds that job's shaped playlist. */
  lemma {:induction false} ApplyJobsLastWrite(home: Option<string>, fetch: Fetcher, store: Store, jobs: seq<Job>)
    ensures HoldsLastWrites(home, fetch, jobs, Apply(store, jobs, JobRunner(home, fetch)))
    decreases |jobs|
  {
    if |jobs| > 0 {
      var init, last := jobs[..|jobs| - 1], jobs[|jobs| - 1];
      ApplyJobsLastWrite(home, fetch, store, init);
      forall i | 0 <= i < |init| ensures init[i] == jobs[i] { }
      forall i | 0 <= i < |init| && JobSucceeds(fetch, last)
        ensures jobs[i].playlistName != last.playlistName
             ==> Filename(PlaylistDir(home), jobs[i].playlistName) != Filename(PlaylistDir(home), last.playlistName)
      {
        FilenameInjective(PlaylistDir(home), jobs[i].playlistName, last.playlistName);
      }
    }
  }

  /** What the export leaves on disk: a file no successful job writes is
      as it was, a job that raised changes nothing, and the file of a
      successful job that no later successful job shares a name with holds
      that job's shaped playlist. */
  lemma ExportFiles(home: Option<string>, fetch: Fetcher, store: Store, batches: seq<Batch>)
    ensures FilesAfter(home, fetch, store, Jobs(batches), ExportBatches(home, fetch, store, batches).0)
    ensures KeepsUnwritten(home, fetch, store, Jobs(batches), ExportBatches(home, fetch, store, batches).0)
    ensures HoldsLastWrites(home, fetch, Jobs(batches), ExportBatches(home, fetch, store, batches).0)
  {
    var jobs := Jobs(batches);
    ApplyJobsKeys(home, fetch, store, jobs);
    ApplyJobsUntouched(home, fetch, store, jobs);
    ApplyJobsLastWrite(home, fetch, store, jobs);
  }

  /** A file some job writes has a last writer: a job that writes it and
      that no later successful job shares a name with. */
  lemma {:induction false} LastWriterExists(home: Option<string>, fetch: Fetcher, jobs: seq<Job>, f: string, i: int)
    requires 0 <= i < |jobs| && Writes(home, fetch, jobs[i], f)
    ensures exists k :: LastWriter(fetch, jobs, k) && Writes(home, fetch, jobs[k], f)
    decreases |jobs|
  {
    var n := |jobs| - 1;
    if Writes(home, fetch, jobs[n], f) {
      assert LastWriter(fetch, jobs, n);
    } else {
      var init := jobs[..n];
      assert init[i] == jobs[i];
      LastWriterExists(home, fetch, init, f, i);
      var k :| LastWriter(fetch, init, k) && Writes(home, fetch, init[k], f);
      assert init[k] == jobs[k];
      if JobSucceeds(fetch, jobs[n]) {
        assert Filename(PlaylistDir(home), jobs[n].playlistName) != f;
      }
      forall j | k < j < n ensures init[j] == jobs[j] { }
      assert LastWriter(fetch, jobs, k);
    }
  }

  /** Two runs of the same jobs, the second on the files the first left,
      end with the same files. */
  lemma RerunSameFiles(home: Option<string>, fetch: Fetcher, store: Store, jobs: seq<Job>, once: Store, twice: Store)
    requires FilesAfter(home, fetch, store, jobs, once) && KeepsUnwritten(home, fetch, store, jobs, once)
    requires HoldsLastWrites(home, fetch, jobs, once)
    requires FilesAfter(home, fetch, once, jobs, twice) && KeepsUnwritten(home, fetch, once, jobs, twice)
    requires HoldsLastWrites(home, fetch, jobs, twice)
    ensures twice == once
  {
    forall f | f in once ensures f in twice && twice[f] == once[f] {
      if i :| 0 <= i < |jobs| && Writes(home, fetch, jobs[i], f) {
        LastWriterExists(home, fetch, jobs, f, i);
        var k :| LastWriter(fetch, jobs, k) && Writes(home, fetch, jobs[k], f);
      }
    }
    assert twice.Keys == once.Keys;
  }

  /** Exporting again against unchanged answers leaves every file as the
      first export left it: each file a job writes gets the same document
      again and no other file is touched. */
  lemma ExportRerun(home: Option<string>, fetch: Fetcher, store: Store, batches: seq<Batch>)
    ensures var once := ExportBatches(home, fetch, store, batches).0;
      ExportBatches(home, fetch, once, batches).0 == once
  {
    var once := ExportBatches(home, fetch, store, batches).0;
    ExportFiles(home, fetch, store, batches);
    ExportFiles(home, fetch, once, batches);
    RerunSameFiles(home, fetch, store, Jobs(batches), once, ExportBatches(home, fetch, once, batches).0);
  }
}
