/** Stage-in of the inputs a job's parents do not produce (the three
    getFilesFromRC variants): ordinary jobs get one descriptor per file
    from a replica chosen in the replica catalog; sub-workflow jobs only
    resolve the path of their workflow description. */
module StageIn {
  import opened Text
  import opened Entities
  import opened Urls

  /** The staging site's directory as the stage-in sees it: its absolute
      path, its third-party URL, the directory transfers write to, and
      whether the transfers run on the submit host. */
  datatype StageInDirs = StageInDirs(dAbsPath: string, dDirURL: string, destDir: string, local: bool)

  function StageInSetup(cfg: Config, job: Job): (r: Result<StageInDirs>)
    ensures job.stagingSite !in cfg.sites ==> r == Fail(SiteNotFound(job.stagingSite))
    ensures job.stagingSite in cfg.sites && ScratchServer(cfg.env, cfg.sites[job.stagingSite], PutOperations).None?
            ==> r == Fail(NoFileServer(job.stagingSite, Put))
    ensures r.Ok? ==> r.value.local == RunTransferOnLocalSite(cfg.adv, job.stagingSite, Some(r.value.dDirURL), StageInJob)
    ensures r.Ok? && r.value.local ==> r.value.destDir == r.value.dDirURL
    ensures r.Ok? && !r.value.local ==> StartsWith(r.value.destDir, "file://")
    ensures r.Ok? ==> EndsWith(r.value.dDirURL, r.value.dAbsPath)
    ensures r.Ok? ==> var fs := ScratchServer(cfg.env, cfg.sites[job.stagingSite], PutOperations);
                      && job.stagingSite in cfg.sites && fs.Some?
                      && r.value.dAbsPath == cfg.env.externalWorkDir(fs.value, job.stagingSite)
                      && r.value.dDirURL == fs.value.urlPrefix + r.value.dAbsPath
    ensures r.Ok? && !r.value.local ==>
              r.value.destDir == "file://" + cfg.env.internalWorkDir(job.stagingSite, job.remoteInitialDir)
  {
    if job.stagingSite !in cfg.sites then Fail(SiteNotFound(job.stagingSite))
    else
      match ScratchServer(cfg.env, cfg.sites[job.stagingSite], PutOperations)
      case None => Fail(NoFileServer(job.stagingSite, Put))
      case Some(fs) =>
        var dAbsPath := cfg.env.externalWorkDir(fs, job.stagingSite);
        var dDirURL := fs.urlPrefix + dAbsPath;
        assert dDirURL[|dDirURL| - |dAbsPath|..] == dAbsPath;
        var fileDestDir := "file://" + cfg.env.internalWorkDir(job.stagingSite, job.remoteInitialDir);
        var local := RunTransferOnLocalSite(cfg.adv, job.stagingSite, Some(dDirURL), StageInJob);
        Ok(StageInDirs(dAbsPath, dDirURL, if local then dDirURL else fileDestDir, local))
  }

  /** The job's inputs as the stage-in leaves them, the two batches of
      descriptors, and the transient catalog. */
  datatype StageInAcc = StageInAcc(inputs: seq<PFile>, local: seq<FileTransfer>, remote: seq<FileTransfer>,
                                   rc: seq<Placement>)

  /** Whether the replica chosen for `lfn` is linked rather than copied:
      links are on and the replica lives on the job's staging site. */
  predicate LinksReplica(cfg: Config, job: Job, selected: Replica) {
    cfg.useSymLinks && selected.site == job.stagingSite
  }

  /** The replica the stage-in copies from, rewritten to a `file:` locator when it is linked. */
  function SourceReplica(cfg: Config, job: Job, lfn: string, local: bool): Replica
    requires lfn in cfg.catalog
  {
    var selected := cfg.env.selectReplica(cfg.catalog[lfn], job.siteHandle, local);
    if LinksReplica(cfg, job, selected) then ReplaceSourceProtocolFromURL(cfg.srm, cfg.env.urlPath, selected)
    else selected
  }

  /** The file is already where the job needs it: its locator is the
      third-party URL of the file in the staging directory (ignoring case),
      or it is on the staging site (ignoring case) under the same name in
      a directory whose canonical path is the staging directory's. */
  predicate AlreadyInPlace(cfg: Config, job: Job, dirs: StageInDirs, lfn: string, source: Replica, last: nat)
    requires last < |source.pfn|
  {
    || EqualsIgnoreCase(source.pfn, dirs.dDirURL + Separator + lfn)
    || (&& EqualsIgnoreCase(source.site, job.stagingSite)
        && lfn == source.pfn[last + 1..]
        && cfg.env.sameCanonicalPath(cfg.env.urlPath(source.pfn[..last]), dirs.dAbsPath))
  }

  /** The destination URL of a staged file: in the destination directory,
      rewritten to the `symlink:` scheme when the replica is linked. */
  function StageInDestURL(cfg: Config, dirs: StageInDirs, lfn: string, linked: bool): string {
    (if linked then ReplaceProtocolFromURL(cfg.env.urlPath, dirs.destDir) else dirs.destDir) + Separator + lfn
  }

  /** One file looked up in the replica catalog. A file the catalog does
      not know is dropped from the job's inputs when optional and aborts
      the run otherwise; a file already in place is skipped; any other is
      recorded in the transient catalog at the staging site and gets a
      descriptor, which goes to the remote batch when linked or when the
      transfers do not run on the submit host. */
  function StageInFile(cfg: Config, job: Job, dirs: StageInDirs, pf: PFile, acc: StageInAcc): (r: Run<StageInAcc>)
    ensures r.state.rc == acc.rc || r.state.rc == acc.rc + [Placement(pf.lfn, dirs.dDirURL + Separator + pf.lfn, job.stagingSite)]
  {
    if pf.lfn !in cfg.catalog then
      if pf.optional then Run(None, acc.(inputs := RemoveLfn(acc.inputs, pf.lfn)))
      else Run(Some(NoReplica(pf.lfn)), acc)
    else
      var linked := LinksReplica(cfg, job, cfg.env.selectReplica(cfg.catalog[pf.lfn], job.siteHandle, dirs.local));
      var source := SourceReplica(cfg, job, pf.lfn, dirs.local);
      var last := LastIndexOf(source.pfn, '/');
      if last < 0 then Run(Some(MalformedURL(source.pfn)), acc)
      else if AlreadyInPlace(cfg, job, dirs, pf.lfn, source, last) then Run(None, acc)
      else
        var acc1 := acc.(rc := acc.rc + [Placement(pf.lfn, dirs.dDirURL + Separator + pf.lfn, job.stagingSite)]);
        var ft := FileTransfer(pf.lfn, job.logicalName, [Endpoint(source.site, source.pfn)],
                               [Endpoint(job.stagingSite, StageInDestURL(cfg, dirs, pf.lfn, linked))], None,
                               pf.size, pf.ftype, pf.transferFlag, false, false, false);
        if linked || !dirs.local then Run(None, acc1.(remote := acc1.remote + [ft]))
        else Run(None, acc1.(local := acc1.local + [ft]))
  }

  /** The files from the `i`-th on; the first failure aborts. */
  function StageInFrom(cfg: Config, job: Job, dirs: StageInDirs, files: seq<PFile>, i: nat,
                       acc: StageInAcc): (r: Run<StageInAcc>)
    requires i <= |files|
    ensures r.failure.Some? ==> r.failure.value.NoReplica? || r.failure.value.MalformedURL?
    decreases |files| - i
  {
    if i == |files| then Run(None, acc)
    else
      var step := StageInFile(cfg, job, dirs, files[i], acc);
      if step.failure.Some? then step
      else StageInFrom(cfg, job, dirs, files, i + 1, step.state)
  }

  /** getFilesFromRC for an ordinary job. */
  function FilesFromRC(cfg: Config, job: Job, files: seq<PFile>, acc: StageInAcc): (r: Run<StageInAcc>)
    ensures StageInSetup(cfg, job).Fail? ==> r == Run(Some(StageInSetup(cfg, job).error), acc)
    ensures r.failure.Some? ==>
              || r.failure.value.SiteNotFound? || r.failure.value.NoFileServer?
              || r.failure.value.NoReplica? || r.failure.value.MalformedURL?
  {
    match StageInSetup(cfg, job)
    case Fail(e) => Run(Some(e), acc)
    case Ok(dirs) => StageInFrom(cfg, job, dirs, files, 0, acc)
  }

  // ------------------------------------------------------ per-file rules

  /** An optional file the catalog does not know is dropped from the inputs, and nothing else happens. */
  lemma OptionalMissingFileDropped(cfg: Config, job: Job, dirs: StageInDirs, pf: PFile, acc: StageInAcc)
    requires pf.lfn !in cfg.catalog && pf.optional
    ensures var r := StageInFile(cfg, job, dirs, pf, acc);
            && r.failure.None?
            && r.state == acc.(inputs := r.state.inputs)
            && forall q :: q in r.state.inputs <==> q in acc.inputs && q.lfn != pf.lfn
  {
  }

  /** A required file the catalog does not know aborts the run, changing nothing. */
  lemma RequiredMissingFileAborts(cfg: Config, job: Job, dirs: StageInDirs, pf: PFile, acc: StageInAcc)
    requires pf.lfn !in cfg.catalog && !pf.optional
    ensures StageInFile(cfg, job, dirs, pf, acc) == Run(Some(NoReplica(pf.lfn)), acc)
  {
  }

  /** A file already in place is neither tracked nor transferred. */
  lemma InPlaceFileSkipped(cfg: Config, job: Job, dirs: StageInDirs, pf: PFile, acc: StageInAcc)
    requires pf.lfn in cfg.catalog
    requires var source := SourceReplica(cfg, job, pf.lfn, dirs.local);
             var last := LastIndexOf(source.pfn, '/');
             last >= 0 && AlreadyInPlace(cfg, job, dirs, pf.lfn, source, last)
    ensures StageInFile(cfg, job, dirs, pf, acc) == Run(None, acc)
  {
  }

  /** A file whose replica's locator is the staging directory's third-party
      URL for it (ignoring case) is never transferred. */
  lemma ThirdPartyCopySkipped(cfg: Config, job: Job, dirs: StageInDirs, pf: PFile, acc: StageInAcc)
    requires pf.lfn in cfg.catalog
    requires EqualsIgnoreCase(SourceReplica(cfg, job, pf.lfn, dirs.local).pfn, dirs.dDirURL + Separator + pf.lfn)
    ensures StageInFile(cfg, job, dirs, pf, acc).state == acc
  {
    var source := SourceReplica(cfg, job, pf.lfn, dirs.local);
    var last := LastIndexOf(source.pfn, '/');
    if last >= 0 {
      assert AlreadyInPlace(cfg, job, dirs, pf.lfn, source, last);
    }
  }

  /** A file that is staged is tracked at the staging site's third-party
      URL and gets one descriptor from the chosen replica to the staging
      site; a linked replica becomes a `file:` source and a `symlink:`
      destination and always goes to the remote batch; otherwise the batch
      follows where the transfers run. */
  lemma StagedFileTracked(cfg: Config, job: Job, dirs: StageInDirs, pf: PFile, acc: StageInAcc)
    requires pf.lfn in cfg.catalog
    requires var source := SourceReplica(cfg, job, pf.lfn, dirs.local);
             var last := LastIndexOf(source.pfn, '/');
             last >= 0 && !AlreadyInPlace(cfg, job, dirs, pf.lfn, source, last)
    ensures var r := StageInFile(cfg, job, dirs, pf, acc);
            var source := SourceReplica(cfg, job, pf.lfn, dirs.local);
            var linked := LinksReplica(cfg, job, cfg.env.selectReplica(cfg.catalog[pf.lfn], job.siteHandle, dirs.local));
            var added := if linked || !dirs.local then r.state.remote[|acc.remote|..] else r.state.local[|acc.local|..];
            && r.failure.None?
            && r.state.inputs == acc.inputs
            && r.state.rc == acc.rc + [Placement(pf.lfn, dirs.dDirURL + Separator + pf.lfn, job.stagingSite)]
            && (linked || !dirs.local ==> r.state.local == acc.local && |r.state.remote| == |acc.remote| + 1)
            && (!(linked || !dirs.local) ==> r.state.remote == acc.remote && |r.state.local| == |acc.local| + 1)
            && |added| == 1
            && added[0].sources == [Endpoint(source.site, source.pfn)]
            && added[0].dests == [Endpoint(job.stagingSite, StageInDestURL(cfg, dirs, pf.lfn, linked))]
            && (linked ==> StartsWith(added[0].sources[0].url, FileScheme)
                           && StartsWith(added[0].dests[0].url, SymlinkScheme))
  {
    var r := StageInFile(cfg, job, dirs, pf, acc);
    var linked := LinksReplica(cfg, job, cfg.env.selectReplica(cfg.catalog[pf.lfn], job.siteHandle, dirs.local));
    if linked {
      var u := ReplaceProtocolFromURL(cfg.env.urlPath, dirs.destDir);
      assert (u + Separator + pf.lfn)[..|SymlinkScheme|] == u[..|SymlinkScheme|];
    }
  }

  // --------------------------------------------------------- the whole run

  /** A stage-in descriptor brings one of `files` that the job reads to the
      job's staging site on behalf of the job. */
  predicate StageInDescriptor(job: Job, files: seq<PFile>, ft: FileTransfer) {
    && ft.job == job.logicalName
    && HasLfn(files, ft.lfn)
    && |ft.sources| == 1
    && |ft.dests| == 1 && ft.dests[0].site == job.stagingSite
  }

  predicate AllStageIn(job: Job, files: seq<PFile>, acc: StageInAcc) {
    && (forall ft :: ft in acc.local ==> StageInDescriptor(job, files, ft))
    && (forall ft :: ft in acc.remote ==> StageInDescriptor(job, files, ft))
  }

  /** The batches and the catalog only grow at their ends. */
  predicate StageInExtends(acc: StageInAcc, s: StageInAcc) {
    && |acc.local| <= |s.local| && s.local[..|acc.local|] == acc.local
    && |acc.remote| <= |s.remote| && s.remote[..|acc.remote|] == acc.remote
    && |acc.rc| <= |s.rc| && s.rc[..|acc.rc|] == acc.rc
  }

  lemma StageInFileSound(cfg: Config, job: Job, dirs: StageInDirs, files: seq<PFile>, pf: PFile, acc: StageInAcc)
    requires pf in files
    requires AllStageIn(job, files, acc)
    ensures var s := StageInFile(cfg, job, dirs, pf, acc).state;
            && StageInExtends(acc, s)
            && AllStageIn(job, files, s)
            && (|s.local| > |acc.local| ==> dirs.local)
            && |s.rc| - |acc.rc| == (|s.local| - |acc.local|) + (|s.remote| - |acc.remote|)
  {
    var s := StageInFile(cfg, job, dirs, pf, acc).state;
    var k :| 0 <= k < |files| && files[k] == pf;
    assert HasLfn(files, pf.lfn);
    forall ft | ft in s.local || ft in s.remote
      ensures StageInDescriptor(job, files, ft)
    {
    }
  }

  /** A run over the files keeps what it was given, adds only descriptors
      for those files, each to the staging site, uses the local batch only
      when the transfers run on the submit host, and records exactly one
      placement per descriptor. */
  lemma {:induction false} StageInSound(cfg: Config, job: Job, dirs: StageInDirs, files: seq<PFile>, i: nat,
                                        acc: StageInAcc)
    requires i <= |files|
    requires AllStageIn(job, files, acc)
    ensures var s := StageInFrom(cfg, job, dirs, files, i, acc).state;
            && StageInExtends(acc, s)
            && AllStageIn(job, files, s)
            && (|s.local| > |acc.local| ==> dirs.local)
            && |s.rc| - |acc.rc| == (|s.local| - |acc.local|) + (|s.remote| - |acc.remote|)
    decreases |files| - i
  {
    if i < |files| {
      var step := StageInFile(cfg, job, dirs, files[i], acc);
      StageInFileSound(cfg, job, dirs, files, files[i], acc);
      if step.failure.None? {
        StageInSound(cfg, job, dirs, files, i + 1, step.state);
        var s := StageInFrom(cfg, job, dirs, files, i + 1, step.state).state;
        assert s.local[..|acc.local|] == s.local[..|step.state.local|][..|acc.local|];
        assert s.remote[..|acc.remote|] == s.remote[..|step.state.remote|][..|acc.remote|];
        assert s.rc[..|acc.rc|] == s.rc[..|step.state.rc|][..|acc.rc|];
      }
    }
  }

  /** The logical names of the optional files the catalog does not know. */
  function DroppedLfns(cfg: Config, files: seq<PFile>): (r: set<string>)
    ensures forall lfn :: lfn in r <==> exists f :: f in files && f.lfn == lfn && f.lfn !in cfg.catalog && f.optional
  {
    set f | f in files && f.lfn !in cfg.catalog && f.optional :: f.lfn
  }

  /** After a successful run the job reads exactly the inputs it read
      before, less the optional files the catalog does not know. */
  lemma {:induction false} StageInDropsMissingOptional(cfg: Config, job: Job, dirs: StageInDirs, files: seq<PFile>,
                                                       i: nat, acc: StageInAcc)
    requires i <= |files|
    requires StageInFrom(cfg, job, dirs, files, i, acc).failure.None?
    ensures forall q :: q in StageInFrom(cfg, job, dirs, files, i, acc).state.inputs
                        <==> q in acc.inputs && q.lfn !in DroppedLfns(cfg, files[i..])
    decreases |files| - i
  {
    if i < |files| {
      var pf := files[i];
      var step := StageInFile(cfg, job, dirs, pf, acc);
      StageInDropsMissingOptional(cfg, job, dirs, files, i + 1, step.state);
      assert files[i..] == [pf] + files[i + 1..];
      if pf.lfn !in cfg.catalog {
        assert forall q :: q in step.state.inputs <==> q in acc.inputs && q.lfn != pf.lfn;
      } else {
        assert step.state.inputs == acc.inputs;
        assert pf.lfn !in DroppedLfns(cfg, files[i..]) by {
          assert DroppedLfns(cfg, files[i..]) == DroppedLfns(cfg, files[i + 1..]);
        }
      }
    }
  }

  // -------------------------------------------------------- sub-workflows

  /** The path of a sub-workflow's description: its replica's locator when
      that is an absolute path, the path of a `file:` locator, and an error
      for any other locator. */
  function SubworkflowPath(cfg: Config, job: Job, lfn: string): (r: Result<string>)
    ensures lfn !in cfg.catalog ==> r == Fail(NoReplica(lfn))
    ensures lfn in cfg.catalog ==>
              var pfn := cfg.env.selectReplica(cfg.catalog[lfn], job.siteHandle, true).pfn;
              && (StartsWith(pfn, Separator) ==> r == Ok(pfn))
              && (!StartsWith(pfn, Separator) && StartsWith(pfn, FileScheme) ==> r == Ok(cfg.env.urlPath(pfn)))
              && (r.Fail? <==> !StartsWith(pfn, Separator) && !StartsWith(pfn, FileScheme))
              && (r.Fail? ==> r.error == InvalidSubworkflowURL(pfn))
  {
    if lfn !in cfg.catalog then Fail(NoReplica(lfn))
    else
      var pfn := cfg.env.selectReplica(cfg.catalog[lfn], job.siteHandle, true).pfn;
      if StartsWith(pfn, Separator) then Ok(pfn)
      else if StartsWith(pfn, FileScheme) then Ok(cfg.env.urlPath(pfn))
      else Fail(InvalidSubworkflowURL(pfn))
  }

  /** getFilesFromRC for a DAG job: its inputs are dropped, then its DAG
      file is the resolved path and its directory the external directory
      variable, which is removed. */
  function DAGFromRC(cfg: Config, job: Job): (r: Run<Job>)
    requires job.kind.DAGJob?
    ensures r.failure.Some? <==> SubworkflowPath(cfg, job, job.kind.dagLFN).Fail?
    ensures r.failure.Some? ==> r.failure.value == SubworkflowPath(cfg, job, job.kind.dagLFN).error
  {
    var cleared := job.(inputFiles := []);
    match SubworkflowPath(cfg, job, job.kind.dagLFN)
    case Fail(e) => Run(Some(e), cleared)
    case Ok(path) =>
      Run(None, cleared.(dagFile := Some(path), directory := job.directoryVariable, directoryVariable := None))
  }

  /** getFilesFromRC for a DAX job: its inputs are dropped, then the
      resolved path is passed to it with `--dax`. */
  function DAXFromRC(cfg: Config, job: Job): (r: Run<Job>)
    requires job.kind.DAXJob?
    ensures r.failure.Some? <==> SubworkflowPath(cfg, job, job.kind.daxLFN).Fail?
    ensures r.failure.Some? ==> r.failure.value == SubworkflowPath(cfg, job, job.kind.daxLFN).error
  {
    var cleared := job.(inputFiles := []);
    match SubworkflowPath(cfg, job, job.kind.daxLFN)
    case Fail(e) => Run(Some(e), cleared)
    case Ok(path) => Run(None, cleared.(arguments := job.arguments + " --dax " + path))
  }

  /** A sub-workflow job never has anything staged in: its inputs are gone
      whatever the outcome, it keeps its name, sites and outputs, and only
      the fields naming its description change. */
  lemma SubworkflowInputsDropped(cfg: Config, job: Job)
    requires job.kind.DAGJob? || job.kind.DAXJob?
    ensures var r := if job.kind.DAGJob? then DAGFromRC(cfg, job) else DAXFromRC(cfg, job);
            && r.state.inputFiles == []
            && r.state.(inputFiles := job.inputFiles, dagFile := job.dagFile, directory := job.directory,
                        directoryVariable := job.directoryVariable, arguments := job.arguments) == job
  {
  }

  /** A DAG job whose description resolves gets that path as its DAG file
      and takes over its directory variable. */
  lemma DAGFileResolved(cfg: Config, job: Job)
    requires job.kind.DAGJob?
    requires SubworkflowPath(cfg, job, job.kind.dagLFN).Ok?
    ensures var r := DAGFromRC(cfg, job);
            && r.failure.None?
            && r.state.dagFile == Some(SubworkflowPath(cfg, job, job.kind.dagLFN).value)
            && r.state.directory == job.directoryVariable
            && r.state.directoryVariable.None?
  {
  }

  /** A DAX job whose description resolves gets `--dax` and that path
      appended to its arguments. */
  lemma DAXArgumentAppended(cfg: Config, job: Job)
    requires job.kind.DAXJob?
    requires SubworkflowPath(cfg, job, job.kind.daxLFN).Ok?
    ensures var r := DAXFromRC(cfg, job);
            && r.failure.None?
            && StartsWith(r.state.arguments, job.arguments)
            && EndsWith(r.state.arguments, " --dax " + SubworkflowPath(cfg, job, job.kind.daxLFN).value)
  {
    var r := DAXFromRC(cfg, job);
    var tail := " --dax " + SubworkflowPath(cfg, job, job.kind.daxLFN).value;
    assert r.state.arguments == job.arguments + tail;
    assert r.state.arguments[..|job.arguments|] == job.arguments;
    assert r.state.arguments[|r.state.arguments| - |tail|..] == tail;
  }
}
